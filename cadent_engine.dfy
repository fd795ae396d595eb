/** The Cadent-3 command engine (imi_cadent3/cadent_com.py, lines 106-223).

    The pump state is the port (open or not), the device output still to be
    read, the frames written, the rows appended to the log file, the sleeps
    taken and a logical clock that stamps each log row.  Each operation of
    the script is a function from state to state (the specification) and a
    method of class Cadent3 that changes the fields in place and is proved
    to agree with it.  Python exceptions that end the script are outcomes. */
module CadentEngine {
  import opened Text
  import opened Transport
  import opened CadentFrame
  import opened CadentCommands

  /** A row of the log file: the header, or (time stamp, command, response). */
  datatype LogRow = Header | Entry(time: nat, command: string, response: string)

  /** How a step ends.  Everything but Done stops the script:
      DeviceError is the exception raised by the ready-wait on a `/0i` reply;
      ScriptExhausted means the device output ran out during the ready-wait,
      where the real loop would read empty replies and poll forever;
      NotAscii is the UnicodeEncodeError of `bytearray(cmd_full, "ascii")`;
      SleepOverflow is the OverflowError of `time.sleep` on a time that does
      not fit in signed 64-bit nanoseconds, positive or negative (the
      conversion comes before the sign test);
      NegativeDelay is the ValueError of `time.sleep` on a negative time that
      does fit;
      LabelNotText is the TypeError of joining a non-string block or step. */
  datatype Outcome =
    | Done
    | DeviceError(reply: seq<byte>)
    | ScriptExhausted
    | NotAscii(command: string)
    | NegativeDelay(seconds: int)
    | SleepOverflow(seconds: int)
    | LabelNotText

  /** The largest magnitude of a whole number of seconds that `time.sleep`
      can convert to a signed 64-bit count of nanoseconds. */
  const MaxSleepSeconds: int := 9_223_372_036

  datatype Pump = Pump(
    open: bool,
    device: seq<byte>,
    written: seq<string>,
    log: seq<LogRow>,
    sleeps: seq<int>,
    clock: nat)

  /** The state after the log file is checked and the port opened (lines
      89-127): a header row only when the log file is new, then the port
      status row. */
  function Opened(portOpened: bool, deviceOutput: seq<byte>, logExists: bool): (p: Pump)
    ensures p.open == portOpened && p.device == deviceOutput && p.written == [] && p.sleeps == []
    ensures |p.log| == (if logExists then 1 else 2) && p.log[|p.log| - 1].Entry?
  {
    var status := if portOpened then "Port opened" else "Failed to open port";
    Pump(portOpened, deviceOutput, [],
         (if logExists then [] else [Header]) + [Entry(0, "", status)], [], 1)
  }

  /** `c3wait` (lines 168-183): write the status query, read one reply up to
      ETX CR LF 0xFF; `/0`` ends the wait, `/0i` is a device error, anything
      else is busy and is followed by a one-second sleep and another query. */
  function AfterWait(p: Pump): (r: (Pump, Outcome))
    ensures r.0.open == p.open && r.0.log == p.log && r.0.clock == p.clock
    ensures r.1.Done? || r.1.DeviceError? || r.1.ScriptExhausted?
    ensures |r.0.written| > |p.written| && p.written < r.0.written
    decreases |p.device|
  {
    var polled := p.(written := p.written + [PollFrame]);
    if p.device == [] then (polled, ScriptExhausted)
    else
      var (reply, rest) := ReadUntil(p.device, PollTerminator);
      var read := polled.(device := rest);
      match Classify(reply)
      case Ready => (read, Done)
      case Failed => (read, DeviceError(RemoveAll(reply, PollTerminator)))
      case Busy => AfterWait(read.(sleeps := read.sleeps + [1]))
  }

  /** The first half of `rec_rsp` (lines 136-147): read one line and log
      it, cleaned, with the frame that was sent. */
  function Logged(p: Pump, sent: string): (q: Pump)
    ensures |q.log| == |p.log| + 1 && q.log[..|p.log|] == p.log
    ensures q.log[|p.log|].Entry? && q.log[|p.log|].time == p.clock && q.log[|p.log|].command == sent
    ensures q.clock == p.clock + 1 && q.open == p.open && q.written == p.written
    ensures |q.device| <= |p.device| && q.device == p.device[|p.device| - |q.device|..]
  {
    var (reply, rest) := ReadUntil(p.device, [LineFeed]);
    p.(device := rest, log := p.log + [Entry(p.clock, sent, Decode(Clean(reply)))], clock := p.clock + 1)
  }

  /** `rec_rsp` (lines 134-149): log the reply, then wait until ready. */
  function AfterReceive(p: Pump, sent: string): (r: (Pump, Outcome))
    ensures r.0.open == p.open && p.written < r.0.written
    ensures |r.0.log| == |p.log| + 1 && r.0.log[..|p.log|] == p.log
    ensures r.0.log[|p.log|].Entry? && r.0.log[|p.log|].time == p.clock && r.0.log[|p.log|].command == sent
    ensures r.1.Done? || r.1.DeviceError? || r.1.ScriptExhausted?
  {
    AfterWait(Logged(p, sent))
  }

  /** `send_cmd` (lines 153-165): nothing happens on a closed port. */
  function AfterSend(p: Pump, cmd: string): (r: (Pump, Outcome))
    ensures r.0.open == p.open && p.log <= r.0.log
    ensures !p.open ==> r == (p, Done)
    ensures p.open && IsAscii(cmd) ==> |r.0.log| == |p.log| + 1 && r.0.log[|p.log|].Entry? && r.0.log[|p.log|].command == Frame(cmd)
  {
    if !p.open then (p, Done)
    else if !IsAscii(cmd) then (p, NotAscii(cmd))
    else AfterReceive(p.(written := p.written + [Frame(cmd)]), Frame(cmd))
  }

  /** One iteration of the main loop (lines 189-201), by the item's type. */
  function AfterDispatch(p: Pump, item: Item): (r: (Pump, Outcome))
    ensures r.0.open == p.open && p.log <= r.0.log
    ensures r.1.DeviceError? || r.1.ScriptExhausted? || r.1.NotAscii? ==> item.Scalar? && item.value.Str?
  {
    match item
    case Label(block, step) => (p, if block.Str? && step.Str? then Done else LabelNotText)
    case Scalar(Str(cmd)) => AfterSend(p, cmd)
    case Scalar(Int(n)) =>
      if n < -MaxSleepSeconds || n > MaxSleepSeconds then (p, SleepOverflow(n))
      else if n < 0 then (p, NegativeDelay(n))
      else (p.(sleeps := p.sleeps + [n]), Done)
    case Scalar(_) => (p, Done)
  }

  /** The state after the main loop, how it ended, and how many items it
      dispatched (the failing one included). */
  datatype RunResult = RunResult(pump: Pump, outcome: Outcome, dispatched: nat)

  function AfterRun(p: Pump, items: seq<Item>): (r: RunResult)
    ensures r.dispatched <= |items|
    ensures r.outcome.Done? ==> r.dispatched == |items|
    ensures !r.outcome.Done? ==> r.dispatched > 0
    decreases |items|
  {
    if items == [] then RunResult(p, Done, 0)
    else
      var (q, o) := AfterDispatch(p, items[0]);
      if !o.Done? then RunResult(q, o, 1)
      else
        var r := AfterRun(q, items[1..]);
        r.(dispatched := r.dispatched + 1)
  }

  /** Lines 206-223: an open port is closed and the closing is logged. */
  function AfterClose(p: Pump): (q: Pump)
    ensures !q.open && p.log <= q.log
    ensures |q.log| == |p.log| + (if p.open then 1 else 0)
    ensures q.written == p.written && q.device == p.device
  {
    if p.open then p.(open := false, log := p.log + [Entry(p.clock, "", "Port closed")], clock := p.clock + 1)
    else p
  }

  /** The whole script: build the list, open the port, run the list, and
      close the port when the run ended normally.  `None` is the TypeError of
      a text sleep cell, raised before the port is opened. */
  function Session(rows: seq<CommandRow>, repetitions: int, portOpened: bool,
                   deviceOutput: seq<byte>, logExists: bool): (r: Option<RunResult>)
    ensures r.None? <==> !Comparable(rows)
    ensures r.Some? ==> (r.value.pump.open ==> portOpened && !r.value.outcome.Done?)
  {
    if !Comparable(rows) then None
    else
      var p := Opened(portOpened, deviceOutput, logExists);
      var items := Repeat(Items(rows), repetitions);
      RunKeepsPort(p, items);
      Some(Finish(AfterRun(p, items)))
  }

  /** After the main loop: a run that ended normally closes the port; an
      exception leaves it as it is. */
  function Finish(r: RunResult): (f: RunResult)
    ensures f.outcome == r.outcome && f.dispatched == r.dispatched
    ensures r.outcome.Done? ==> !f.pump.open && f.pump.written == r.pump.written
    ensures r.outcome.Done? ==> |f.pump.log| == |r.pump.log| + (if r.pump.open then 1 else 0)
    ensures !r.outcome.Done? ==> f == r
  {
    if r.outcome.Done? then r.(pump := AfterClose(r.pump)) else r
  }

  // ---------------------------------------------------------------------
  // Properties of the ready-wait

  /** The ready-wait only reads the device, writes and sleeps: the port, the
      log and the clock are untouched, what is left of the device output is
      a suffix of it, and the wait ends ready, failed or out of script. */
  lemma {:induction false} WaitKeepsLog(p: Pump)
    ensures var (q, o) := AfterWait(p);
      && q == p.(device := q.device, written := q.written, sleeps := q.sleeps)
      && |q.device| <= |p.device| && q.device == p.device[|p.device| - |q.device|..]
      && (o.Done? || o.DeviceError? || o.ScriptExhausted?)
    decreases |p.device|
  {
    if p.device != [] {
      var (reply, rest) := ReadUntil(p.device, PollTerminator);
      if Classify(reply) == Busy {
        var next := p.(written := p.written + [PollFrame], device := rest, sleeps := p.sleeps + [1]);
        WaitKeepsLog(next);
        var q := AfterWait(next).0;
        assert q.device == rest[|rest| - |q.device|..];
        assert rest == p.device[|reply|..];
      }
    }
  }

  /** Every iteration of the ready-wait writes exactly the status query and a
      busy reply costs exactly one one-second sleep: the wait writes one
      query more than it sleeps. */
  lemma {:induction false} WaitWritesQueries(p: Pump)
    ensures var q := AfterWait(p).0;
      && p.written <= q.written && p.sleeps <= q.sleeps
      && |q.written| - |p.written| == |q.sleeps| - |p.sleeps| + 1
      && (forall i :: |p.written| <= i < |q.written| ==> q.written[i] == PollFrame)
      && (forall i :: |p.sleeps| <= i < |q.sleeps| ==> q.sleeps[i] == 1)
    decreases |p.device|
  {
    if p.device != [] {
      var (reply, rest) := ReadUntil(p.device, PollTerminator);
      if Classify(reply) == Busy {
        WaitWritesQueries(p.(written := p.written + [PollFrame], device := rest, sleeps := p.sleeps + [1]));
      }
    }
  }

  /** Both of the above. */
  lemma WaitEffects(p: Pump)
    ensures var (q, o) := AfterWait(p);
      && q.open == p.open && q.log == p.log && q.clock == p.clock
      && p.written <= q.written && p.sleeps <= q.sleeps
      && |q.written| - |p.written| == |q.sleeps| - |p.sleeps| + 1
      && (forall i :: |p.written| <= i < |q.written| ==> q.written[i] == PollFrame)
      && (forall i :: |p.sleeps| <= i < |q.sleeps| ==> q.sleeps[i] == 1)
      && |q.device| <= |p.device| && q.device == p.device[|p.device| - |q.device|..]
      && (o.Done? || o.DeviceError? || o.ScriptExhausted?)
  {
    WaitKeepsLog(p);
    WaitWritesQueries(p);
  }

  /** A busy reply is answered with a sleep and another query. */
  lemma WaitOnBusy(p: Pump, reply: seq<byte>, rest: seq<byte>)
    requires IsReply(reply, PollTerminator) && Classify(reply) == Busy
    requires p.device == reply + rest
    ensures AfterWait(p) == AfterWait(p.(device := rest, written := p.written + [PollFrame], sleeps := p.sleeps + [1]))
  {
    ReadsWholeReply(reply, rest, PollTerminator);
  }

  /** A ready reply ends the wait after its query. */
  lemma WaitOnReady(p: Pump, reply: seq<byte>, rest: seq<byte>)
    requires IsReply(reply, PollTerminator) && Classify(reply) == Ready
    requires p.device == reply + rest
    ensures AfterWait(p) == (p.(device := rest, written := p.written + [PollFrame]), Done)
  {
    ReadsWholeReply(reply, rest, PollTerminator);
  }

  /** A reply starting with "/0i" ends the wait with a device error after
      its query; the error carries the reply without the poll terminator. */
  lemma WaitOnError(p: Pump, reply: seq<byte>, rest: seq<byte>)
    requires IsReply(reply, PollTerminator) && StartsWith(reply, ErrorPrefix)
    requires p.device == reply + rest
    ensures AfterWait(p) ==
      (p.(device := rest, written := p.written + [PollFrame]), DeviceError(RemoveAll(reply, PollTerminator)))
  {
    ReadsWholeReply(reply, rest, PollTerminator);
  }

  /** "/0@" and "/0`" followed by the poll terminator. */
  const BusyReply: seq<byte> := [0x2F, 0x30, 0x40, 0x03, 0x0D, 0x0A, 0xFF]
  const ReadyReply: seq<byte> := [0x2F, 0x30, 0x60, 0x03, 0x0D, 0x0A, 0xFF]

  /** A status reply of seven bytes is read whole by the ready-wait. */
  lemma StatusReplyIsWhole(reply: seq<byte>)
    requires |reply| == 7 && reply[3..] == PollTerminator
    ensures IsReply(reply, PollTerminator)
  {
    forall j | 0 <= j < |reply|
      ensures !EndsWith(reply[..j], PollTerminator)
    {
      if j >= 4 {
        assert reply[..j][j - 1] == reply[j - 1];
      }
    }
  }

  /** "/0@" is a whole busy reply and "/0`" a whole ready reply. */
  lemma StatusRepliesClassified()
    ensures IsReply(BusyReply, PollTerminator) && Classify(BusyReply) == Busy
    ensures IsReply(ReadyReply, PollTerminator) && Classify(ReadyReply) == Ready
  {
    StatusReplyIsWhole(BusyReply);
    StatusReplyIsWhole(ReadyReply);
    assert BusyReply[..3] == [0x2F, 0x30, 0x40];
    assert ReadyReply[..3] == ReadyPrefix;
  }

  /** Two busy replies in a row: two queries and two sleeps, then the wait
      starts over on what follows them. */
  lemma WaitTwoBusy(p: Pump, busy1: seq<byte>, busy2: seq<byte>, rest: seq<byte>)
    requires IsReply(busy1, PollTerminator) && Classify(busy1) == Busy
    requires IsReply(busy2, PollTerminator) && Classify(busy2) == Busy
    requires p.device == busy1 + busy2 + rest
    ensures AfterWait(p) ==
      AfterWait(p.(device := rest, written := p.written + [PollFrame, PollFrame], sleeps := p.sleeps + [1, 1]))
  {
    var p1 := p.(device := busy2 + rest, written := p.written + [PollFrame], sleeps := p.sleeps + [1]);
    var p2 := p.(device := rest, written := p.written + [PollFrame, PollFrame], sleeps := p.sleeps + [1, 1]);
    assert p1.(device := rest, written := p1.written + [PollFrame], sleeps := p1.sleeps + [1]) == p2;
    assert AfterWait(p) == AfterWait(p1) by {
      assert p.device == busy1 + (busy2 + rest);
      WaitOnBusy(p, busy1, busy2 + rest);
    }
    WaitOnBusy(p1, busy2, rest);
  }

  /** Two busy replies and a ready one, whatever their bytes. */
  lemma WaitTwoBusyThenReady(p: Pump, busy1: seq<byte>, busy2: seq<byte>, ready: seq<byte>)
    requires IsReply(busy1, PollTerminator) && Classify(busy1) == Busy
    requires IsReply(busy2, PollTerminator) && Classify(busy2) == Busy
    requires IsReply(ready, PollTerminator) && Classify(ready) == Ready
    requires p.device == busy1 + busy2 + ready
    ensures AfterWait(p) ==
      (p.(device := [], written := p.written + [PollFrame, PollFrame, PollFrame], sleeps := p.sleeps + [1, 1]), Done)
  {
    var p2 := p.(device := ready, written := p.written + [PollFrame, PollFrame], sleeps := p.sleeps + [1, 1]);
    WaitTwoBusy(p, busy1, busy2, ready);
    assert p2.device == ready + [];
    WaitOnReady(p2, ready, []);
    assert p2.written + [PollFrame] == p.written + [PollFrame, PollFrame, PollFrame];
  }

  /** Busy, busy, ready: three status queries and two one-second sleeps. */
  lemma BusyBusyReady(p: Pump)
    requires p.device == BusyReply + BusyReply + ReadyReply
    ensures AfterWait(p) ==
      (p.(device := [], written := p.written + [PollFrame, PollFrame, PollFrame], sleeps := p.sleeps + [1, 1]), Done)
  {
    StatusRepliesClassified();
    WaitTwoBusyThenReady(p, BusyReply, BusyReply, ReadyReply);
  }

  // ---------------------------------------------------------------------
  // Properties of sending one command

  /** A closed port or a non-ASCII command changes nothing: nothing is
      written and no row is logged. */
  lemma SendRefused(p: Pump, cmd: string)
    requires !p.open || !IsAscii(cmd)
    ensures AfterSend(p, cmd) == (p, if p.open then NotAscii(cmd) else Done)
  {
  }

  /** On an open port an ASCII command writes its frame, then appends exactly
      one log row (time, frame, cleaned reply) before the ready-wait, which
      writes only status queries. */
  lemma SendLogsOneRow(p: Pump, cmd: string)
    requires p.open && IsAscii(cmd)
    ensures var (q, o) := AfterSend(p, cmd);
      && q.open
      && q.log == p.log + [Entry(p.clock, Frame(cmd), Decode(Clean(ReadUntil(p.device, [LineFeed]).0)))]
      && q.clock == p.clock + 1
      && p.written < q.written && q.written[|p.written|] == Frame(cmd)
      && (forall i :: |p.written| < i < |q.written| ==> q.written[i] == PollFrame)
      && (o.Done? || o.DeviceError? || o.ScriptExhausted?)
  {
    var reply := ReadUntil(p.device, [LineFeed]).0;
    var logged := Logged(p.(written := p.written + [Frame(cmd)]), Frame(cmd));
    assert AfterSend(p, cmd) == AfterWait(logged);
    assert logged.open && logged.written == p.written + [Frame(cmd)] && logged.clock == p.clock + 1;
    assert logged.log == p.log + [Entry(p.clock, Frame(cmd), Decode(Clean(reply)))];
    WaitEffects(logged);
  }

  // ---------------------------------------------------------------------
  // Properties of the main loop

  /** The frames a port that is open sends for these items: one per ASCII
      command string, in order. */
  function SentFrames(items: seq<Item>): seq<string>
    decreases |items|
  {
    if items == [] then []
    else
      (match items[0]
       case Scalar(Str(cmd)) => if IsAscii(cmd) then [Frame(cmd)] else []
       case _ => [])
      + SentFrames(items[1..])
  }

  /** The command column of log rows. */
  function Commands(rows: seq<LogRow>): seq<string>
    decreases |rows|
  {
    if rows == [] then []
    else (if rows[0].Entry? then [rows[0].command] else []) + Commands(rows[1..])
  }

  lemma {:induction false} CommandsAppend(a: seq<LogRow>, b: seq<LogRow>)
    ensures Commands(a + b) == Commands(a) + Commands(b)
    decreases |a|
  {
    if a == [] {
      assert a + b == b;
    } else {
      assert (a + b)[0] == a[0];
      CommandsAppend(a[1..], b);
      assert (a + b)[1..] == a[1..] + b;
    }
  }

  /** An item that is not a command string neither writes nor logs.  A
      label with text block and step is only printed, and one without raises
      TypeError; an integer sleeps that long when `time.sleep` accepts it and
      raises otherwise; any other value (a float, an empty cell) is skipped.
      Only the errors stop the run. */
  lemma DispatchNonCommand(p: Pump, item: Item)
    requires !(item.Scalar? && item.value.Str?)
    ensures var (q, o) := AfterDispatch(p, item);
      && q.written == p.written && q.log == p.log && q.device == p.device
    ensures item.Label? ==>
      AfterDispatch(p, item) == (p, if item.block.Str? && item.step.Str? then Done else LabelNotText)
    ensures item.Scalar? && item.value.Int? && 0 <= item.value.i <= MaxSleepSeconds ==>
      AfterDispatch(p, item) == (p.(sleeps := p.sleeps + [item.value.i]), Done)
    ensures item.Scalar? && item.value.Int? && -MaxSleepSeconds <= item.value.i < 0 ==>
      AfterDispatch(p, item) == (p, NegativeDelay(item.value.i))
    ensures item.Scalar? && item.value.Int? && (item.value.i < -MaxSleepSeconds || item.value.i > MaxSleepSeconds) ==>
      AfterDispatch(p, item) == (p, SleepOverflow(item.value.i))
    ensures item.Scalar? && (item.value.Float? || item.value.NaN?) ==>
      AfterDispatch(p, item) == (p, Done)
  {
  }

  /** A step that stops the run ends it: whatever follows is never
      dispatched, so no later item is sent, slept or printed. */
  lemma {:induction false} RunStopsAtFailure(p: Pump, items: seq<Item>, more: seq<Item>)
    requires !AfterRun(p, items).outcome.Done?
    ensures AfterRun(p, items + more) == AfterRun(p, items)
    decreases |items|
  {
    assert (items + more)[0] == items[0];
    var (q, o) := AfterDispatch(p, items[0]);
    if o.Done? {
      assert (items + more)[1..] == items[1..] + more;
      RunStopsAtFailure(q, items[1..], more);
    }
  }

  /** A run over two lists, the first of which runs to its end, is the run
      over the first followed by the run over the second. */
  lemma {:induction false} RunAppend(p: Pump, a: seq<Item>, b: seq<Item>)
    requires AfterRun(p, a).outcome.Done?
    ensures AfterRun(p, a + b) == Advanced(AfterRun(AfterRun(p, a).pump, b), |a|)
    decreases |a|
  {
    if a == [] {
      assert a + b == b;
    } else {
      var (q, o) := AfterDispatch(p, a[0]);
      assert (a + b)[0] == a[0] && (a + b)[1..] == a[1..] + b;
      RunAppend(q, a[1..], b);
    }
  }

  /** A device error while waiting after item `k` ends the run there: item
      `k` is a command string sent on an open port, its row is the last one
      logged, and no item after it is dispatched. */
  lemma RunStopsAtDeviceError(p: Pump, items: seq<Item>, k: nat)
    requires k < |items|
    requires AfterRun(p, items[..k]).outcome.Done?
    requires AfterDispatch(AfterRun(p, items[..k]).pump, items[k]).1.DeviceError?
    ensures var q := AfterRun(p, items[..k]).pump;
      var r := AfterRun(p, items);
      && r.dispatched == k + 1
      && r.outcome == AfterDispatch(q, items[k]).1
      && items[k].Scalar? && items[k].value.Str? && q.open
      && r.pump.log == q.log + [Entry(q.clock, Frame(items[k].value.s), Decode(Clean(ReadUntil(q.device, [LineFeed]).0)))]
  {
    var q := AfterRun(p, items[..k]).pump;
    assert items == items[..k] + items[k..];
    RunAppend(p, items[..k], items[k..]);
    assert items[k..][0] == items[k];
    var item := items[k];
    if !(item.Scalar? && item.value.Str?) {
      assert false;
    }
    if !q.open || !IsAscii(item.value.s) {
      assert false;
    }
    SendLogsOneRow(q, item.value.s);
  }

  /** The run is decided by the items it dispatched. */
  lemma {:induction false} RunIsItsPrefix(p: Pump, items: seq<Item>)
    ensures var r := AfterRun(p, items); AfterRun(p, items[..r.dispatched]) == r
    decreases |items|
  {
    if items != [] {
      var (q, o) := AfterDispatch(p, items[0]);
      var r := AfterRun(p, items);
      if o.Done? {
        RunIsItsPrefix(q, items[1..]);
        var d := r.dispatched;
        assert items[..d][0] == items[0];
        assert items[..d][1..] == items[1..][..d - 1];
      } else {
        assert items[..1][1..] == [];
      }
    }
  }

  /** One dispatched item logs the command frame it sends, if any. */
  lemma DispatchLogs(p: Pump, item: Item)
    ensures var (q, o) := AfterDispatch(p, item);
      q.open == p.open && p.log <= q.log
      && Commands(q.log[|p.log|..]) == (if p.open then SentFrames([item]) else [])
  {
    var (q, o) := AfterDispatch(p, item);
    assert [item][1..] == [];
    if item.Scalar? && item.value.Str? {
      if p.open && IsAscii(item.value.s) {
        SendLogsOneRow(p, item.value.s);
        assert q.log[|p.log|..] == [q.log[|p.log|]];
      } else {
        SendRefused(p, item.value.s);
        assert q.log[|p.log|..] == [];
      }
    } else {
      DispatchNonCommand(p, item);
      assert q.log[|p.log|..] == [];
    }
  }

  /** The frames of a prefix are those of its first item, then of the rest. */
  lemma SentFramesOfPrefix(items: seq<Item>, d: nat)
    requires 1 <= d <= |items|
    ensures SentFrames(items[..d]) == SentFrames([items[0]]) + SentFrames(items[1..][..d - 1])
  {
    assert items[..d][0] == items[0];
    assert items[..d][1..] == items[1..][..d - 1];
    assert [items[0]][1..] == [];
  }

  /** A run neither opens nor closes the port and only appends to the log. */
  lemma {:induction false} RunKeepsPort(p: Pump, items: seq<Item>)
    ensures var r := AfterRun(p, items); r.pump.open == p.open && p.log <= r.pump.log
    decreases |items|
  {
    if items != [] {
      var (q, o) := AfterDispatch(p, items[0]);
      DispatchLogs(p, items[0]);
      if o.Done? {
        RunKeepsPort(q, items[1..]);
      }
    }
  }

  /** The commands logged over two stretches of log, one after the other. */
  lemma CommandsOfStretches(a: seq<LogRow>, b: seq<LogRow>, c: seq<LogRow>)
    requires a <= b <= c
    ensures Commands(c[|a|..]) == Commands(b[|a|..]) + Commands(c[|b|..])
  {
    assert c[|a|..] == b[|a|..] + c[|b|..];
    CommandsAppend(b[|a|..], c[|b|..]);
  }

  /** On an open port the rows a run appends are one per command frame sent
      for the dispatched items, in order, and the port stays open. */
  lemma {:induction false} RunLogsWhenOpen(p: Pump, items: seq<Item>)
    requires p.open
    ensures var r := AfterRun(p, items);
      && r.pump.open
      && p.log <= r.pump.log
      && Commands(r.pump.log[|p.log|..]) == SentFrames(items[..r.dispatched])
    decreases |items|
  {
    var r := AfterRun(p, items);
    if items == [] {
      assert r.pump.log[|p.log|..] == [];
    } else {
      var item := items[0];
      var step := AfterDispatch(p, item);
      var q := step.0;
      DispatchLogs(p, item);
      if !step.1.Done? {
        assert r == RunResult(q, step.1, 1);
        assert items[..r.dispatched] == [item];
      } else {
        var r1 := AfterRun(q, items[1..]);
        assert r == Advanced(r1, 1);
        RunLogsWhenOpen(q, items[1..]);
        CommandsOfStretches(p.log, q.log, r.pump.log);
        SentFramesOfPrefix(items, r.dispatched);
      }
    }
  }

  /** The log rows a run appends are exactly one per command frame sent, in
      order: the frames of the ASCII command strings among the dispatched
      items when the port is open, and none when it is closed.  The port is
      neither opened nor closed by the run. */
  lemma RunLogsEachCommand(p: Pump, items: seq<Item>)
    ensures var r := AfterRun(p, items);
      && r.pump.open == p.open
      && p.log <= r.pump.log
      && Commands(r.pump.log[|p.log|..]) == (if p.open then SentFrames(items[..r.dispatched]) else [])
  {
    var r := AfterRun(p, items);
    if p.open {
      RunLogsWhenOpen(p, items);
    } else {
      RunKeepsPort(p, items);
      RunOnClosedPort(p, items);
      assert r.pump.log[|p.log|..] == [];
    }
  }

  /** On a closed port the run writes nothing and logs nothing. */
  lemma {:induction false} RunOnClosedPort(p: Pump, items: seq<Item>)
    requires !p.open
    ensures var q := AfterRun(p, items).pump;
      q.written == p.written && q.log == p.log && q.device == p.device
    decreases |items|
  {
    if items != [] {
      var item := items[0];
      if item.Scalar? && item.value.Str? {
        SendRefused(p, item.value.s);
      } else {
        DispatchNonCommand(p, item);
      }
      var (q, o) := AfterDispatch(p, item);
      if o.Done? {
        RunOnClosedPort(q, items[1..]);
      }
    }
  }

  /** The log of a session that opened the port (or failed to) and ran the
      items: the header exactly when the log file was new, the port status
      row, one row per command frame sent for the dispatched items, and the
      "Port closed" row when the list ran to its end on an open port. */
  lemma OpenedRunLog(portOpened: bool, deviceOutput: seq<byte>, logExists: bool, items: seq<Item>)
    ensures var r := Finish(AfterRun(Opened(portOpened, deviceOutput, logExists), items));
      var log := r.pump.log;
      var k := if logExists then 1 else 2;
      && k <= |log|
      && (log[0] == Header <==> !logExists)
      && log[k - 1] == Entry(0, "", if portOpened then "Port opened" else "Failed to open port")
      && (r.pump.open <==> portOpened && !r.outcome.Done?)
      && (!portOpened ==> |log| == k)
      && (portOpened && !r.outcome.Done? ==> Commands(log[k..]) == SentFrames(items[..r.dispatched]))
      && (portOpened && r.outcome.Done? ==>
            && k < |log|
            && Commands(log[k..|log| - 1]) == SentFrames(items)
            && log[|log| - 1].Entry? && log[|log| - 1].command == "" && log[|log| - 1].response == "Port closed")
  {
    var p := Opened(portOpened, deviceOutput, logExists);
    var r0 := AfterRun(p, items);
    RunLogsEachCommand(p, items);
    if !portOpened {
      RunOnClosedPort(p, items);
    }
    if portOpened && r0.outcome.Done? {
      var q := AfterClose(r0.pump);
      assert q.log[|p.log|..|q.log| - 1] == r0.pump.log[|p.log|..];
      assert items[..r0.dispatched] == items;
    }
  }

  /** The log of a whole session.  A list with a text sleep cell stops the
      script before the port is opened.  Otherwise the log holds a header
      exactly when the log file was new, then the port status row, then one
      row per command frame sent for the dispatched items, and, when the
      list ran to its end on an open port, the "Port closed" row.  The port
      is left open only when a step stopped the script. */
  lemma SessionLog(rows: seq<CommandRow>, repetitions: int, portOpened: bool,
                   deviceOutput: seq<byte>, logExists: bool)
    ensures Session(rows, repetitions, portOpened, deviceOutput, logExists).None? <==> !Comparable(rows)
    ensures Session(rows, repetitions, portOpened, deviceOutput, logExists).Some? ==>
      var r := Session(rows, repetitions, portOpened, deviceOutput, logExists).value;
      var items := Repeat(Items(rows), repetitions);
      var log := r.pump.log;
      var k := if logExists then 1 else 2;
      && k <= |log|
      && (log[0] == Header <==> !logExists)
      && log[k - 1] == Entry(0, "", if portOpened then "Port opened" else "Failed to open port")
      && (r.pump.open <==> portOpened && !r.outcome.Done?)
      && (!portOpened ==> |log| == k)
      && (portOpened && !r.outcome.Done? ==> Commands(log[k..]) == SentFrames(items[..r.dispatched]))
      && (portOpened && r.outcome.Done? ==>
            && k < |log|
            && Commands(log[k..|log| - 1]) == SentFrames(items)
            && log[|log| - 1].Entry? && log[|log| - 1].command == "" && log[|log| - 1].response == "Port closed")
  {
    if Comparable(rows) {
      OpenedRunLog(portOpened, deviceOutput, logExists, Repeat(Items(rows), repetitions));
    }
  }

  // ---------------------------------------------------------------------
  // The script's state, updated in place

  class Cadent3 {
    var open: bool
    var device: seq<byte>
    var written: seq<string>
    var log: seq<LogRow>
    var sleeps: seq<int>
    var clock: nat

    function State(): Pump
      reads this
    {
      Pump(open, device, written, log, sleeps, clock)
    }

    /** Lines 89-127: the log file and the port. */
    constructor (portOpened: bool, deviceOutput: seq<byte>, logExists: bool)
      ensures State() == Opened(portOpened, deviceOutput, logExists)
    {
      open := portOpened;
      device := deviceOutput;
      written := [];
      sleeps := [];
      log := if logExists then [] else [Header];
      var status := if portOpened then "Port opened" else "Failed to open port";
      log := log + [Entry(0, "", status)];
      clock := 1;
    }

    /** `c3wait`. */
    method WaitUntilReady() returns (o: Outcome)
      modifies this
      ensures (State(), o) == AfterWait(old(State()))
    {
      while true
        invariant AfterWait(State()) == AfterWait(old(State()))
        decreases |device|
      {
        written := written + [PollFrame];
        if device == [] {
          return ScriptExhausted;
        }
        var chunk := ReadUntil(device, PollTerminator);
        var reply, rest := chunk.0, chunk.1;
        device := rest;
        match Classify(reply)
        case Ready =>
          return Done;
        case Failed =>
          return DeviceError(RemoveAll(reply, PollTerminator));
        case Busy =>
          sleeps := sleeps + [1];
      }
    }

    /** `rec_rsp`. */
    method ReceiveResponse(sent: string) returns (o: Outcome)
      modifies this
      ensures (State(), o) == AfterReceive(old(State()), sent)
    {
      ghost var before := State();
      var chunk := ReadUntil(device, [LineFeed]);
      var reply, rest := chunk.0, chunk.1;
      var row := Entry(clock, sent, Decode(Clean(reply)));
      assert Logged(before, sent) == before.(device := rest, log := before.log + [row], clock := before.clock + 1);
      device, log, clock := rest, log + [row], clock + 1;
      o := WaitUntilReady();
    }

    /** `send_cmd`. */
    method SendCommand(cmd: string) returns (o: Outcome)
      modifies this
      ensures (State(), o) == AfterSend(old(State()), cmd)
    {
      if !open {
        return Done;
      }
      var frame := Frame(cmd);
      if !IsAscii(cmd) {
        return NotAscii(cmd);
      }
      written := written + [frame];
      o := ReceiveResponse(frame);
    }

    /** The body of the main loop. */
    method DispatchItem(item: Item) returns (o: Outcome)
      modifies this
      ensures (State(), o) == AfterDispatch(old(State()), item)
    {
      match item
      case Label(block, step) =>
        o := if block.Str? && step.Str? then Done else LabelNotText;
      case Scalar(value) =>
        match value
        case Str(cmd) =>
          o := SendCommand(cmd);
        case Int(n) =>
          if n < -MaxSleepSeconds || n > MaxSleepSeconds {
            o := SleepOverflow(n);
          } else if n < 0 {
            o := NegativeDelay(n);
          } else {
            sleeps := sleeps + [n];
            o := Done;
          }
        case _ =>
          o := Done;
    }

    /** The main loop (lines 189-201): dispatch each item in order until one
      of them stops the script. */
    method RunCommandList(items: seq<Item>) returns (o: Outcome, dispatched: nat)
      modifies this
      ensures AfterRun(old(State()), items) == RunResult(State(), o, dispatched)
    {
      var i := 0;
      assert items[i..] == items;
      while i < |items|
        invariant 0 <= i <= |items|
        invariant AfterRun(old(State()), items) == Advanced(AfterRun(State(), items[i..]), i)
      {
        assert items[i..][0] == items[i] && items[i..][1..] == items[i + 1..];
        o := DispatchItem(items[i]);
        i := i + 1;
        if !o.Done? {
          return o, i;
        }
      }
      return Done, i;
    }

    /** Lines 206-223. */
    method ClosePort()
      modifies this
      ensures State() == AfterClose(old(State()))
    {
      if open {
        open := false;
        log := log + [Entry(clock, "", "Port closed")];
        clock := clock + 1;
      }
    }
  }

  /** A run result seen from `i` items earlier. */
  function Advanced(r: RunResult, i: nat): RunResult
  {
    r.(dispatched := r.dispatched + i)
  }

  /** The whole script with its state held in one Cadent3 object. */
  method RunScript(rows: seq<CommandRow>, repetitions: int, portOpened: bool,
                   deviceOutput: seq<byte>, logExists: bool) returns (r: Option<RunResult>)
    ensures r == Session(rows, repetitions, portOpened, deviceOutput, logExists)
  {
    var list := BuildCommandList(rows, repetitions);
    if list.None? {
      return None;
    }
    var pump := new Cadent3(portOpened, deviceOutput, logExists);
    var o, dispatched := pump.RunCommandList(list.value);
    if o.Done? {
      pump.ClosePort();
    }
    r := Some(RunResult(pump.State(), o, dispatched));
  }
}
