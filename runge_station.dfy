/** The Runge mikron 31 acquisition script (runge_mikron31/runge_com.py).

    The station state is the detector output still to be read, the frames
    written to the detector, the operator's inputs still to be typed, the
    text log `rng_log`, the data series `rng_data`, the shared exit flag,
    the state of the two threads, the wavelength labels and a logical clock
    for the time stamps.  The start-up queries run alone; afterwards the
    control thread and the recording thread run side by side, and a run is
    given by the order in which their steps happen (a list of turns).  The
    recording thread's loop has two steps: checking the exit flag, then
    reading and routing one line.  Each operation is a function from state
    to state and a method of class Mikron31 proved to agree with it. */
module RungeStation {
  import opened Text
  import opened Transport
  import opened RungeLine

  /** An entry of `rng_log`: a time stamp or a line of text. */
  datatype LogItem = Stamp(time: nat) | Line(text: string)

  /** Why the control thread died: `input()` found no more input (EOFError),
      the input is not ASCII (UnicodeEncodeError), or `SIG_START` was typed
      while the recording thread had already been started (RuntimeError). */
  datatype Crash = InputClosed | NotAscii(text: string) | StartedTwice

  datatype Control = Prompting | Stopped | Crashed(reason: Crash)

  /** The recording thread: not started yet, about to test the exit flag,
      about to read a line, or returned. */
  datatype Recorder = NotStarted | Checking | Reading | Finished

  datatype Station = Station(
    device: string,
    written: seq<string>,
    inputs: seq<string>,
    log: seq<LogItem>,
    data: seq<seq<real>>,
    exitFlag: bool,
    sleeps: seq<int>,
    clock: nat,
    control: Control,
    recorder: Recorder,
    wl1: Option<string>,
    wl2: Option<string>)

  /** Line 30: the zero row the series starts with. */
  const Placeholder: seq<real> := [0.0, 0.0, 0.0, 0.0, 0.0]

  /** Lines 22-32: the port is open, the flag is down, the series holds the
      placeholder and the log holds the start time. */
  function Fresh(device: string, inputs: seq<string>): (s: Station)
    ensures s.data == [Placeholder] && !s.exitFlag && s.log == [Stamp(0)]
    ensures s.written == [] && s.device == device && s.inputs == inputs
    ensures s.control.Prompting? && s.recorder.NotStarted? && s.wl1.None? && s.wl2.None?
  {
    Station(device, [], inputs, [Stamp(0)], [Placeholder], false, [], 1,
            Prompting, NotStarted, None, None)
  }

  /** The frame written for a command or an input: the text and a carriage
      return. */
  function Frame(text: string): (f: string)
    ensures |f| == |text| + 1 && f[..|text|] == text
    ensures EndsWith(f, [CarriageReturn])
  {
    text + [CarriageReturn]
  }

  // ---------------------------------------------------------------------
  // Start-up queries

  /** `query` (lines 43-50): write the frame, then read up to the first
      carriage return.  None is the UnicodeEncodeError of a non-ASCII
      command, raised before anything is written. */
  function AfterQuery(s: Station, cmd: string): (r: (Station, Option<string>))
    ensures r.1.Some? <==> IsAscii(cmd)
  {
    if !IsAscii(cmd) then (s, None)
    else
      var (reply, rest) := ReadUntil(s.device, [CarriageReturn]);
      (s.(written := s.written + [Frame(cmd)], device := rest), Some(reply))
  }

  /** The query writes exactly its frame and returns the detector's output up
      to and including the first carriage return, or all of it when no
      carriage return comes (the read times out). */
  lemma QueryReadsOneLine(s: Station, cmd: string)
    requires IsAscii(cmd)
    ensures var (t, reply) := AfterQuery(s, cmd);
      && t.written == s.written + [Frame(cmd)]
      && reply.value + t.device == s.device
      && (forall i :: 0 <= i < |reply.value| - 1 ==> reply.value[i] != CarriageReturn)
      && (EndsWith(reply.value, [CarriageReturn]) || t.device == [])
      && t == s.(written := t.written, device := t.device)
  {
    ChunkHasOneTerminator(s.device, CarriageReturn);
  }

  /** A detector that answers with a whole line gives the query that line. */
  lemma QueryReadsReply(s: Station, cmd: string, line: string, rest: string)
    requires IsAscii(cmd) && CarriageReturn !in line
    requires s.device == line + [CarriageReturn] + rest
    ensures AfterQuery(s, cmd).1 == Some(line + [CarriageReturn])
    ensures AfterQuery(s, cmd).0.device == rest
  {
    LineIsReply(line, CarriageReturn);
    ReadsWholeReply(line + [CarriageReturn], rest, [CarriageReturn]);
  }

  /** Line 55. */
  const InitQueries: seq<string> := ["IDENTIFY?", "INFO?", "STATUS?", "MOD1_INFO?", "MOD2_INFO?", "STOP"]

  predicate AllAscii(qs: seq<string>)
  {
    forall i :: 0 <= i < |qs| ==> IsAscii(qs[i])
  }

  /** How the start-up ends: normally, or with the IndexError of a module
      info reply that has fewer than three fields. */
  datatype InitOutcome = InitDone | FieldMissing(reply: string)

  /** Lines 64-67: a module info reply sets its wavelength label. */
  function NoteWavelength(s: Station, rsp: string): (r: Option<Station>)
    ensures r.None? <==> (StartsWith(rsp, Mod1Prefix) || StartsWith(rsp, Mod2Prefix)) && Wavelength(rsp).None?
  {
    if StartsWith(rsp, Mod1Prefix) then
      (match Wavelength(rsp)
       case None => None
       case Some(w) => Some(s.(wl1 := Some(w))))
    else if StartsWith(rsp, Mod2Prefix) then
      (match Wavelength(rsp)
       case None => None
       case Some(w) => Some(s.(wl2 := Some(w))))
    else Some(s)
  }

  /** No reply starts with both module info prefixes. */
  lemma ModulePrefixesExclusive(rsp: string)
    ensures !(StartsWith(rsp, Mod1Prefix) && StartsWith(rsp, Mod2Prefix))
  {
    if StartsWith(rsp, Mod1Prefix) {
      assert rsp[..|Mod1Prefix|][3] == '1';
    }
  }

  /** Noting a wavelength changes nothing but the labels. */
  lemma NoteWavelengthKeeps(s: Station, rsp: string)
    ensures NoteWavelength(s, rsp).Some? ==>
      var t := NoteWavelength(s, rsp).value;
      t == s.(wl1 := t.wl1, wl2 := t.wl2)
  {
  }

  /** Lines 58-62: query, then log the reply without carriage returns. */
  function Asked(s: Station, q: string): (r: (Station, string))
    requires IsAscii(q)
    ensures r.0.written == s.written + [Frame(q)] && r.1 + r.0.device == s.device
    ensures |r.0.log| == |s.log| + 1 && r.0.log[..|s.log|] == s.log
    ensures r.0.log[|s.log|].Line? && CarriageReturn !in r.0.log[|s.log|].text
    ensures r.0.data == s.data && r.0.exitFlag == s.exitFlag && r.0.inputs == s.inputs
  {
    var (s1, reply) := AfterQuery(s, q);
    QueryReadsOneLine(s, q);
    RemoveAllSingle(reply.value, CarriageReturn);
    (s1.(log := s1.log + [Line(RemoveAll(reply.value, [CarriageReturn]))]), reply.value)
  }

  /** The loop of lines 57-67 over the queries `qs`: each reply is logged,
      then checked for a wavelength. */
  function AfterInitFrom(s: Station, qs: seq<string>): (r: (Station, InitOutcome))
    requires AllAscii(qs)
    ensures r.0.data == s.data && r.0.exitFlag == s.exitFlag && r.0.inputs == s.inputs
    ensures |r.0.written| <= |s.written| + |qs|
    decreases |qs|
  {
    if qs == [] then (s, InitDone)
    else
      var (s1, rsp) := Asked(s, qs[0]);
      match NoteWavelength(s1, rsp)
      case None => (s1, FieldMissing(rsp))
      case Some(s2) => AfterInitFrom(s2, qs[1..])
  }

  /** The start-up commands are plain ASCII, so none of them fails to encode. */
  lemma InitQueriesAreAscii()
    ensures AllAscii(InitQueries)
  {
  }

  function AfterInit(s: Station): (r: (Station, InitOutcome))
    ensures r.0.data == s.data && r.0.exitFlag == s.exitFlag && r.0.inputs == s.inputs
    ensures |r.0.written| <= |s.written| + |InitQueries|
  {
    InitQueriesAreAscii();
    AfterInitFrom(s, InitQueries)
  }

  /** The frames of a list of commands. */
  function Frames(qs: seq<string>): seq<string>
    decreases |qs|
  {
    if qs == [] then [] else [Frame(qs[0])] + Frames(qs[1..])
  }

  /** One query of the start-up writes its frame and logs one line free of
      carriage returns; only the labels may change besides. */
  lemma AskedLogsOneLine(s: Station, q: string)
    requires IsAscii(q)
    ensures var (t, rsp) := Asked(s, q);
      && t == s.(device := t.device, written := s.written + [Frame(q)], log := s.log + [Line(RemoveAll(rsp, [CarriageReturn]))])
      && CarriageReturn !in RemoveAll(rsp, [CarriageReturn])
      && (NoteWavelength(t, rsp).Some? ==>
            var u := NoteWavelength(t, rsp).value; u == t.(wl1 := u.wl1, wl2 := u.wl2))
  {
    var (t, rsp) := Asked(s, q);
    RemoveAllSingle(rsp, CarriageReturn);
    NoteWavelengthKeeps(t, rsp);
  }

  /** The queries after the first are ASCII too. */
  lemma AllAsciiTail(qs: seq<string>)
    requires AllAscii(qs) && qs != []
    ensures IsAscii(qs[0]) && AllAscii(qs[1..])
  {
    assert forall i :: 0 <= i < |qs| - 1 ==> qs[1..][i] == qs[i + 1];
  }

  /** Start-up changes only the detector output, the frames written, the
      log and the labels: the series, the flag, the inputs, the clock and the
      threads are untouched. */
  lemma {:induction false} InitKeepsRest(s: Station, qs: seq<string>)
    requires AllAscii(qs)
    ensures var t := AfterInitFrom(s, qs).0;
      t == s.(device := t.device, written := t.written, log := t.log, wl1 := t.wl1, wl2 := t.wl2)
    decreases |qs|
  {
    if qs != [] {
      AllAsciiTail(qs);
      AskedLogsOneLine(s, qs[0]);
      var (s1, rsp) := Asked(s, qs[0]);
      if NoteWavelength(s1, rsp).Some? {
        InitKeepsRest(NoteWavelength(s1, rsp).value, qs[1..]);
      }
    }
  }

  /** `t`'s log is `s`'s log followed by lines free of carriage returns. */
  predicate LogsLines(s: Station, t: Station)
  {
    && s.log <= t.log
    && forall i :: |s.log| <= i < |t.log| ==> t.log[i].Line? && CarriageReturn !in t.log[i].text
  }

  lemma LogsLinesTrans(a: Station, b: Station, c: Station)
    requires LogsLines(a, b) && LogsLines(b, c)
    ensures LogsLines(a, c)
  {
  }

  /** One iteration of the start-up loop: the query's frame is written and
      one carriage-return-free line is logged; then the loop either fails on
      a missing wavelength field or goes on, with only the labels changed,
      over the remaining queries. */
  lemma InitStep(s: Station, qs: seq<string>)
    requires AllAscii(qs) && qs != []
    ensures AllAscii(qs[1..])
    ensures var (s1, rsp) := Asked(s, qs[0]);
      && s1.written == s.written + [Frame(qs[0])]
      && |s1.log| == |s.log| + 1 && LogsLines(s, s1)
      && (NoteWavelength(s1, rsp).None? ==> AfterInitFrom(s, qs) == (s1, FieldMissing(rsp)))
      && (NoteWavelength(s1, rsp).Some? ==>
            var s2 := NoteWavelength(s1, rsp).value;
            && s2.log == s1.log && s2.written == s1.written
            && AfterInitFrom(s, qs) == AfterInitFrom(s2, qs[1..]))
  {
    AllAsciiTail(qs);
    AskedLogsOneLine(s, qs[0]);
  }

  /** Start-up appends one line per reply read, each free of carriage
      returns; when it completes there is one line per query. */
  lemma {:induction false} InitLogsEachReply(s: Station, qs: seq<string>)
    requires AllAscii(qs)
    ensures var (t, o) := AfterInitFrom(s, qs);
      && LogsLines(s, t) && |t.log| - |s.log| <= |qs|
      && (o.InitDone? ==> |t.log| == |s.log| + |qs|)
    decreases |qs|
  {
    if qs != [] {
      InitStep(s, qs);
      var (s1, rsp) := Asked(s, qs[0]);
      var next := NoteWavelength(s1, rsp);
      if next.Some? {
        var s2 := next.value;
        InitLogsEachReply(s2, qs[1..]);
        LogsLinesTrans(s, s2, AfterInitFrom(s2, qs[1..]).0);
      }
    }
  }

  /** Start-up writes one frame for each line it logs, and when it
      completes it has written the frames of all the queries, in order. */
  lemma {:induction false} InitWritesEachQuery(s: Station, qs: seq<string>)
    requires AllAscii(qs)
    ensures var (t, o) := AfterInitFrom(s, qs);
      && s.written <= t.written && |t.written| - |s.written| == |t.log| - |s.log|
      && (o.InitDone? ==> t.written == s.written + Frames(qs))
    decreases |qs|
  {
    if qs != [] {
      InitStep(s, qs);
      var (s1, rsp) := Asked(s, qs[0]);
      var next := NoteWavelength(s1, rsp);
      if next.Some? {
        var s2 := next.value;
        InitWritesEachQuery(s2, qs[1..]);
        var (t, o) := AfterInitFrom(s2, qs[1..]);
        WritesCompose(s.written, s2.written, t.written, |s.log|, |s2.log|, |t.log|, o.InitDone?, qs);
      }
    }
  }

  /** The writes of one start-up step followed by those of the rest: `w`,
      `w1` and `wt` are the frames written before the step, after it and at
      the end, `n`, `n1` and `nt` the lengths of the log at those points. */
  lemma WritesCompose(w: seq<string>, w1: seq<string>, wt: seq<string>, n: int, n1: int, nt: int,
                      done: bool, qs: seq<string>)
    requires qs != []
    requires w1 == w + [Frame(qs[0])] && n1 == n + 1
    requires w1 <= wt && |wt| - |w1| == nt - n1
    requires done ==> wt == w1 + Frames(qs[1..])
    ensures w <= wt && |wt| - |w| == nt - n
    ensures done ==> wt == w + Frames(qs)
  {
    assert w <= w1;
    if done {
      var rest := Frames(qs[1..]);
      assert Frames(qs) == [Frame(qs[0])] + rest;
      assert (w + [Frame(qs[0])]) + rest == w + ([Frame(qs[0])] + rest);
    }
  }

  /** A `MOD1_INFO:` reply made of comma-free fields sets the first label to
      its third field and " nm"; a `MOD2_INFO:` reply does the same for the
      second label. */
  lemma ModuleInfoSetsLabel(s: Station, fields: seq<string>)
    requires |fields| >= 3
    requires forall i :: 0 <= i < |fields| ==> Comma !in fields[i]
    ensures var rsp := Join(fields, Comma);
      && (StartsWith(rsp, Mod1Prefix) ==> NoteWavelength(s, rsp) == Some(s.(wl1 := Some(fields[2] + " nm"))))
      && (StartsWith(rsp, Mod2Prefix) ==> NoteWavelength(s, rsp) == Some(s.(wl2 := Some(fields[2] + " nm"))))
  {
    WavelengthOfFields(fields);
    var rsp := Join(fields, Comma);
    ModulePrefixesExclusive(rsp);
  }

  /** A reply that is not a module info reply leaves both labels as they were. */
  lemma OtherReplyKeepsLabels(s: Station, rsp: string)
    requires !StartsWith(rsp, Mod1Prefix) && !StartsWith(rsp, Mod2Prefix)
    ensures NoteWavelength(s, rsp) == Some(s)
  {
  }

  // ---------------------------------------------------------------------
  // The two threads

  /** One step of the recording thread's body (lines 80-100): read up to a
      carriage return, then route the line.  A read that times out returns
      the empty line, which is an event. */
  function AfterRecordBody(parse: string -> Option<real>, s: Station): (t: Station)
    ensures s.data <= t.data && |t.data| <= |s.data| + 1
    ensures t.exitFlag == s.exitFlag && t.written == s.written && t.inputs == s.inputs
    ensures |t.device| < |s.device| || s.device == []
  {
    var (line, rest) := ReadUntil(s.device, [CarriageReturn]);
    var read := s.(device := rest);
    match RouteLine(parse, line)
    case Sample(row) => read.(data := read.data + [row])
    case Discard => read
    case Event(text) => read.(log := read.log + [Stamp(s.clock), Line(text)], clock := s.clock + 1)
  }

  /** One step of the recording thread: line 78 tests the exit flag, and a
      thread that saw the flag down reads one line. */
  function AfterRecordTurn(parse: string -> Option<real>, s: Station): (t: Station)
    ensures s.data <= t.data && |t.data| <= |s.data| + 1
    ensures t.exitFlag == s.exitFlag && t.written == s.written && t.inputs == s.inputs
    ensures t.recorder.Finished? <==> s.recorder.Finished? || (s.recorder.Checking? && s.exitFlag)
  {
    match s.recorder
    case Checking => s.(recorder := if s.exitFlag then Finished else Reading)
    case Reading => AfterRecordBody(parse, s).(recorder := Checking)
    case _ => s
  }

  /** One iteration of `rng_control` (lines 108-124): take the next input,
      write it with a carriage return, then act on it. */
  function AfterControlTurn(s: Station): (t: Station)
    ensures t.data == s.data && t.log == s.log && t.device == s.device
    ensures s.exitFlag ==> t.exitFlag
    ensures t.exitFlag != s.exitFlag ==> t.control.Stopped?
  {
    if !s.control.Prompting? then s
    else if s.inputs == [] then s.(control := Crashed(InputClosed))
    else
      var text := s.inputs[0];
      var typed := s.(inputs := s.inputs[1..]);
      if !IsAscii(text) then typed.(control := Crashed(NotAscii(text)))
      else
        var sent := typed.(written := typed.written + [Frame(text)]);
        if text == "SIG_START" then
          if sent.recorder.NotStarted? then sent.(recorder := Checking)
          else sent.(control := Crashed(StartedTwice))
        else if text == "STOP" then
          sent.(exitFlag := true, sleeps := sent.sleeps + [1], control := Stopped)
        else sent
  }

  /** Whose step comes next. */
  datatype Turn = ControlTurn | RecordTurn

  function AfterTurn(parse: string -> Option<real>, s: Station, turn: Turn): Station
  {
    match turn
    case ControlTurn => AfterControlTurn(s)
    case RecordTurn => AfterRecordTurn(parse, s)
  }

  function AfterTurns(parse: string -> Option<real>, s: Station, turns: seq<Turn>): (t: Station)
    ensures s.exitFlag ==> t.exitFlag
    ensures s.data <= t.data && |t.data| <= |s.data| + |turns|
    ensures s.written <= t.written
    decreases |turns|
  {
    if turns == [] then s else AfterTurns(parse, AfterTurn(parse, s, turns[0]), turns[1..])
  }

  /** Line 217: the series without its first row. */
  function FinalRows(data: seq<seq<real>>): (r: seq<seq<real>>)
    ensures data != [] ==> |r| == |data| - 1 && data == [data[0]] + r
    ensures data == [] ==> r == []
  {
    if data == [] then [] else data[1..]
  }

  // ---------------------------------------------------------------------
  // Properties of one line

  /** A malformed signal line (a field that does not parse, or a field count
      other than five) changes neither the series nor the log. */
  lemma MalformedLineChangesNothing(parse: string -> Option<real>, s: Station)
    requires var line := ReadUntil(s.device, [CarriageReturn]).0;
      StartsWith(line, SigPrefix)
      && ((exists i :: 0 <= i < |SigFields(line)| && parse(SigFields(line)[i]).None?)
          || |SigFields(line)| != SignalArity)
    ensures var t := AfterRecordBody(parse, s);
      t.data == s.data && t.log == s.log && t == s.(device := t.device)
  {
    RouteSample(parse, ReadUntil(s.device, [CarriageReturn]).0);
  }

  /** A well-formed signal line appends exactly its row and logs nothing. */
  lemma SignalLineAddsRow(parse: string -> Option<real>, s: Station)
    requires var line := ReadUntil(s.device, [CarriageReturn]).0;
      StartsWith(line, SigPrefix)
      && (forall i :: 0 <= i < |SigFields(line)| ==> parse(SigFields(line)[i]).Some?)
      && |SigFields(line)| == SignalArity
    ensures var line := ReadUntil(s.device, [CarriageReturn]).0;
      var t := AfterRecordBody(parse, s);
      && |t.data| == |s.data| + 1 && t.data[..|s.data|] == s.data
      && (forall i :: 0 <= i < SignalArity ==> t.data[|s.data|][i] == parse(SigFields(line)[i]).value)
      && |t.data[|s.data|]| == SignalArity
      && t.log == s.log
  {
    RouteSample(parse, ReadUntil(s.device, [CarriageReturn]).0);
  }

  /** Any other line appends a time stamp and the line without carriage
      returns to the log, and leaves the series as it was. */
  lemma EventLineIsLogged(parse: string -> Option<real>, s: Station)
    requires !StartsWith(ReadUntil(s.device, [CarriageReturn]).0, SigPrefix)
    ensures var line := ReadUntil(s.device, [CarriageReturn]).0;
      var t := AfterRecordBody(parse, s);
      && t.log == s.log + [Stamp(s.clock), Line(RemoveAll(line, [CarriageReturn]))]
      && t.data == s.data
      && CarriageReturn !in t.log[|s.log| + 1].text
  {
    RouteEvent(parse, ReadUntil(s.device, [CarriageReturn]).0);
  }

  /** The detector's signal line for five good fields becomes their row. */
  lemma SignalFromDetector(parse: string -> Option<real>, s: Station, fields: seq<string>, rest: string)
    requires |fields| == SignalArity
    requires forall i :: 0 <= i < |fields| ==>
      Comma !in fields[i] && ':' !in fields[i] && CarriageReturn !in fields[i]
    requires forall i :: 0 <= i < |fields| ==> parse(fields[i]).Some?
    requires s.device == SigLine(fields) + rest
    ensures AfterRecordBody(parse, s) ==
      s.(device := rest, data := s.data + [seq(SignalArity, i requires 0 <= i < SignalArity => parse(fields[i]).value)])
  {
    var body := SigPrefix + Join(fields, Comma);
    assert CarriageReturn !in body by {
      if CarriageReturn in Join(fields, Comma) {
        JoinHas(fields, Comma, CarriageReturn);
      }
    }
    LineIsReply(body, CarriageReturn);
    ReadsWholeReply(SigLine(fields), rest, [CarriageReturn]);
    SigLineRoundTrip(parse, fields);
  }

  // ---------------------------------------------------------------------
  // Properties of a run

  /** What every reachable state satisfies: the series starts with the
      placeholder and holds rows of five numbers; the flag is up exactly
      when the control thread has handled STOP; the recording thread
      returns only after the flag went up. */
  predicate Inv(s: Station)
  {
    && |s.data| >= 1 && s.data[0] == Placeholder
    && (forall i :: 0 <= i < |s.data| ==> |s.data[i]| == SignalArity)
    && (s.exitFlag <==> s.control.Stopped?)
    && (s.recorder.Finished? ==> s.exitFlag)
  }

  lemma FreshInv(device: string, inputs: seq<string>)
    ensures Inv(Fresh(device, inputs))
    ensures FinalRows(Fresh(device, inputs).data) == []
  {
  }

  /** Start-up keeps the invariant. */
  lemma InitInv(s: Station)
    requires Inv(s)
    ensures Inv(AfterInit(s).0)
  {
    InitQueriesAreAscii();
    InitKeepsRest(s, InitQueries);
  }

  /** A step only appends to the series, at most one row, and keeps the
      invariant. */
  lemma TurnGrowsByAtMostOne(parse: string -> Option<real>, s: Station, turn: Turn)
    requires Inv(s)
    ensures var t := AfterTurn(parse, s, turn);
      Inv(t) && s.data <= t.data && |t.data| <= |s.data| + 1
  {
    if turn.RecordTurn? && s.recorder.Reading? {
      var line := ReadUntil(s.device, [CarriageReturn]).0;
      RouteSample(parse, line);
    }
  }

  /** Over a whole run the series only grows, one row per step at most, and
      the earlier rows (the placeholder first) are never changed. */
  lemma {:induction false} TurnsOnlyAppend(parse: string -> Option<real>, s: Station, turns: seq<Turn>)
    requires Inv(s)
    ensures var t := AfterTurns(parse, s, turns);
      Inv(t) && s.data <= t.data && |t.data| <= |s.data| + |turns|
    decreases |turns|
  {
    if turns != [] {
      TurnGrowsByAtMostOne(parse, s, turns[0]);
      TurnsOnlyAppend(parse, AfterTurn(parse, s, turns[0]), turns[1..]);
    }
  }

  /** Once the flag is up the recording thread adds at most the row of the
      line it is already reading; a thread about to test the flag adds none. */
  lemma {:induction false} AtMostOneRowAfterStop(parse: string -> Option<real>, s: Station, turns: seq<Turn>)
    requires s.exitFlag
    ensures |AfterTurns(parse, s, turns).data| <= |s.data| + (if s.recorder.Reading? then 1 else 0)
    ensures s.recorder.Finished? ==> AfterTurns(parse, s, turns).data == s.data
    decreases |turns|
  {
    if turns != [] {
      var t := AfterTurn(parse, s, turns[0]);
      assert t.exitFlag;
      if s.recorder.Reading? && turns[0].RecordTurn? {
        var line := ReadUntil(s.device, [CarriageReturn]).0;
        RouteSample(parse, line);
        assert t.recorder.Checking?;
      }
      AtMostOneRowAfterStop(parse, t, turns[1..]);
    }
  }

  /** The recording thread touches only the detector output, the log, the
      series, the clock and its own state. */
  lemma RecordTurnFrame(parse: string -> Option<real>, s: Station)
    ensures var t := AfterRecordTurn(parse, s);
      t == s.(device := t.device, log := t.log, data := t.data, clock := t.clock, recorder := t.recorder)
  {
    if s.recorder.Reading? {
      var line := ReadUntil(s.device, [CarriageReturn]).0;
      match RouteLine(parse, line)
      case Sample(row) =>
      case Discard =>
      case Event(text) =>
    }
  }

  /** The recording thread tests the flag once per iteration: with the flag
      down it goes on to read, with the flag up it returns, and the test
      changes nothing else. */
  lemma FlagTest(parse: string -> Option<real>, s: Station)
    requires s.recorder.Checking?
    ensures AfterRecordTurn(parse, s) == s.(recorder := if s.exitFlag then Finished else Reading)
    ensures AfterRecordTurn(parse, s).recorder.Finished? <==> s.exitFlag
  {
  }

  /** The frames of the inputs the control thread took: each ASCII input and
      a carriage return (a non-ASCII input stops the thread unwritten). */
  function InputFrames(texts: seq<string>): seq<string>
    decreases |texts|
  {
    if texts == [] then []
    else (if IsAscii(texts[0]) then [Frame(texts[0])] else []) + InputFrames(texts[1..])
  }

  /** A step takes at most one input and writes only its frame. */
  lemma TurnWritesTakenInput(parse: string -> Option<real>, s: Station, turn: Turn)
    ensures var t := AfterTurn(parse, s, turn);
      || (t.inputs == s.inputs && t.written == s.written)
      || (s.inputs != [] && t.inputs == s.inputs[1..] && t.written == s.written + InputFrames([s.inputs[0]]))
  {
    if turn.RecordTurn? {
      RecordTurnFrame(parse, s);
    } else if s.control.Prompting? && s.inputs != [] {
      assert InputFrames([s.inputs[0]]) == (if IsAscii(s.inputs[0]) then [Frame(s.inputs[0])] else []) by {
        assert [s.inputs[0]][1..] == [];
      }
    }
  }

  lemma {:induction false} InputFramesAppend(x: seq<string>, y: seq<string>)
    ensures InputFrames(x + y) == InputFrames(x) + InputFrames(y)
    decreases |x|
  {
    if x == [] {
      assert x + y == y;
    } else {
      assert (x + y)[0] == x[0] && (x + y)[1..] == x[1..] + y;
      InputFramesAppend(x[1..], y);
    }
  }

  /** `t` is `s` after the control thread took inputs from the front of the
      queue and wrote the frames of exactly those inputs, in order. */
  predicate WritesTaken(s: Station, t: Station)
  {
    && |t.inputs| <= |s.inputs|
    && t.inputs == s.inputs[|s.inputs| - |t.inputs|..]
    && t.written == s.written + InputFrames(s.inputs[..|s.inputs| - |t.inputs|])
  }

  lemma WritesTakenTrans(a: Station, b: Station, c: Station)
    requires WritesTaken(a, b) && WritesTaken(b, c)
    ensures WritesTaken(a, c)
  {
    var ta := |a.inputs| - |b.inputs|;
    var tb := |b.inputs| - |c.inputs|;
    assert c.inputs == a.inputs[ta + tb..];
    assert a.inputs[..ta + tb] == a.inputs[..ta] + b.inputs[..tb];
    InputFramesAppend(a.inputs[..ta], b.inputs[..tb]);
  }

  lemma TurnWritesTaken(parse: string -> Option<real>, s: Station, turn: Turn)
    ensures WritesTaken(s, AfterTurn(parse, s, turn))
  {
    TurnWritesTakenInput(parse, s, turn);
    if s.inputs != [] {
      assert s.inputs[..1] == [s.inputs[0]];
    }
    assert s.inputs[..0] == [] && s.inputs[0..] == s.inputs;
  }

  /** Every input taken is written, with its carriage return, in the order
      typed, before it is acted upon (STOP and SIG_START included); nothing
      else is written during a run. */
  lemma {:induction false} ControlWritesEachInput(parse: string -> Option<real>, s: Station, turns: seq<Turn>)
    ensures WritesTaken(s, AfterTurns(parse, s, turns))
    decreases |turns|
  {
    if turns == [] {
      assert s.inputs[..0] == [] && s.inputs[0..] == s.inputs;
    } else {
      var s1 := AfterTurn(parse, s, turns[0]);
      TurnWritesTaken(parse, s, turns[0]);
      ControlWritesEachInput(parse, s1, turns[1..]);
      WritesTakenTrans(s, s1, AfterTurns(parse, s1, turns[1..]));
    }
  }

  /** After STOP no later input is read or written, and the flag stays up. */
  lemma {:induction false} StoppedControlIsSilent(parse: string -> Option<real>, s: Station, turns: seq<Turn>)
    requires s.control.Stopped?
    ensures var t := AfterTurns(parse, s, turns);
      t.inputs == s.inputs && t.written == s.written && t.control == s.control
      && t.exitFlag == s.exitFlag
    decreases |turns|
  {
    if turns != [] {
      StoppedControlIsSilent(parse, AfterTurn(parse, s, turns[0]), turns[1..]);
    }
  }

  /** STOP raises the flag, sleeps one second and ends the control loop;
      SIG_START starts the recording thread, which then tests the flag; any
      other input is only written and the loop prompts again. */
  lemma ControlDirectives(s: Station)
    requires s.control.Prompting? && s.inputs != []
    ensures var t := AfterControlTurn(s);
      && (s.inputs[0] == "STOP" ==>
            t == s.(inputs := s.inputs[1..], written := s.written + ["STOP\r"],
                    exitFlag := true, sleeps := s.sleeps + [1], control := Stopped))
      && (s.inputs[0] == "SIG_START" && s.recorder.NotStarted? ==>
            t == s.(inputs := s.inputs[1..], written := s.written + ["SIG_START\r"], recorder := Checking))
      && (s.inputs[0] == "SIG_START" && !s.recorder.NotStarted? ==> t.control == Crashed(StartedTwice))
      && (IsAscii(s.inputs[0]) && s.inputs[0] != "STOP" && s.inputs[0] != "SIG_START" ==>
            t == s.(inputs := s.inputs[1..], written := s.written + [Frame(s.inputs[0])]))
  {
    assert IsAscii("STOP") && IsAscii("SIG_START");
    assert Frame("STOP") == "STOP\r" && Frame("SIG_START") == "SIG_START\r";
  }

  /** The rows saved at the end are the series without the placeholder. */
  lemma FinalRowsDropPlaceholder(s: Station)
    requires Inv(s)
    ensures [Placeholder] + FinalRows(s.data) == s.data
    ensures |FinalRows(s.data)| == |s.data| - 1
  {
  }

  // ---------------------------------------------------------------------
  // The script's state, updated in place

  class Mikron31 {
    const parse: string -> Option<real>
    var device: string
    var written: seq<string>
    var inputs: seq<string>
    var log: seq<LogItem>
    var data: seq<seq<real>>
    var exitFlag: bool
    var sleeps: seq<int>
    var clock: nat
    var control: Control
    var recorder: Recorder
    var wl1: Option<string>
    var wl2: Option<string>

    function State(): Station
      reads this
    {
      Station(device, written, inputs, log, data, exitFlag, sleeps, clock, control, recorder, wl1, wl2)
    }

    /** Lines 22-32. */
    constructor (parse: string -> Option<real>, device: string, inputs: seq<string>)
      ensures State() == Fresh(device, inputs) && this.parse == parse
    {
      this.parse := parse;
      this.device := device;
      this.inputs := inputs;
      written := [];
      log := [Stamp(0)];
      data := [Placeholder];
      exitFlag := false;
      sleeps := [];
      clock := 1;
      control := Prompting;
      recorder := NotStarted;
      wl1, wl2 := None, None;
    }

    /** `query`. */
    method Query(cmd: string) returns (reply: Option<string>)
      modifies this
      ensures (State(), reply) == AfterQuery(old(State()), cmd)
    {
      if !IsAscii(cmd) {
        return None;
      }
      written := written + [Frame(cmd)];
      var chunk := ReadUntil(device, [CarriageReturn]);
      device := chunk.1;
      reply := Some(chunk.0);
    }

    /** One iteration of lines 58-67; `failed` holds the reply whose
        wavelength field is missing. */
    method AskAndNote(q: string) returns (failed: Option<string>)
      requires IsAscii(q)
      modifies this
      ensures var (asked, rsp) := Asked(old(State()), q);
        match NoteWavelength(asked, rsp)
        case None => State() == asked && failed == Some(rsp)
        case Some(next) => State() == next && failed == None
    {
      ghost var before := State();
      var reply := Query(q);
      var rsp := reply.value;
      log := log + [Line(RemoveAll(rsp, [CarriageReturn]))];
      assert (State(), rsp) == Asked(before, q);
      if StartsWith(rsp, Mod1Prefix) {
        var w := Wavelength(rsp);
        if w.None? {
          return Some(rsp);
        }
        wl1 := w;
      } else if StartsWith(rsp, Mod2Prefix) {
        var w := Wavelength(rsp);
        if w.None? {
          return Some(rsp);
        }
        wl2 := w;
      }
      return None;
    }

    /** The start-up loop of lines 57-67. */
    method Initialize() returns (o: InitOutcome)
      modifies this
      ensures (State(), o) == AfterInit(old(State()))
    {
      var qs := InitQueries;
      InitQueriesAreAscii();
      var i := 0;
      while i < |qs|
        invariant 0 <= i <= |qs|
        invariant AllAscii(qs[i..])
        invariant AfterInitFrom(State(), qs[i..]) == AfterInit(old(State()))
      {
        AllAsciiTail(qs[i..]);
        assert qs[i..][0] == qs[i] && qs[i..][1..] == qs[i + 1..];
        var failed := AskAndNote(qs[i]);
        if failed.Some? {
          return FieldMissing(failed.value);
        }
        i := i + 1;
      }
      return InitDone;
    }

    /** One step of `rng_record`. */
    method RecordStep()
      modifies this
      ensures State() == AfterRecordTurn(parse, old(State()))
    {
      match recorder {
        case Checking =>
          recorder := if exitFlag then Finished else Reading;
        case Reading =>
          var chunk := ReadUntil(device, [CarriageReturn]);
          var line := chunk.0;
          device := chunk.1;
          match RouteLine(parse, line) {
            case Sample(row) =>
              data := data + [row];
            case Discard =>
            case Event(text) =>
              log := log + [Stamp(clock), Line(text)];
              clock := clock + 1;
          }
          recorder := Checking;
        case _ =>
      }
    }

    /** One iteration of `rng_control`. */
    method ControlStep()
      modifies this
      ensures State() == AfterControlTurn(old(State()))
    {
      if !control.Prompting? {
        return;
      }
      if inputs == [] {
        control := Crashed(InputClosed);
        return;
      }
      var text := inputs[0];
      inputs := inputs[1..];
      if !IsAscii(text) {
        control := Crashed(NotAscii(text));
        return;
      }
      written := written + [Frame(text)];
      if text == "SIG_START" {
        if recorder.NotStarted? {
          recorder := Checking;
        } else {
          control := Crashed(StartedTwice);
        }
      } else if text == "STOP" {
        exitFlag := true;
        sleeps := sleeps + [1];
        control := Stopped;
      }
    }

    /** The two threads, in the order the turns give. */
    method Run(turns: seq<Turn>)
      modifies this
      ensures State() == AfterTurns(parse, old(State()), turns)
    {
      var i := 0;
      while i < |turns|
        invariant 0 <= i <= |turns|
        invariant AfterTurns(parse, State(), turns[i..]) == AfterTurns(parse, old(State()), turns)
      {
        assert turns[i..][0] == turns[i] && turns[i..][1..] == turns[i + 1..];
        match turns[i] {
          case ControlTurn => ControlStep();
          case RecordTurn => RecordStep();
        }
        i := i + 1;
      }
    }

    /** Line 217, once the recording thread has returned. */
    method DropPlaceholder()
      requires recorder.Finished?
      modifies this
      ensures State() == old(State()).(data := FinalRows(old(data)))
    {
      if data != [] {
        data := data[1..];
      }
    }
  }
}
