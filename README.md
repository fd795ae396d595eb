# Serial protocols of a Cadent-3 syringe pump and a Runge mikron 31 detector

This project models two laboratory scripts that talk to an instrument over
RS-232, and proves properties of those models.

**Cadent-3 syringe pump** (`imi_cadent3/cadent_com.py`). The script reads a
command file and builds the command list. Each row gives a `[Block, Step]`
label, the command, and the sleep time when it is positive. The list is then
repeated `cmd_lst_rep` times. The script opens the port and logs its status,
then runs the list item by item:
- a command string is framed as `/1` + command + CR, written, and its reply
  is read with `readline`;
- the reply is cleaned of `0xFF` and of the ETX CR LF triple, then logged
  together with the frame;
- after each command, the script polls `/1?` until the pump answers ready
  (`` /0` ``) or reports an error (`/0i`);
- an integer item sleeps for that many seconds; `time.sleep` raises
  OverflowError on a time whose magnitude does not fit in signed 64-bit
  nanoseconds (more than 9223372036 seconds either way) and ValueError on
  any other negative time, which ends the script;
- a label is only printed; joining it into the message raises TypeError
  when its block or step is not text, which ends the script;
- any other value (a float, an empty cell) is skipped.

An open port is closed and the closing is logged.

Modules:
- `CadentCommands` builds the list.
- `CadentFrame` frames commands, cleans replies and classifies poll replies.
- `CadentEngine` models the session. `Pump` is the state and `AfterWait`,
  `AfterSend`, `AfterDispatch`, `AfterRun` and `Session` are functions over
  it. The class `Cadent3` holds the same state in fields, and each of its
  methods is proved equal to the matching function.

**Runge mikron 31 detector** (`runge_mikron31/runge_com.py`). The script
sends six start-up queries and logs each reply line. The third field of the
`MOD1_INFO:` and `MOD2_INFO:` replies becomes a wavelength label. Two threads
then run side by side:
- The recording thread reads line after line until the exit flag is set.
  - A `SIG:` line with five numeric fields becomes a row of `rng_data`.
  - A malformed `SIG:` line adds no row and leaves the log unchanged.
  - Any other line is logged after a time stamp.
- The control thread writes each operator input with a carriage return.
  - `SIG_START` starts the recording thread.
  - `STOP` sets the exit flag and ends the control thread.

The data series starts with a zero placeholder row, which is removed at the
end.

Modules:
- `RungeLine` routes one line and extracts the wavelength.
- `RungeStation` models the start-up, the two threads and the run as
  functions over `Station`. The class `Mikron31` holds the same state and
  its methods are proved against those functions.

The two threads are modelled as an interleaving: a run is a list of turns,
each turn one step of either thread. The recording thread's loop has two
steps: testing the flag, then reading and routing one line. So a line read
just after `STOP` can still add one row.

The serial port is a script: the device's output is a sequence still to be
read, and every write is appended to a list. `ReadUntil` is pyserial's
`read_until`/`readline`: it returns the shortest prefix that ends with the
terminator, or all that is left when the terminator never comes (the
timeout).

Behaviour the model keeps as the code has it:
- On a device error the exception ends the pump script. The port is not
  closed and no closing row is logged.
- The failing command's reply row is already in the log when the ready-wait
  raises.
- A second `SIG_START` does not start a second recording loop. It raises
  RuntimeError, which ends the control thread.
- The ready-wait matches the raw poll reply's first three bytes; it does not
  clean the reply first.
- The ready-wait has no retry bound.

## Model

| member | source | states |
|---|---|---|
| Text.RemoveAll | imi_cadent3/cadent_com.py:139-140 | `bytes.replace(pat, b'')` in one left-to-right pass never makes the text longer |
| Text.RemoveAllSingle | imi_cadent3/cadent_com.py:139 | after removing every occurrence of a one-element pattern, that element is gone |
| Text.RemoveAllAbsent | imi_cadent3/cadent_com.py:139-140 | removing a pattern that does not occur leaves the text unchanged |
| Text.Split | runge_mikron31/runge_com.py:86 | `str.split(sep)` gives at least one piece, and no piece holds the separator |
| Text.JoinSplit | runge_mikron31/runge_com.py:86 | joining the pieces of a split with the separator gives back the text |
| Text.SplitJoin | runge_mikron31/runge_com.py:86 | splitting a join of separator-free pieces gives back the pieces |
| Transport.ReadUntil | runge_mikron31/runge_com.py:49 | a read returns a prefix of the stream and leaves the rest; it is non-empty when the stream is; it ends with the terminator unless the stream ran out |
| Transport.ReadUntilStopsAtFirst | runge_mikron31/runge_com.py:49 | the read stops at the first terminator: no shorter prefix ends with it |
| Transport.ReadsWholeReply | imi_cadent3/cadent_com.py:172 | a reply that holds the terminator only at its end is read exactly, leaving what follows |
| Transport.ChunkHasOneTerminator | imi_cadent3/cadent_com.py:136 | a `readline` chunk has no line feed before its last byte |
| Transport.LineIsReply | runge_mikron31/runge_com.py:80 | a line without a carriage return, followed by one, is read whole |
| CadentFrame.Frame | imi_cadent3/cadent_com.py:155 | the frame is `/1` + command + CR, three bytes longer, and unframing it gives back the command |
| CadentFrame.Clean | imi_cadent3/cadent_com.py:139-140 | the two replaces of `rec_rsp` only delete: the cleaned reply is no longer than the raw one and holds only its bytes |
| CadentFrame.Classify | imi_cadent3/cadent_com.py:173-177 | a poll reply is ready exactly when it starts with `` /0` ``, failed exactly when it starts with `/0i`, and busy otherwise |
| CadentFrame.CleanHasNoFiller | imi_cadent3/cadent_com.py:139-140 | a cleaned reply holds no `0xFF` byte |
| CadentFrame.CleanKeepsPlainReply | imi_cadent3/cadent_com.py:139-140 | a reply with neither `0xFF` nor ETX CR LF is logged as it came |
| CadentFrame.CleanCanLeaveEndOfReply | imi_cadent3/cadent_com.py:139-140 | on `03 03 0D 0A 0D 0A` cleaning leaves an ETX CR LF triple, and cleaning twice differs from cleaning once |
| CadentFrame.Decode | imi_cadent3/cadent_com.py:142-144 | `rsp.decode()` gives one character per byte, each with the byte's code |
| CadentCommands.RowItems | imi_cadent3/cadent_com.py:51-65 | one row gives its label, then its command, and a third item exactly when its sleep is positive |
| CadentCommands.IsPositive | imi_cadent3/cadent_com.py:64 | `tmp_sleep > 0` raises TypeError exactly when the cell is text, and holds exactly for a positive integer or float (never for NaN) |
| CadentCommands.Items | imi_cadent3/cadent_com.py:49-65 | the list before repetition has two or three items per row and starts with the first row's label |
| CadentCommands.Repeat | imi_cadent3/cadent_com.py:67 | `lst * n` starts with `lst` when `n > 0` and is empty when `n <= 0` or the list is empty |
| CadentCommands.ItemsAppend | imi_cadent3/cadent_com.py:49-65 | a row's items follow those of the rows before it |
| CadentCommands.ItemsOfRow | imi_cadent3/cadent_com.py:49-65 | row k contributes, in order, its `[Block, Step]` label, its command, and its sleep only when that is positive |
| CadentCommands.ItemsLength | imi_cadent3/cadent_com.py:49-65 | one repetition of the list has `2 * rows + (rows with a positive sleep)` items |
| CadentCommands.RepeatLength | imi_cadent3/cadent_com.py:67 | `lst * n` has `n * len(lst)` items |
| CadentCommands.RepeatAt | imi_cadent3/cadent_com.py:67 | item k of `lst * n` is item `k mod len(lst)` of `lst`, so order is kept in every copy |
| CadentCommands.BuildCommandList | imi_cadent3/cadent_com.py:49-67 | the loop fails exactly when a sleep cell is text (TypeError); otherwise it returns the row items repeated `cmd_lst_rep` times |
| CadentEngine.Opened | imi_cadent3/cadent_com.py:89-127 | the port is as opened, nothing is written yet, and the log holds the status row, after a header only for a new file |
| CadentEngine.AfterWait | imi_cadent3/cadent_com.py:168-183 | the ready-wait keeps the port, the log and the clock, writes at least one query, and ends ready, with a device error, or out of script |
| CadentEngine.Logged | imi_cadent3/cadent_com.py:136-147 | reading a reply appends exactly one row stamped with the clock and naming the frame sent, consumes a prefix of the device output and writes nothing |
| CadentEngine.AfterReceive | imi_cadent3/cadent_com.py:134-149 | `rec_rsp` keeps the port, appends exactly one row stamped with the clock and naming the frame sent, keeps the earlier rows, writes at least one more status query after the earlier frames, and ends ready, in a device error or with the device silent |
| CadentEngine.AfterSend | imi_cadent3/cadent_com.py:153-165 | a closed port changes nothing; an ASCII command on an open port logs exactly one row naming its frame; the port is kept and the log only grows |
| CadentEngine.AfterDispatch | imi_cadent3/cadent_com.py:189-201 | one item keeps the port and only appends to the log; only a command string can end in a device error, a script end or an encoding error |
| CadentEngine.AfterClose | imi_cadent3/cadent_com.py:206-223 | the port ends closed, and one row is logged exactly when it was open |
| CadentEngine.Finish | imi_cadent3/cadent_com.py:206-223 | after a run that ended normally the port is closed with the earlier frames kept and one row more when it was open; after an exception nothing changes; outcome and count of items handled are kept |
| CadentEngine.Session | imi_cadent3/cadent_com.py:45-223 | the script fails before opening the port exactly when a sleep cell is text, and the port is left open only after a step stopped the script |
| CadentEngine.WaitKeepsLog | imi_cadent3/cadent_com.py:168-183 | the ready-wait changes only device input, writes and sleeps; it consumes a prefix of the input; it ends ready, with a device error, or with the script exhausted |
| CadentEngine.WaitWritesQueries | imi_cadent3/cadent_com.py:170-183 | every poll writes exactly `/1?\r`, every sleep is one second, and there is one more poll than sleeps |
| CadentEngine.WaitEffects | imi_cadent3/cadent_com.py:168-183 | the ready-wait keeps the port, the log and the clock, so busy polls log nothing; its writes, sleeps and input are as above |
| CadentEngine.WaitOnBusy | imi_cadent3/cadent_com.py:172-183 | a busy reply costs one poll and a one-second sleep, then the wait continues on the rest of the input |
| CadentEngine.WaitOnError | imi_cadent3/cadent_com.py:172-179 | a reply starting with `/0i` ends the wait after one poll with a device error carrying the reply without the poll terminator |
| CadentEngine.WaitOnReady | imi_cadent3/cadent_com.py:172-176 | a reply starting with `` /0` `` ends the wait normally after one poll and no sleep |
| CadentEngine.StatusReplyIsWhole | imi_cadent3/cadent_com.py:172 | a three-byte status followed by ETX CR LF `0xFF` is read as one poll reply, whatever the status bytes |
| CadentEngine.StatusRepliesClassified | imi_cadent3/cadent_com.py:173-177 | `/0@` + terminator is read whole and is busy; `` /0` `` + terminator is read whole and is ready |
| CadentEngine.WaitTwoBusy | imi_cadent3/cadent_com.py:170-183 | two busy replies cost two polls and two sleeps before the wait goes on |
| CadentEngine.WaitTwoBusyThenReady | imi_cadent3/cadent_com.py:170-183 | busy, busy, ready gives three polls, two sleeps and a normal end |
| CadentEngine.BusyBusyReady | imi_cadent3/cadent_com.py:170-183 | the concrete script busy, busy, ready gives three `/1?\r` writes and two one-second sleeps |
| CadentEngine.SendRefused | imi_cadent3/cadent_com.py:157-165 | on a closed port nothing is written or logged and the script goes on; a non-ASCII command on an open port raises before anything is written |
| CadentEngine.SendLogsOneRow | imi_cadent3/cadent_com.py:134-163 | a sent command writes its frame, then logs exactly one row (time, frame, cleaned reply) before the polls, which write only `/1?\r` |
| CadentEngine.DispatchNonCommand | imi_cadent3/cadent_com.py:189-201 | a non-command item neither writes nor logs; a text label and any float or empty cell are skipped and the run goes on; a non-text label raises TypeError; an integer of at most 9223372036 seconds either way sleeps that long when non-negative and the run goes on, and raises ValueError when negative; a larger magnitude raises OverflowError |
| CadentEngine.DispatchLogs | imi_cadent3/cadent_com.py:189-191 | one item logs the frame it sends, if any, and keeps the port |
| CadentEngine.AfterRun | imi_cadent3/cadent_com.py:189-201 | a run that ends normally dispatched every item; a run that stops dispatched at least the failing one |
| CadentEngine.RunStopsAtFailure | imi_cadent3/cadent_com.py:189-191 | after a step stops the script, nothing later is dispatched: appending items changes nothing |
| CadentEngine.RunAppend | imi_cadent3/cadent_com.py:189-201 | running two lists whose first runs to its end is running the first, then the second from where it left off |
| CadentEngine.RunStopsAtDeviceError | imi_cadent3/cadent_com.py:149-191 | a device error while waiting after item k ends the run with k + 1 items dispatched; item k was a command sent on an open port and its row is the last one logged |
| CadentEngine.RunIsItsPrefix | imi_cadent3/cadent_com.py:189-201 | the run is decided by the items it dispatched |
| CadentEngine.RunKeepsPort | imi_cadent3/cadent_com.py:189-201 | the main loop neither opens nor closes the port and only appends to the log |
| CadentEngine.RunLogsEachCommand | imi_cadent3/cadent_com.py:189-201 | the rows a run logs are exactly the frames of the ASCII command strings among the dispatched items, in order, or none on a closed port |
| CadentEngine.RunOnClosedPort | imi_cadent3/cadent_com.py:157-165 | on a closed port the whole run writes nothing, logs nothing and reads nothing |
| CadentEngine.OpenedRunLog | imi_cadent3/cadent_com.py:89-223 | after opening and running a list: header only for a new log, the status row, one row per frame sent, and "Port closed" only after a normal end on an open port |
| CadentEngine.SessionLog | imi_cadent3/cadent_com.py:89-223 | the log holds a header exactly when the file was new, then the port status row, one row per frame sent, and "Port closed" after a run that ended on an open port; the port stays open only when a step stopped the script |
| CadentEngine.Cadent3.constructor | imi_cadent3/cadent_com.py:89-127 | the state after the log file check and the port open: header only for a new log, then "Port opened" or "Failed to open port" |
| CadentEngine.Cadent3.WaitUntilReady | imi_cadent3/cadent_com.py:168-183 | the `while True` poll loop updates the fields as `AfterWait` does and returns its outcome |
| CadentEngine.Cadent3.ReceiveResponse | imi_cadent3/cadent_com.py:134-149 | reading, logging and waiting update the fields as `AfterReceive` does |
| CadentEngine.Cadent3.SendCommand | imi_cadent3/cadent_com.py:153-165 | updates the fields as `AfterSend` does |
| CadentEngine.Cadent3.DispatchItem | imi_cadent3/cadent_com.py:189-201 | one loop body updates the fields as `AfterDispatch` does |
| CadentEngine.Cadent3.RunCommandList | imi_cadent3/cadent_com.py:189-201 | the main loop leaves the state, outcome and number of items dispatched that `AfterRun` gives |
| CadentEngine.Cadent3.ClosePort | imi_cadent3/cadent_com.py:206-223 | an open port is closed and "Port closed" is logged; a closed port changes nothing |
| CadentEngine.RunScript | imi_cadent3/cadent_com.py:45-223 | the whole script on one object gives the `Session` result |
| RungeLine.ParseAllMeaning | runge_mikron31/runge_com.py:86 | the float list is built exactly when every field parses, and holds each field's number in its place |
| RungeLine.ParseAll | runge_mikron31/runge_com.py:86 | a built list has one number per field, and a first field that does not parse stops the build |
| RungeLine.RouteLine | runge_mikron31/runge_com.py:80-96 | a line is an event exactly when it does not start with `SIG:`, and a data row always has five numbers |
| RungeLine.SigFields | runge_mikron31/runge_com.py:82-86 | the fields are at least one, free of commas, and joined by commas give back the line without any `SIG:` and without any CR, which holds no CR |
| RungeLine.RouteSample | runge_mikron31/runge_com.py:80-91 | a line adds a row if and only if it starts with `SIG:`, every field parses and there are five; the row is the fields' numbers in order |
| RungeLine.RouteEvent | runge_mikron31/runge_com.py:92-96 | a line is an event if and only if it does not start with `SIG:`; the logged text is the line without any carriage return |
| RungeLine.SigLineRoundTrip | runge_mikron31/runge_com.py:80-89 | the line `SIG:a,b,c,d,e` + CR of five parsable fields is read back as the row of their numbers |
| RungeLine.Wavelength | runge_mikron31/runge_com.py:65-67 | a label exists exactly when the reply has at least three comma-separated fields; it is a comma-free field followed by " nm" |
| RungeLine.WavelengthNeedsTwoCommas | runge_mikron31/runge_com.py:65-67 | `split(',')[2]` exists if and only if the reply holds at least two commas |
| RungeLine.WavelengthOfFields | runge_mikron31/runge_com.py:64-67 | the label of a reply made of comma-free fields is its third field followed by " nm" |
| RungeStation.AfterQuery | runge_mikron31/runge_com.py:43-50 | `query` returns a reply exactly when the command encodes as ASCII |
| RungeStation.Frame | runge_mikron31/runge_com.py:45 | a frame (`query`, and the control thread at line 111) is the text followed by exactly one CR |
| RungeStation.Asked | runge_mikron31/runge_com.py:57-62 | one start-up query writes its frame, consumes exactly the reply it returns, appends one CR-free line to the log, and keeps the earlier log, the series, the flag and the inputs |
| RungeStation.QueryReadsOneLine | runge_mikron31/runge_com.py:43-50 | `query` writes exactly the command + CR and returns the input up to and including the first CR, leaving the rest; nothing else changes |
| RungeStation.QueryReadsReply | runge_mikron31/runge_com.py:43-50 | on input `line` + CR + rest, `query` returns `line` + CR and leaves `rest` |
| RungeStation.InitQueriesAreAscii | runge_mikron31/runge_com.py:55 | the six start-up queries encode as ASCII |
| RungeStation.NoteWavelength | runge_mikron31/runge_com.py:64-67 | the start-up fails on a reply exactly when it is a module info reply without a third field |
| RungeStation.ModulePrefixesExclusive | runge_mikron31/runge_com.py:64-67 | no reply starts with both `MOD1_INFO:` and `MOD2_INFO:` |
| RungeStation.NoteWavelengthKeeps | runge_mikron31/runge_com.py:63-67 | extracting a wavelength changes only the two labels |
| RungeStation.AskedLogsOneLine | runge_mikron31/runge_com.py:57-62 | each start-up query writes its frame and logs its reply with every CR removed |
| RungeStation.AfterInitFrom | runge_mikron31/runge_com.py:57-67 | the start-up loop keeps the series, the flag and the operator inputs, and writes at most one frame per query |
| RungeStation.AfterInit | runge_mikron31/runge_com.py:55-67 | the start-up over its six queries keeps the series, the flag and the operator inputs and writes at most six frames |
| RungeStation.InitStep | runge_mikron31/runge_com.py:57-67 | one iteration writes its frame and logs one CR-free line, then fails on a missing wavelength field or goes on with only the labels changed |
| RungeStation.InitKeepsRest | runge_mikron31/runge_com.py:55-67 | the start-up changes only the input, writes, log and labels |
| RungeStation.InitLogsEachReply | runge_mikron31/runge_com.py:57-62 | the start-up logs only CR-free lines, at most one per query, and exactly one per query when the start-up completes |
| RungeStation.InitWritesEachQuery | runge_mikron31/runge_com.py:55-58 | each logged reply follows one written query; when the start-up completes, the queries were written in order as text + CR |
| RungeStation.ModuleInfoSetsLabel | runge_mikron31/runge_com.py:63-67 | a `MOD1_INFO:` or `MOD2_INFO:` reply sets its own label to the third field + " nm" and changes nothing else |
| RungeStation.OtherReplyKeepsLabels | runge_mikron31/runge_com.py:63-67 | any other reply leaves both labels unchanged |
| RungeStation.AfterRecordBody | runge_mikron31/runge_com.py:80-100 | one line adds at most one row and keeps the earlier ones, consumes input when there is any, and leaves the flag, the writes and the operator inputs alone |
| RungeStation.AfterRecordTurn | runge_mikron31/runge_com.py:78-100 | a recording step keeps the earlier rows and adds at most one, and the thread returns exactly when it tests the flag and finds it set |
| RungeStation.AfterControlTurn | runge_mikron31/runge_com.py:108-124 | a control step leaves the series, the log and the detector output alone, never lowers the flag, and raises it only on `STOP` |
| RungeStation.AfterTurns | runge_mikron31/runge_com.py:75-125 | over any interleaving the flag is never lowered, the series only grows, at most one row per step, and the writes only grow |
| RungeStation.MalformedLineChangesNothing | runge_mikron31/runge_com.py:81-91 | a `SIG:` line with a field that does not parse or with a wrong field count leaves the data and the log unchanged |
| RungeStation.SignalLineAddsRow | runge_mikron31/runge_com.py:81-89 | a well-formed `SIG:` line appends exactly one five-number row of its fields and keeps every earlier row and the log |
| RungeStation.EventLineIsLogged | runge_mikron31/runge_com.py:92-96 | a non-`SIG:` line appends a time stamp, then the line without CR, and leaves the data unchanged |
| RungeStation.SignalFromDetector | runge_mikron31/runge_com.py:80-89 | a `SIG:` line sent by the detector is consumed and becomes a new row of its five numbers |
| RungeStation.FreshInv | runge_mikron31/runge_com.py:29-32 | the series starts as the zero placeholder row alone, so no data remains once it is dropped |
| RungeStation.Fresh | runge_mikron31/runge_com.py:22-32 | the script starts with the zero placeholder row alone, the flag down, the start time logged, nothing written, no labels, the control thread prompting and the recording thread not started |
| RungeStation.InitInv | runge_mikron31/runge_com.py:55-67 | the start-up keeps the series invariant |
| RungeStation.TurnGrowsByAtMostOne | runge_mikron31/runge_com.py:75-101 | each step keeps the placeholder and every earlier row and adds at most one five-number row |
| RungeStation.TurnsOnlyAppend | runge_mikron31/runge_com.py:75-125 | over any interleaving the series only grows, at most one row per step |
| RungeStation.AtMostOneRowAfterStop | runge_mikron31/runge_com.py:78-118 | once the exit flag is set, at most the line already being read adds a row; after the recording thread returns, none does |
| RungeStation.RecordTurnFrame | runge_mikron31/runge_com.py:75-101 | a recording step changes only the input, log, data, clock and thread state |
| RungeStation.FlagTest | runge_mikron31/runge_com.py:78 | the recording thread tests the flag once per iteration and returns exactly when it is set |
| RungeStation.TurnWritesTakenInput | runge_mikron31/runge_com.py:109-113 | a step either writes nothing and reads no input, or consumes one input and writes it + CR |
| RungeStation.TurnWritesTaken | runge_mikron31/runge_com.py:105-125 | each step's writes are the frames of the inputs it consumed |
| RungeStation.ControlWritesEachInput | runge_mikron31/runge_com.py:105-125 | over any run, the writes added are exactly the frames of the inputs consumed, in order |
| RungeStation.StoppedControlIsSilent | runge_mikron31/runge_com.py:117-120 | after `STOP` no further input is read or written, and neither the exit flag nor the control state changes |
| RungeStation.ControlDirectives | runge_mikron31/runge_com.py:109-120 | `STOP` is written, sets the flag, sleeps one second and ends the loop; the first `SIG_START` is written and starts recording; a second one crashes the control thread; any other ASCII input is only written and the loop prompts again |
| RungeStation.FinalRowsDropPlaceholder | runge_mikron31/runge_com.py:217 | the final series is the recorded one without its placeholder row, one row shorter |
| RungeStation.FinalRows | runge_mikron31/runge_com.py:217 | `rng_data[1:, ]` keeps every row after the first, in order, so the series is its first row followed by the result; an empty series stays empty |
| RungeStation.Mikron31.constructor | runge_mikron31/runge_com.py:22-32 | the state after the port opens: no writes, the start time logged, the placeholder row, the flag down |
| RungeStation.Mikron31.Query | runge_mikron31/runge_com.py:43-50 | updates the fields as `AfterQuery` does and returns its reply |
| RungeStation.Mikron31.AskAndNote | runge_mikron31/runge_com.py:57-67 | one start-up iteration: query, log, then set a label or fail on a reply without a third field |
| RungeStation.Mikron31.Initialize | runge_mikron31/runge_com.py:55-67 | the start-up loop updates the fields as `AfterInit` does |
| RungeStation.Mikron31.RecordStep | runge_mikron31/runge_com.py:75-101 | one step of the recording loop, as `AfterRecordTurn` |
| RungeStation.Mikron31.ControlStep | runge_mikron31/runge_com.py:105-125 | one step of the control loop, as `AfterControlTurn` |
| RungeStation.Mikron31.Run | runge_mikron31/runge_com.py:75-125 | the two threads interleaved by the given turns give the state `AfterTurns` gives |
| RungeStation.Mikron31.DropPlaceholder | runge_mikron31/runge_com.py:217 | after recording ends, only the series changes: it loses its first row |

## Left out

- Serial I/O is a script. The device output is a finite sequence and the writes are a list. Opening the pump port is an input flag. Read timeouts are the end of the script.
- CadentEngine.AfterWait: the real poll loop reads empty replies forever once the pump stops answering. The model returns `ScriptExhausted` when the scripted output runs out.
- Reading the command file with pandas is not modelled. The rows are a sequence of cells that keep their Python type (text, integer, float, or an empty cell read as NaN).
- Log-file I/O is reduced to a sequence of log rows. This covers the CSV writer, the existence test and the Runge log and data dumps (`np.savetxt`). The pump log's earlier contents are not modelled: "log file exists" is an input.
- Time is a logical counter that stamps each log row. `time.sleep` calls are recorded in a list of seconds. Wall-clock windows, `datetime` text and the run duration (float arithmetic) are not modelled.
- `print` output is left out: echoes, progress lines and the pump's delay window.
- The `cmd_wait` tuple is never read by the script and is left out.
- Plotting is left out, with the plotting loop that reads `rng_data`. This includes the `NameError` the legend raises when a wavelength label was never set. It also includes the main thread's `rng_data[1, -1]` access, which fails before any row has been recorded.
- CadentFrame.Decode: `bytes.decode()` is one character per byte. The UnicodeDecodeError of a non-UTF-8 reply and multi-byte characters are not modelled, here or in the poll loop of `CadentEngine.AfterWait`, which decodes the status reply at lines 175, 179 and 182.
- RungeStation.AfterRecordBody: the detector stream is modelled as decoded text, so a UnicodeDecodeError of `.decode()` is not modelled. Lines are split at CR as `read_until(b'\r')` does.
- Python's `float` is an abstract partial function `parse` from text to a real number. Floating-point values, `inf` and `nan` fields are not modelled.
- numpy arrays are sequences of rows. The one-dimensional placeholder created on line 30 and the `[1:, ]` slice on line 217 are taken as the two-dimensional series the script intends.
- The threads are one interleaving of their steps. The operator's `input()` calls are a list of texts, and its end is an EOFError that ends the control thread. Blocking and scheduling fairness are not modelled.
- CadentEngine.AfterDispatch: `time.sleep` raises OverflowError for more than 9223372036 seconds either way, before it tests the sign, and that is modelled. The delay window of line 195 raises OverflowError first when the end time passes the year 9999, which needs a wall clock within about 292 years of that year. The model has no wall clock, so this is not modelled.
- CadentEngine.Cadent3.ClosePort: the "Failed to close port" branch cannot be reached once `close()` succeeds, so only "Port closed" is logged.
