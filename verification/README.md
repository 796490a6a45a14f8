# Verification of the Pcon controller

Pcon-TNG switches sixteen relay channels of a BeagleBone. An operator program (Pcon) edits schedules and
channel modes in shared memory, a daemon (Dcon) turns them into relay states once a minute or on request,
and short-lived sensor posts (Scon) store readings. This project models that path from key strokes to
pins, and the MQTT topic queue on the desktop side, and proves what holds over every schedule, every
token sequence and every interleaving of the three programs.

## Modules

| file | contents |
|---|---|
| `Schedule.dfy`, `ScheduleLaws.dfy` | a day's schedule as a cyclic step function; edits, on-time, algebra |
| `Template.dfy` | the in-place record array and the lookup of `sch.c` |
| `SharedData.dfy` | the memory-mapped data and its well-formedness |
| `CmdTables.dfy`, `Tokens.dfy`, `CmdSpec.dfy` | the command machine's tables, token types and what each routine does |
| `CmdRuns.dfy`, `CmdFindings.dfy`, `CmdStates.dfy` | whole runs of the command machine; laws of single commands and runs that break; which states occur |
| `CmdLibrary.dfy`, `CmdLines.dfy` | laws of the template library, names and backup; what whole lines do, in the words and numbers typed |
| `CmdMachine.dfy` | the command machine in place, proved against `CmdSpec` |
| `TokenQueue.dfy`, `Lexer.dfy`, `CharMachine.dfy` | the token list, two-phase lexing and its correctness, the character machine in place |
| `LineEditor.dfy`, `Operator.dfy` | the cursor line buffer; one command line from CR to prompt |
| `SensorIndex.dfy` | the channel lists kept as an inverse of the channels' sensor numbers |
| `Slab.dfy`, `Daemon.dfy`, `DaemonMachine.dfy` | the sensor controller, one relay update, the daemon's loops in place |
| `Protocol.dfy`, `ProtocolSteps.dfy`, `ProtocolRuns.dfy`, `ProtocolSettling.dfy` | the three programs as small steps around one semaphore and one flag |
| `ProtocolClock.dfy`, `ProtocolLines.dfy` | when the states are right for the present minute; a typed line as part of a run |
| `TopicQueue.dfy` | the topic queue and its splitter |
| `Chars.dfy`, `Sequences.dfy` | special characters and the line buffers' size; a law of sequences |

## Decisions

- An access outside an array or a text field is the outcome `Fault`: from there on the C program has no
  defined behaviour. `CmdRuns.Guard` is the check a caller could make before a token, and
  `StepKeepsInvIffGuarded` shows it is exact. The in-place methods require only that no `Fault` occurs.
- `find_tmpl_key` looks at record 0 on every pass although its comment promises a search. The model keeps
  that; `FindTmplKeyIsASearchIffFirstOrAbsent` says when it is right, and `SetTempKeepsStateIff` what it
  costs the operator (setting a temperature can switch a record off).
- The shift loop of `add_tmpl_rec` runs one step too far. The model keeps the extra write, which the next
  statement overwrites, and skips only its read of the cell below the array.
- The word "channel", typed in the sensor editor, is taken as minute 30 and copied into a field for three
  characters. Leading zeros, long names and negative numbers overrun in the same way, and an accepted sensor
  group name always does, by its terminator; all are in `Guard`.
- Routines that take no lock are single steps of the interleaved model; they write nothing the daemon reads
  (`UnlockedRoutinesTouchNothingTheDaemonReads`).
- `ipc_sem_init` sets the semaphore to one whenever a program starts. Mutual exclusion and what rests on it
  carry the hypothesis `InitsFindTheLockFree`, which is exact for mutual exclusion. An update comes from one
  snapshot exactly when no step tears it (`Tears`), whoever holds the lock; that hypothesis rules tearing out,
  and a run from zeroed memory shows a start that leads to it. That no request is lost needs neither.
- Channels 0 and 12 share a gpio. Relay results are stated on the channel states, and the pins are shown to
  follow the last writer.
- The repository's README words the sensor rule twice with the same condition; it is read as "on when the
  schedule's value is above the reading". The code adds a dead band when the reading is not falling, and
  the model follows the code.
- Numbers are 32-bit as on the BeagleBone: integer tokens saturate, wrap and turn negative as there.
- Temperatures and humidities are integers: every assignment to those floats comes from an integer, and a
  reading is truncated when it is passed to the controller.
- `work_buffer` and `input_buffer` are declared with 60 cells, and so they are here. The room check lets a
  line take 63. For each buffer a function says which cell is touched (`Reach`, `LineReach`), the in-place
  methods record it and ask for no more than that it is inside, and `Operator.SessionStaysInsideIffGuarded`
  gives the exact checks that are missing: on the length of the line, and on the length of its tokens.
- The schedule printer builds each cell in nine characters, terminator included, and every cell it ever
  prints takes at least ten. "ssch" and "wsch" therefore fault exactly when a channel that is shown has a
  record. The interleaved model and the coupling of state and channel let them run on, since the overrun is local to the printing program.
- Storing a sensor record (routine 73) stores a reading that nothing ever loads, so under the lock it also
  writes 0 over the sensor's current reading.

## Model

| member | source | states |
|---|---|---|
| `Schedule.GoverningIsCyclicallyNearest` | BBB/lib-sources/sch.c:153-189 | The record in force at a minute is exactly the one whose key lies fewest minutes back on the clock face. |
| `Schedule.GoverningArc` | BBB/lib-sources/sch.c:153-189 | A record is in force on exactly the cyclic interval from its key to the next key. |
| `Schedule.InsertKeepsWellFormed` | BBB/lib-sources/sch.c:73-142 | An accepted insert keeps keys strictly sorted and in the day, states binary and at most 50 records. |
| `Schedule.RemoveKeepsWellFormed` | BBB/lib-sources/sch.c:45-70 | A delete keeps a schedule well formed and leaves no record with the key. |
| `Schedule.InsertIsLocal` | BBB/lib-sources/sch.c:73-142 | After an accepted insert at k the day function has the new state on exactly the cyclic interval from k to the next key and is unchanged at every other minute. |
| `Schedule.RemoveIsLocal` | BBB/lib-sources/sch.c:45-70 | A delete gives the deleted record's interval to its cyclic predecessor, or "off" when nothing is left, and changes no other minute. |
| `Schedule.KeysAreTimesOfDay` | BBB/lib-sources/sch.c:145-150 | Converting a key back gives the hour and the minute it was made from. |
| `ScheduleLaws.OnTimeIsTheGapsAfterOnRecords` | BBB/lib-sources/sch.c:153-189 | The minutes of the day at which the lookup answers "on" add up to the cyclic gaps after the "on" records; all 1440 for a single "on" record. |
| `ScheduleLaws.InsertHoldsUntilTheNextTime` | BBB/lib-sources/sch.c:73-142 | After an accepted insert at a time of day the schedule has the new state at every time h:m from then on, in clock order, up to the time of the next record. |
| `ScheduleLaws.SortedIsCanonical` | BBB/lib-sources/sch.c:73-142 | Two sorted schedules with the same records are the same sequence. |
| `ScheduleLaws.InsertMembers` | BBB/lib-sources/sch.c:78-142 | An insert replaces the record that had the key, if any, and keeps every other record. |
| `ScheduleLaws.InsertionOrderDoesNotMatter` | BBB/lib-sources/sch.c:73-142 | Inserting records with distinct keys gives the same schedule in every order. |
| `ScheduleLaws.InsertsThatFitAreNeverRefused` | BBB/lib-sources/sch.c:90-94 | Inserting records that fit in 50 is never refused on the way and ends well formed. |
| `ScheduleLaws.KeysThatFitInAnyOrder` | BBB/lib-sources/sch.c:73-142 | Records with distinct keys for which there is room, 50 for an empty buffer, go in in any order, none refused, with the same result. |
| `ScheduleLaws.RemoveUndoesInsert` | BBB/lib-sources/sch.c:45-142 | Deleting a freshly inserted key restores the previous records exactly. |
| `Templates.FindTmplKey` | BBB/lib-sources/sch.c:34-42 | The search answers record 0 or -1, whatever the key's real position. |
| `Templates.FindTmplKeyIsASearchIffFirstOrAbsent` | BBB/lib-sources/sch.c:33-42 | It does what its comment says exactly when the key is absent or first. |
| `Templates.FindTmplKeyMissesTheSecondRecord` | BBB/lib-sources/sch.c:33-42 | A two-record schedule on which it does not. |
| `Templates.TestSchTime` | BBB/lib-sources/sch.c:153-189 | On every sorted schedule the 0/1/2/many lookup answers the step function, and its final "return 0" is never reached from the many case. |
| `Templates.Template.DelTmplRec` | BBB/lib-sources/sch.c:45-70 | In place, the record with the key is removed and the rest kept in order; the answer tells whether it was there. |
| `Templates.Template.MoveRecordsUp` | BBB/lib-sources/sch.c:128-130 | The shift loop, with its extra last step, opens a position without losing a record. |
| `Templates.Template.InsertNewRec` | BBB/lib-sources/sch.c:96-141 | In place, a record with a new key goes before the first later key. |
| `Templates.Template.AddTmplRec` | BBB/lib-sources/sch.c:73-142 | In place, add or update the record at 60 times the hour plus the minute; refused, with nothing changed, exactly when the key is new and 50 records are there. |
| `Tokens.IsValidInt` | BBB/lib-sources/cmd_fsm.c:375-389 | True exactly for an optional minus sign and at least one digit, nothing else. |
| `Tokens.TokenType` | BBB/lib-sources/cmd_fsm.c:392-432 | The two keyword loops, with in-place lower-casing, find the first matching row; integers and quoted strings are never rewritten. |
| `Tokens.KeywordsAreRecognised` | BBB/lib-sources/cmd_fsm.c:71-113 | Every keyword, typed in any case, is classified as its own command number. |
| `Tokens.CapitalsDoNotMatter` | BBB/lib-sources/cmd_fsm.c:392-432 | A keyword is recognised whichever of its letters are typed as capitals. |
| `Tokens.NumeralsAreRecognised` | BBB/lib-sources/cmd_fsm.c:1630-1637 | The decimal numeral of any number an int can hold is read as that number. |
| `Tokens.IntValueIsExactIffItFits` | BBB/lib-sources/cmd_fsm.c:1633-1637 | The number used for an integer token is the number it denotes exactly when that fits a 32-bit int. |
| `Tokens.TenDigitsCanTurnNegative` | BBB/lib-sources/cmd_fsm.c:1633-1637 | A ten-digit token that is read as -3. |
| `CmdSpec.TablesStayReachable` | BBB/lib-sources/cmd_fsm.c:116-290 | From the thirty states the tables never dispatch routines 18 and 49 and never lead outside, on any row. |
| `Tokens.Classify` | BBB/lib-sources/cmd_fsm.c:1630-1660 | Every token gets a table row below 41, and a keyword its own number, so the "command number out of range" branch is never taken. |
| `CmdSpec.Step` | BBB/lib-sources/cmd_fsm.c:1662-1680 | Every completed cycle has answered 0, 1 or 2, so the "bad return value" branch is never taken, and stays in the thirty states. |
| `CmdSpec.Drain` | BBB/UI/Pcon.c:190-196 | Draining any queue stays in the thirty states. |
| `CmdRuns.Routines` | BBB/lib-sources/cmd_fsm.c:606-1620 | For every routine: it stays inside every array and text field, the schedule printer's included, and keeps all data well formed exactly when its guard holds, and only routines 4, 29 and 31 move the working channel. |
| `CmdRuns.PrintFitsIff` | BBB/lib-sources/sch.c:373-438 | The schedule printer stays inside its nine-character cell text exactly when no channel that is shown has a record on any day. |
| `CmdRuns.StepKeepsInvIffGuarded` | BBB/lib-sources/cmd_fsm.c:1626-1682 | One token keeps buffer, ten template slots, both tables, channel data and the state-channel coupling well formed, and memory safe, exactly when its guard holds. |
| `CmdRuns.RunsStayWellFormedIffGuarded` | BBB/UI/Pcon.c:190-259 | The same for whole runs of tokens and escape keys: the invariant holds at every point exactly when every token meets its guard in turn. |
| `CmdRuns.StateAndChannelStayCoupledIff` | BBB/lib-sources/cmd_fsm.c:606-621 | Whole runs, over any data and with the schedule printers running on: in states 1 to 3 the working channel is in 0..15 at every point exactly when no negative number is typed as a channel. |
| `CmdRuns.NonNegativeNumbersStayCoupled` | BBB/lib-sources/cmd_fsm.c:116-290 | So it is in every run in which all numbers are non-negative. |
| `CmdRuns.ChannelRoutinesIndexInRange` | BBB/lib-sources/cmd_fsm.c:623-708 | Routines 5, 9, 10, 11, 75 and 76 are only dispatched with a working channel in 0..15 once state and channel are coupled, although other paths set it to 99. |
| `CmdRuns.ZeroMachIsWellFormed` | BBB/UI/Pcon.c:132-145 | The program on zeroed shared memory starts in the invariant. |
| `CmdStates.LineInto` | BBB/lib-sources/cmd_fsm.c:71-290 | For each of the thirty states there is a line of keywords and numbers that takes a fresh machine there with no token refused and everything well formed. |
| `CmdStates.ReachableIsExact` | BBB/lib-sources/cmd_fsm.c:116-290 | The states that a fresh machine is in after some line of which no token is refused are exactly 0..20, 22, 24..27 and 29..32. |
| `CmdFindings.DrainConcat` | BBB/UI/Pcon.c:192-196 | Feeding two queues in turn is feeding their concatenation, unless a token is refused: then exactly the rest is dropped. |
| `CmdFindings.SetTempKeepsStateIff` | BBB/lib-sources/cmd_fsm.c:958-980 | Setting a record's temperature keeps its on/off state exactly when the record is first or was off. |
| `CmdFindings.SetStateKeepsTargetsIff` | BBB/lib-sources/cmd_fsm.c:872-919 | Switching a record keeps its temperature and humidity exactly when it is first or both were 0. |
| `CmdLibrary.SetHumidKeepsStateIff` | BBB/lib-sources/cmd_fsm.c:983-1005 | Setting a record's humidity keeps its state exactly when the record is first or was off. |
| `CmdLibrary.FiftyRecordsAreTheLimit` | BBB/lib-sources/sch.c:90-94 | A new record is refused exactly when there are fifty. |
| `CmdFindings.SavedTemplateLoadsBack` | BBB/lib-sources/cmd_fsm.c:1296-1312 | A saved template can be loaded back with its name and records, and the buffer is empty in between. |
| `CmdFindings.DeleteTemplateRenumbers` | BBB/lib-sources/cmd_fsm.c:743-760 | Deleting template v keeps the earlier ones and moves each later one down by one. |
| `CmdLibrary.SaveThenLoad` | BBB/lib-sources/cmd_fsm.c:1296-1415 | After a save, loading any slot gives the saved buffer for the new one and what was there before for each earlier one. |
| `CmdLibrary.DeleteThenLoad` | BBB/lib-sources/cmd_fsm.c:743-760 | After deleting template v, loading i gives the former i, or i + 1 from v on. |
| `CmdLibrary.SavesLoadBack` | BBB/lib-sources/cmd_fsm.c:1296-1312 | After any number of saves in a row that fit, loading the k-th gives its name and records, and earlier slots are as they were. |
| `CmdLibrary.ChannelNames` | BBB/lib-sources/cmd_fsm.c:623-631 | A quoted name of twenty or more characters overruns the channel's name field; a shorter one becomes its name, without quotes. |
| `CmdLibrary.TextFields` | BBB/lib-sources/cmd_fsm.c:842-1570 | The exact lengths from which hour, minute, template name, group and description overrun their fields. |
| `CmdLibrary.BackupComesBack` | BBB/lib-sources/ipc.c:149-207 | Loading a backup brings back shared memory as it was saved, whatever has happened since. |
| `CmdFindings.LoadWorkIsExact` | BBB/lib-sources/sch.c:440-470 | Loading the working table sets exactly the cells of the working day and channel, "all" included. |
| `CmdFindings.ChannelWordFaults` | BBB/lib-sources/cmd_fsm.c:857-869 | In the sensor editor the word "channel" overruns the minute text field. |
| `CmdFindings.ChannelWordOverrunsTheMinuteField` | BBB/lib-sources/cmd_fsm.c:857-869 | The three-token line that does it from reset. |
| `CmdFindings.AcceptedGroupNamesOverrun` | BBB/lib-sources/cmd_fsm.c:1546-1558 | A quoted group name typed in the sensor editor overruns the group field exactly when it is not refused as too long. |
| `CmdFindings.ShowingASystemRecordFaults` | BBB/lib-sources/cmd_fsm.c:1373-1378 | "ssch" overruns the printer's cell text exactly when a channel that is not hidden has a record in the system schedule. |
| `CmdFindings.ShowingAWorkingRecordFaults` | BBB/lib-sources/cmd_fsm.c:1381-1386 | "wsch" does so exactly when one has a record in the working schedule. |
| `CmdFindings.NegativeChannelIsAcceptedAndThenFaults` | BBB/lib-sources/cmd_fsm.c:606-621 | The line "-5 on": a negative channel number is accepted and the next command indexes below the channel array. |
| `CmdFindings.SensorModeAfterAllChannelsFaults` | BBB/lib-sources/cmd_fsm.c:710-720 | The line "schedule set * * done sensor": after "all channels" the sensor command in state 0 writes to channel 99. |
| `CmdLines.NumberAndSwitch` | BBB/lib-sources/cmd_fsm.c:606-708 | From every well-formed machine in state 0, "n on", "n off" and "n time" give channel n mode 0, 0, 1 and state 1, 0, 0, raise the flag, and change no other channel. |
| `CmdLines.NumberTimeSensor` | BBB/lib-sources/cmd_fsm.c:710-720 | "n time sensor" gives channel n mode 2. |
| `CmdLines.NumberAndDisplay` | BBB/lib-sources/cmd_fsm.c:1607-1620 | "n hide" and "n show" mark channel n and change nothing else in shared memory. |
| `CmdLines.NumberAndName` | BBB/lib-sources/cmd_fsm.c:623-631 | A number and a quoted text name that channel. |
| `CmdLines.EscapeThenSwitch` | BBB/UI/Pcon.c:245-259 | After the escape key those lines work from whatever state the machine was in. |
| `CmdLines.ScheduleTimeSwitch` | BBB/lib-sources/cmd_fsm.c:842-919 | "schedule h m on" and "off" leave a record of that state at minute 60h + m, which is then in force, and keep all others. |
| `CmdLines.ScheduleTimeTarget` | BBB/lib-sources/cmd_fsm.c:958-1005 | "schedule h m temp v" and "humid v" give the record at that time that target and keep all others. |
| `CmdLines.ScheduleTimeDelete` | BBB/lib-sources/cmd_fsm.c:922-931 | "schedule h m delete" removes exactly the record at that time. |
| `CmdLines.ScheduleClear` | BBB/lib-sources/cmd_fsm.c:1060-1065 | "schedule clear" empties the buffer and changes nothing else. |
| `CmdLines.NumbersOutOfRange` | BBB/lib-sources/cmd_fsm.c:606-621 | Channels above 15, hours above 23, minutes above 59, days outside 1..7 and sensors above 19 are refused and change nothing. |
| `CmdLines.SeditNumber` | BBB/lib-sources/cmd_fsm.c:1534-1543 | "sedit n" opens the sensor editor for sensor n. |
| `CmdLines.ScheduleSetCells` | BBB/lib-sources/cmd_fsm.c:1008-1057 | "schedule set d c", with a star for all, puts the buffer into exactly those cells of the working table, days counted from 1. |
| `CmdLines.ScheduleReplace` | BBB/lib-sources/cmd_fsm.c:1108-1119 | "schedule replace" makes the working table the system table and raises the flag. |
| `CmdLines.ScheduleSaveTemplate` | BBB/lib-sources/cmd_fsm.c:1296-1312 | "schedule save template "name"" puts the buffer under that name into the next slot, unless ten are used. |
| `CmdLines.ScheduleLoadTemplate` | BBB/lib-sources/cmd_fsm.c:1407-1415 | "schedule load template k" makes the buffer a copy of slot k. |
| `CmdLines.ScheduleDeleteTemplate` | BBB/lib-sources/cmd_fsm.c:743-760 | "schedule delete template k" removes it and moves the later ones down by one. |
| `CmdLines.ScheduleIpc` | BBB/lib-sources/ipc.c:149-207 | "schedule save ipc" backs shared memory up and "schedule load ipc" brings the backup back. |
| `CmdLines.QuitEnds` | BBB/lib-sources/cmd_fsm.c:600-604 | "q" ends the program from every state. |
| `CmdMachine.CommandMachine.SwitchRec` | BBB/lib-sources/cmd_fsm.c:872-919 | In place, the record at the working time is added or switched, with what the search found carried over. |
| `CmdMachine.CommandMachine.C27` | BBB/lib-sources/cmd_fsm.c:958-980 | In place, the temperature is set, with state and humidity as the search found them. |
| `CmdMachine.CommandMachine.C28` | BBB/lib-sources/cmd_fsm.c:983-1005 | In place, the humidity is set, with state and temperature as the search found them. |
| `CmdMachine.CommandMachine.C24` | BBB/lib-sources/cmd_fsm.c:922-931 | In place, the record at the working time is removed. |
| `CmdMachine.CommandMachine.C14` | BBB/lib-sources/cmd_fsm.c:743-760 | The shifting loop removes one library entry and leaves a stale copy in the last slot. |
| `CmdMachine.CommandMachine.C51` | BBB/lib-sources/cmd_fsm.c:1296-1312 | The buffer goes to the next library slot under the unquoted name and is emptied; a full library changes nothing. |
| `CmdMachine.CommandMachine.C61` | BBB/lib-sources/cmd_fsm.c:1407-1415 | The buffer becomes a copy of the slot with the number typed, even past the last used one. |
| `CmdMachine.CommandMachine.LoadWsch` | BBB/lib-sources/sch.c:440-470 | The loops over days and channels set the covered cells and no others. |
| `CmdMachine.CommandMachine.SetChannelMode` | BBB/lib-sources/cmd_fsm.c:674-720 | Mode and state of the working channel are set, the flag raised, and no other channel touched. |
| `CmdMachine.CommandMachine.C5` | BBB/lib-sources/cmd_fsm.c:623-631 | The working channel's name is set to the token without quotes. |
| `CmdMachine.CommandMachine.C19` | BBB/lib-sources/ipc.c:182-207 | Shared memory becomes the backup, flag included; without a backup nothing changes. |
| `CmdMachine.CommandMachine.Dispatch` | BBB/lib-sources/cmd_fsm.c:1662-1662 | Every routine number leads to the routine specified for it. |
| `CmdMachine.CommandMachine.ReadToken` | BBB/lib-sources/cmd_fsm.c:1630-1660 | The token gets its table row and number; an empty one is ignored. |
| `CmdMachine.CommandMachine.CmdFsm` | BBB/lib-sources/cmd_fsm.c:1626-1682 | One cycle in place is exactly the specified step, for every token text that does not fault. |
| `CmdMachine.CommandMachine.DrainQueue` | BBB/UI/Pcon.c:192-196 | The draining loop over the linked queue feeds tokens in order and empties the queue at the first refusal. |
| `TokenQueues.TokenQueue.Reset` | BBB/lib-sources/char_fsm.c:54-55 | The list starts empty. |
| `TokenQueues.TokenQueue.Push` | BBB/lib-sources/char_fsm.c:110-122 | The token goes to the end of the linked list and no other token moves. |
| `TokenQueues.TokenQueue.PopCmdQ` | BBB/lib-sources/char_fsm.c:377-399 | Tokens come off in order; an empty list is reported with an empty buffer. |
| `TokenQueues.TokenQueue.EmptyQueue` | BBB/lib-sources/cmd_fsm.c:1669-1669 | Popping until nothing is left terminates with an empty list. |
| `Lexer.NormalisedEncodes` | BBB/lib-sources/char_fsm.c:339-366 | The machine's output for a line is its one-pass tokens, each followed by exactly one delimiter. |
| `Lexer.SplitUndoesEncoding` | BBB/lib-sources/char_fsm.c:58-141 | The splitter recovers every token list from that form and stays inside the buffer. |
| `Lexer.TwoPhaseLexingIsCorrect` | BBB/lib-sources/char_fsm.c:42-153 | For every line with balanced quotes the two phases queue exactly the maximal words and quoted strings in order, or one empty token for a blank line. |
| `Lexer.BufferCells` | BBB/lib-sources/char_fsm.c:219-292 | A line of n characters and q quotes makes the character machine write inside n+q+2 cells. |
| `Lexer.BufferCellsBoundIsMet` | BBB/lib-sources/char_fsm.c:219-292 | A line for which one cell less is too little. |
| `Lexer.LexUndoesPrint` | BBB/lib-sources/char_fsm.c:339-355 | Any list of non-empty words and quoted strings, printed with single blanks, is a balanced line that lexes back to the list. |
| `Lexer.PrintedLineRoundTrips` | BBB/lib-sources/char_fsm.c:42-153 | The same through both phases. |
| `Lexer.LaidWordsAreQueued` | BBB/lib-sources/char_fsm.c:156-174 | Any words and quoted texts with commas, blanks, colons or slashes between them are queued as exactly those. |
| `Lexer.SeparatorsPart` | BBB/lib-sources/char_fsm.c:156-174 | Two words with any run of those four characters between them are two tokens; "8:30" is 8 and 30. |
| `Lexer.NormalisedCells` | BBB/lib-sources/char_fsm.c:219-292 | The character machine's output is as long as the line's one-pass tokens with a cell behind each. |
| `Lexer.StaysInsideIffTheTokensFit` | BBB/lib-sources/char_fsm.c:21-21 | For every line, quotes closed or not, no cell the machine writes lies behind a buffer exactly when the tokens, with a cell behind each, leave one for the terminator. |
| `Lexer.ThirtySixCharactersCanOverrun` | BBB/lib-sources/char_fsm.c:21-21 | A balanced line of 36 characters, well inside the line buffer, that makes the machine write behind the 60 cells of its input buffer. |
| `CharMachines.CharMachine.Append` | BBB/lib-sources/char_fsm.c:210-292 | Each action routine appends exactly its characters, keeps the cells behind them clear, and writes no higher than specified. |
| `CharMachines.CharMachine.Feed` | BBB/lib-sources/char_fsm.c:361-366 | One character: act by the table, then move by the table. |
| `CharMachines.CharMachine.PushToken` | BBB/lib-sources/char_fsm.c:109-124 | The token is ended in place and queued; no other cell changes. |
| `CharMachines.CharMachine.Advance` | BBB/lib-sources/char_fsm.c:58-141 | One pass of the splitter's loop moves forward and keeps "queued tokens plus tokens to come" equal to the whole. |
| `CharMachines.CharMachine.ProcessBuffer` | BBB/lib-sources/char_fsm.c:42-153 | In place, the buffer's tokens end up in the queue, and buffer and pointer are cleared. |
| `CharMachines.CharMachine.EnterLine` | BBB/UI/Pcon.c:279-284 | Feeding a line that stays inside the input buffer, and its carriage return, queues exactly the one-pass tokens and writes up to exactly the specified cell. |
| `LineEditor.DeleteUndoesType` | BBB/UI/Pcon.c:293-364 | Delete restores the line after a key exactly when the key was accepted or the cursor is at the start. |
| `LineEditor.TypingInsertsTheWord` | BBB/UI/Pcon.c:332-364 | Typing a word that fits puts it at the cursor, wherever that is, and the cursor behind it. |
| `LineEditor.ArrowsUndoEachOther` | BBB/UI/Pcon.c:231-244 | Each arrow moves the cursor by one, and away from the ends they undo each other. |
| `LineEditor.TypingInsideAWord` | BBB/UI/Pcon.c:231-364 | Typing a word, going back n characters and typing another puts the second inside the first. |
| `LineEditor.PressAll` | BBB/UI/Pcon.c:231-364 | After any keys the cursor is within the line and the line within 61 characters. |
| `LineEditor.RunsStayInsideIffGuarded` | BBB/UI/Pcon.c:262-364 | A run of keys stays inside the declared 60 cells exactly when at each key's turn the line is short enough: 59 characters to append or delete, 58 to insert or enter. |
| `LineEditor.FiftyNineCharactersOverrun` | BBB/UI/Pcon.c:262-288 | Any line of 59 characters, which the room check accepts, overruns the buffer when it is entered. |
| `LineEditor.SixtyThreeCellsAreNeeded` | BBB/UI/Pcon.c:333-333 | Every session stays inside a buffer exactly when it has at least 63 cells. |
| `LineEditor.Editor.TypeChar` | BBB/UI/Pcon.c:332-364 | In place, the character is inserted at the cursor unless the room check fails; for every line on which the declared buffer is not overrun, and the cells touched are those specified. |
| `LineEditor.Editor.DeleteChar` | BBB/UI/Pcon.c:293-330 | In place, the character before the cursor is removed and the cells behind the text are clear, under the same condition. |
| `LineEditor.Editor.LeftArrow` | BBB/UI/Pcon.c:238-244 | The cursor moves left unless it is at the start. |
| `LineEditor.Editor.RightArrow` | BBB/UI/Pcon.c:231-237 | The cursor moves right unless it is at the end. |
| `LineEditor.Editor.TakeLine` | BBB/UI/Pcon.c:262-288 | The text is handed on with a carriage return and the buffer cleared, whenever both characters it adds fit the declared buffer. |
| `Operator.CommandLine` | BBB/UI/Pcon.c:190-292 | One command line that fits the two 60-cell buffers: the edited text, lexed in one pass, drives the command machine token by token. |
| `Operator.ShortLinesAreEnterable` | BBB/UI/Pcon.c:262-288 | Balanced lines whose characters and quotes together are at most 58 fit both buffers. |
| `Operator.SessionStaysInsideIffGuarded` | BBB/UI/Pcon.c:231-364 | A whole session of keys and entered lines stays inside both 60-cell buffers exactly when every key finds the line short enough and every entered line has tokens that fit. |
| `SensorIndex.SensorList.DelElm` | BBB/lib-sources/list_maint.c:8-30 | In place, the first occurrence goes and the order is kept. |
| `SensorIndex.SensorList.AddElm` | BBB/lib-sources/list_maint.c:32-59 | In place, a new value goes to the end, a known one changes nothing. |
| `SensorIndex.Pigeonhole` | BBB/include/typedefs.h:60-60 | A duplicate-free list of channels never needs more than the sixteen cells. |
| `SensorIndex.AssignKeepsInverse` | BBB/lib-sources/cmd_fsm.c:1253-1273 | Assigning a channel keeps the lists the exact inverse of the assignment, and a cell is free for it although capacity is checked in bytes. |
| `SensorIndex.UnassignKeepsInverse` | BBB/lib-sources/cmd_fsm.c:811-826 | Clearing an assignment keeps the inverse. |
| `SensorIndex.AssignAssigns` | BBB/lib-sources/cmd_fsm.c:1253-1273 | Routine 49 assigns this channel to this sensor, and moves no other. |
| `SensorIndex.UnassignClears` | BBB/lib-sources/cmd_fsm.c:811-826 | Routine 18 unassigns this channel, and moves no other. |
| `SensorIndex.ListsAreTheInverseAfterAnyCalls` | BBB/lib-sources/cmd_fsm.c:811-826 | Every sequence of calls keeps the inverse: a channel is in a sensor's list iff it is assigned to it; lists are duplicate-free, disjoint and at most sixteen long. |
| `SensorIndex.ListsAreTheInverseFromZeroedMemory` | BBB/lib-sources/cmd_fsm.c:1253-1273 | So it is after every sequence of calls from zeroed memory, and the update flag is up once one has been made. |
| `SensorIndex.SensorTable.constructor` | BBB/lib-sources/cmd_fsm.c:811-826 | The zeroed lists and assignment, which are the inverse of each other. |
| `SensorIndex.SensorTable.ClearSensor` | BBB/lib-sources/cmd_fsm.c:811-826 | In place over all twenty lists, the channel is unassigned and the update flag raised. |
| `SensorIndex.SensorTable.SetSensor` | BBB/lib-sources/cmd_fsm.c:1253-1273 | In place, the channel leaves every list and joins one, and the update flag is raised; no list is overrun. |
| `Slab.AnswersAreSwitchStates` | BBB/lib-sources/slab_control.c:23-66 | For every history the answers are 0 or 1 and depend only on the call's target and the last two readings, of whatever channels. |
| `Slab.DocumentedRuleIff` | BBB/lib-sources/slab_control.c:37-66 | The documented rule is what the code does exactly when the reading falls or is not just below the target. |
| `Slab.SlabController.Direction` | BBB/lib-sources/slab_control.c:23-35 | Compares with the previous reading and remembers this one. |
| `Slab.SlabController.Slabcon` | BBB/lib-sources/slab_control.c:37-66 | The branches decide as specified, and the error answer at the end is not reached. |
| `Daemon.DoChannels` | BBB/daemon/Dcon.c:98-133 | After n channels each done one has what the update owes it: its own state, the step function's, or the controller's decision from its target, its reading and the last reading before it; the others and all modes are untouched. |
| `Daemon.ATemperatureDecides` | BBB/lib-sources/sch.c:192-216 | A sensed channel is decided by one temperature alone, that of the first record if it is the only one or its minute has come, else that of the cell behind the last: on below it while the reading falls, else only five or more below. |
| `Daemon.UninitialisedStateNeverShowsIff` | BBB/daemon/Dcon.c:89-132 | The uninitialised local variable cannot reach a stored state exactly when channel 0 has a real mode. |
| `Daemon.PinsShowTheLastWriter` | BBB/daemon/Dcon.c:137-148 | A pin is 1 when the last of its channels to be written is on, and 0 when it is off. |
| `Daemon.WrittenPinsShow` | BBB/include/shared.h:113-128 | After an update each of the fifteen pins, by number, is 1 or 0 as its channel is on or off; 86 shows channel 12. |
| `Daemon.PinsFollowChannelsIffTheSharedOnesAgree` | BBB/include/shared.h:113-128 | Every pin shows its own channel exactly when channels 0 and 12 agree. |
| `DaemonMachine.Dcon.TestSchSensor` | BBB/lib-sources/sch.c:192-216 | As written: 0 for an empty schedule, else the controller with the first record's target if it is alone or matches, else with the cell behind the last record. |
| `DaemonMachine.Dcon.UpdateChannel` | BBB/daemon/Dcon.c:99-132 | In place, one channel gets its state and no other changes. |
| `DaemonMachine.Dcon.UpdateRelays` | BBB/daemon/Dcon.c:87-152 | The two loops compute all states from the entry snapshot and drive every pin to 1 or 0 by its channel. |
| `DaemonMachine.Dcon.LoopPass` | BBB/daemon/Dcon.c:278-319 | One pass clears a raised flag and updates, or updates on a new minute, or only toggles the heart beat. |
| `Protocol.CriticalSectionIsTheRoutine` | BBB/lib-sources/cmd_fsm.c:674-720 | Lock, single writes and free, without interference, do to the system data exactly what the command machine specifies for the routine. |
| `Protocol.StoredSensorReadsZero` | BBB/lib-sources/cmd_fsm.c:1587-1596 | Storing a sensor record leaves that sensor's reading at 0 and the others as they were. |
| `Protocol.StartIsGood` | BBB/daemon/Dcon.c:251-262 | Zeroed shared memory and both programs at their loops satisfy the invariant. |
| `ProtocolSteps.NextKeepsGood` | BBB/daemon/Dcon.c:275-319 | Every step of every program keeps all data well formed, modes in 0..2 and states in 0..1. |
| `ProtocolSteps.UnlockedRoutinesTouchNothingTheDaemonReads` | BBB/lib-sources/cmd_fsm.c:743-760 | Routines that take no lock leave modes, states, the system table and the flag alone. |
| `ProtocolSteps.StepKeepsExclusionIff` | BBB/lib-sources/ipc.c:209-261 | A step keeps "semaphore plus holders is one" exactly when it is not an initialisation while the lock is held. |
| `ProtocolRuns.MutualExclusionIffInitsFindTheLockFree` | BBB/lib-sources/ipc.c:209-261 | Over every run that equation holds throughout exactly when no program starts while the lock is held. |
| `ProtocolRuns.InitDuringAnUpdateAdmitsASecondHolder` | BBB/lib-sources/ipc.c:209-227 | From any update in progress, a program start lets a second process into the lock. |
| `ProtocolRuns.InitDuringAnUpdateTearsTheSnapshot` | BBB/lib-sources/ipc.c:209-227 | From any update in progress with a schedule replacement waiting, a program start lets the replacement in and the update no longer comes from one snapshot. |
| `ProtocolRuns.StepKeepsSnapshotIff` | BBB/daemon/Dcon.c:94-149 | A step keeps "everything the update has done comes from one snapshot" exactly when it does not, in the middle of an update, change something the update has read or commit a request. |
| `ProtocolRuns.OneSnapshotIffNothingTears` | BBB/daemon/Dcon.c:94-149 | Over every run, all updates come from one single snapshot of modes, schedules and readings exactly when no step tears one. |
| `ProtocolRuns.AStartCanTearAnUpdate` | BBB/lib-sources/ipc.c:221-225 | A run of six steps from zeroed memory in which a program start during the first update leads to two holders and a torn update. |
| `ProtocolRuns.NoRequestIsLost` | BBB/daemon/Dcon.c:278-295 | In every run a commit that no update has seen is announced by the flag, or the daemon is between clearing the flag and taking the update lock. |
| `ProtocolRuns.UpdatesComeFromOneSnapshot` | BBB/daemon/Dcon.c:94-149 | Given `InitsFindTheLockFree`: during an update, states, registers and pins are what one snapshot of modes, schedules and readings determines. |
| `ProtocolRuns.MemoryCarriesTheCommits` | BBB/lib-sources/cmd_fsm.c:674-720 | Given `InitsFindTheLockFree`: modes, commanded states and system table are at all times what the history of commits amounts to, pending writes included. |
| `ProtocolRuns.UpdatesDeliverWhatTheOperatorAskedFor` | BBB/daemon/Dcon.c:87-152 | Given `InitsFindTheLockFree`: every completed update in every interleaving leaves timed channels with the installed schedule's step-function state for the weekday and minute, manual ones with their last command, sensed ones with the controller's decision from the installed schedule and the current readings, and pins that follow. |
| `ProtocolSettling.TwoPassesSettleEverything` | BBB/daemon/Dcon.c:278-295 | Given `InitsFindTheLockFree`: with the operator quiet, after two further passes the flag is down, every request seen, all states are what the configuration asks for, and after a first request the pins follow. |
| `ProtocolSettling.DaemonCanGoOn` | BBB/daemon/Dcon.c:278-319 | With nobody else in the lock the daemon always has a next step. |
| `ProtocolSettling.EightyOneStepsMakeTwoPasses` | BBB/daemon/Dcon.c:278-319 | Left alone, 81 of its steps complete two passes. |
| `ProtocolSettling.EveryStateCanSettle` | BBB/daemon/Dcon.c:278-319 | From every reachable state there is a way on, whoever is in the lock finishing first and at most 82 daemon steps following, to a state with the flag down, every request seen, the one in progress included, all channels as asked for and the pins following. |
| `ProtocolClock.PassWithoutUpdateIff` | BBB/daemon/Dcon.c:278-319 | With the flag down a pass updates nothing exactly when the minute of the hour is the remembered one, and then the last update was for the present time exactly when it fell in the same hour of the same weekday. |
| `ProtocolClock.TimesOfTheWeek` | BBB/daemon/Dcon.c:278-295 | The clock that counts minutes shows minute m of hour h of day d when it should. |
| `ProtocolClock.StatesAreForThePresent` | BBB/daemon/Dcon.c:287-295 | Given `InitsFindTheLockFree`: from the first update that a new minute has started, while the flag stays down and the clock is read at least once an hour, all channels are what the operator asked for at the time just read. |
| `ProtocolLines.LineIsARun` | BBB/UI/Pcon.c:190-196 | Given `InitsFindTheLockFree`: when nobody interferes, a line's tokens up to the first refusal are a sequence of events of the operator program that leads to what the command machine makes of the line. |
| `ProtocolLines.ATypedLineTakesEffect` | BBB/UI/Pcon.c:190-292 | From a typed line to the pins: its tokens run, and after at most 83 further steps all channels are what the operator has asked for with it, and the pins follow. |
| `ProtocolLines.NumberAndSwitchTakeEffect` | BBB/UI/Pcon.c:190-292 | "n on", "n off" or "n time", typed at the prompt in any reachable situation with nobody in the lock: the last request is that one, and after at most 83 further steps channel n is on, off, or what the installed schedule says, and the pins follow. |
| `TopicQueues.JoinUndoesSplit` | i5-6600k/lib-sources/build_token_q.c:26-44 | The queued levels joined with "/" give back the topic, minus one final "/". |
| `TopicQueues.StandardAddsTheLastLevel` | i5-6600k/lib-sources/build_token_q.c:26-44 | The levels of section 4.7.1.1 of MQTT Version 3.1.1 are the code's plus an empty one behind a final separator. |
| `TopicQueues.StandardIffNoTrailingSlash` | i5-6600k/lib-sources/build_token_q.c:26-44 | Code and standard agree exactly on non-empty topics without a final separator. |
| `TopicQueues.PopNeedsAClearBuffer` | i5-6600k/lib-sources/fifo_q.c:57-57 | A popped token reads back exactly when the caller's buffer was clear behind it. |
| `TopicQueues.ListAddElement` | i5-6600k/lib-sources/fifo_q.c:8-47 | Appends to the linked list, keeping both ends null or neither; null for no queue or half a queue. |
| `TopicQueues.ListRemoveElement` | i5-6600k/lib-sources/fifo_q.c:66-96 | Removes the first token and fixes the tail when the list becomes empty; null when there is nothing to remove. |
| `TopicQueues.Pop` | i5-6600k/lib-sources/fifo_q.c:50-63 | Delivers the first token over the front of the buffer and drops its node. |
| `TopicQueues.ListFree` | i5-6600k/lib-sources/fifo_q.c:99-107 | Removing until the head is null terminates with both ends null. |
| `TopicQueues.BuildTokenQ` | i5-6600k/lib-sources/build_token_q.c:11-45 | For every topic whose levels fit the scratch buffer the queue holds exactly its levels in order. |

`InitsFindTheLockFree` reads: every `Init` event so far found no process in a critical section.

## Left out

- Screen output, prompts, help text, terminal set-up, logs, gpio shell commands and the busy waits of
  `update_relays`; of the display routines' own text buffers only the schedule printer's can overrun, and
  that one is modelled.
- Clock reading and setting: time is an input of the daemon's pass; routines 41 to 48 only keep their range
  check (`SetClockDay`).
- The sensor record's texts and the whole-record store of routine 73: it overwrites a sensor's channel list
  from a buffer that never loaded it, so the inverse-index results are about routines 18 and 49 alone.
- Loading a backup in the interleaved model: it overwrites the flag together with the data. The sequential
  command machine has it (`C19`), with a write error of the backup file left out.
- The record search of `get_tar_temp`, which only a display could use; for `test_sch_sensor` the temperature
  in the cell behind the last record is an input.
- DEL inside the character machine (the line editor handles it first), unterminated quotes, and history
  recall, which can leave old characters behind the recalled line (what the character machine itself writes is
  stated for open quotes too); copying a line to the history overruns no
  earlier than entering it does.
- Heap sizes and raw memory: tokens are character sequences, so a copy without its terminator is not seen.
  The scratch copy that `process_buffer` makes and never reads takes no more cells than the buffer it copies
  and is left out. Token fields hold 128 characters, which no line can fill.
- Sensor posts are reduced to lock, one store in range, free; parsing, files and their early exits are not
  modelled. Process crashes and failing semaphore calls are not modelled. After `q` the operator program stays
  gone: a new start of it, or of the daemon, is only the reset of the semaphore.
- `ipc_size`, BCD conversion, file mapping, the logging tools, the ESP8266 and MQTT client code.
- CmdMachine.CommandMachine.C19: the sensor records, which the backup also holds and a load also overwrites,
  are not part of the machine's memory here.
- CmdMachine.CommandMachine.ReadToken: does not keep the lower-cased spelling of a token, which the code
  only prints afterwards.
- CmdMachine.CommandMachine.LoadWsch: tables are sequence-valued fields reassigned cell by cell, so aliasing
  between the working and the system table is not modelled (the code copies structures).
- ProtocolSettling.EightyOneStepsMakeTwoPasses: is about the daemon's own steps; fairness towards the other
  processes is not modelled.
- Schedule.DayState: states the lookup for whole minutes of one day; what happens across midnight is the next
  day's schedule.
