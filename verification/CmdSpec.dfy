/** What one token does to the command machine and to shared memory (`cmd_fsm` and its `c_N` routines).

    An access outside an array or a text field is an outcome of its own, `Fault`: the C program has no
    defined behaviour from there on. Prompts and screen output are not modelled. */
module CmdSpec {
  import opened Chars
  import opened CmdTables
  import opened Schedule
  import opened SharedData
  import Templates
  import opened Tokens

  const TIME_FIELD_SIZE := 4      // w_hours_str and w_minutes_str, terminator included
  const GROUP_NAME_SIZE := 9
  const DESCRIPTION_NAME_SIZE := 128
  const TIME_STATE_SIZE := 9      // the schedule printer's cell text

  /** The control block: state, working values, template buffer and working schedule table. */
  datatype Cb = Cb(state: nat, channel: int, hours: int, minutes: int, day: int, sensor: int,
                   buffer: Tmpl, work: Table)

  /** The control block with the shared memory it points to and the backup file. */
  datatype Mach = Mach(cb: Cb, sys: Sys, backup: Option<Sys>)

  /** `rc` is the routine's answer: 0 go on, 1 drop the queued tokens, 2 stay in the state. */
  datatype Outcome = Done(rc: int, m: Mach) | Exited | Fault

  function Dequote(s: string): string {
    if s == "" then ""
    else if s[0] == QUOTE then Dequote(s[1..])
    else [s[0]] + Dequote(s[1..])
  }

  // ----- action routines on the control block -----

  /** c_4: there is no lower bound. */
  function SetWorkChannel(tok: Tok, m: Mach): Outcome {
    if tok.value < NUMBER_OF_CHANNELS then
      Done(0, m.(cb := m.cb.(channel := tok.value, minutes := 0, hours := 0)))
    else Done(1, m)
  }

  predicate TextFits(text: string, size: int) {
    |text| < size
  }

  /** c_20 */
  function SetHours(tok: Tok, m: Mach): Outcome {
    if !(0 <= tok.value <= 23) then Done(1, m)
    else if !TextFits(tok.text, TIME_FIELD_SIZE) then Fault
    else Done(0, m.(cb := m.cb.(hours := tok.value)))
  }

  /** c_21 */
  function SetMinutes(tok: Tok, m: Mach): Outcome {
    if !(0 <= tok.value <= 59) then Done(1, m)
    else if !TextFits(tok.text, TIME_FIELD_SIZE) then Fault
    else Done(0, m.(cb := m.cb.(minutes := tok.value)))
  }

  /** c_30 */
  function SetDay(tok: Tok, m: Mach): Outcome {
    if 0 < tok.value < DAYS_PER_WEEK + 1 then Done(0, m.(cb := m.cb.(day := tok.value - 1))) else Done(1, m)
  }

  /** c_68: no lower bound here either. */
  function SetWorkSensor(tok: Tok, m: Mach): Outcome {
    if tok.value > NUMBER_OF_SENSORS - 1 then Done(2, m)
    else Done(0, m.(cb := m.cb.(sensor := tok.value)))
  }

  /** c_69: an accepted group name is padded with blanks to the full field size, so its terminator
      always lands behind the field. */
  function SetSensorGroup(tok: Tok, m: Mach): Outcome {
    if |tok.text| > GROUP_NAME_SIZE + 2 then Done(2, m) else Fault
  }

  /** c_70 writes only text that is not modelled, but it can overrun its field. */
  function SetSensorDescription(tok: Tok, m: Mach): Outcome {
    if |tok.text| > DESCRIPTION_NAME_SIZE + 2 then Done(2, m)
    else if !TextFits(Dequote(tok.text), DESCRIPTION_NAME_SIZE) then Fault
    else Done(0, m)
  }

  /** c_73 */
  function StoreSensor(m: Mach): Outcome {
    if 0 <= m.cb.sensor < NUMBER_OF_SENSORS then Done(0, m) else Fault
  }

  // ----- action routines on the template buffer -----

  /** What find_tmpl_key leaves in `hold`: record 0 if it has the key, else zeros. */
  function Held(cb: Cb): Rec {
    if Templates.FoundKey(cb.buffer.recs, KeyOf(cb.hours, cb.minutes)) != -1 then cb.buffer.recs[0]
    else Rec(0, 0, 0, 0)
  }

  /** add_tmpl_rec on the buffer, its answer ignored. */
  function AddToBuffer(r: Rec, m: Mach): Outcome {
    var recs := m.cb.buffer.recs;
    Done(0, if Full(recs, r.key) then m else m.(cb := m.cb.(buffer := m.cb.buffer.(recs := Insert(recs, r)))))
  }

  /** c_22 and c_23 */
  function SetRecState(on: int, m: Mach): Outcome {
    AddToBuffer(Held(m.cb).(key := KeyOf(m.cb.hours, m.cb.minutes), state := on), m)
  }

  /** c_27 */
  function SetRecTemp(tok: Tok, m: Mach): Outcome {
    AddToBuffer(Held(m.cb).(key := KeyOf(m.cb.hours, m.cb.minutes), temp := tok.value), m)
  }

  /** c_28 */
  function SetRecHumid(tok: Tok, m: Mach): Outcome {
    AddToBuffer(Held(m.cb).(key := KeyOf(m.cb.hours, m.cb.minutes), humid := tok.value), m)
  }

  /** c_24 */
  function DeleteRec(m: Mach): Outcome {
    var recs := m.cb.buffer.recs;
    Done(0, m.(cb := m.cb.(buffer := m.cb.buffer.(recs := Remove(recs, KeyOf(m.cb.hours, m.cb.minutes))))))
  }

  /** c_33 */
  function ClearBuffer(m: Mach): Outcome {
    Done(0, m.(cb := m.cb.(buffer := m.cb.buffer.(recs := []))))
  }

  // ----- action routines on the template library -----

  /** c_14: entries above move down one; the last used slot keeps its stale copy. */
  function DeleteTemplate(tok: Tok, m: Mach): Outcome {
    var n, v := m.sys.tplIndex, tok.value;
    if v < 0 || v > n - 1 then Done(1, m)
    else if n > |m.sys.lib| then Fault
    else Done(0, m.(sys := m.sys.(lib := m.sys.lib[..v] + m.sys.lib[v + 1..n] + m.sys.lib[n - 1..],
                                  tplIndex := n - 1)))
  }

  /** c_51 */
  function SaveTemplate(tok: Tok, m: Mach): Outcome {
    var n := m.sys.tplIndex;
    if n + 1 > MAX_TEMPLATES then Done(0, m)
    else if !(0 <= n < |m.sys.lib|) || !TextFits(Dequote(tok.text), TEMPLATE_NAME_SIZE) then Fault
    else
      var saved := m.sys.lib[n := m.cb.buffer.(name := Dequote(tok.text))];
      ClearBuffer(m.(sys := m.sys.(lib := saved, tplIndex := n + 1)))
  }

  /** c_61: a number past the last used entry is reported, but the slot is loaded all the same. */
  function LoadTemplate(tok: Tok, m: Mach): Outcome {
    if 0 <= tok.value < |m.sys.lib| then Done(0, m.(cb := m.cb.(buffer := m.sys.lib[tok.value]))) else Fault
  }

  // ----- action routines on the schedule tables -----

  predicate Covers(day: int, channel: int, d: int, c: int) {
    (day == ALL_DAYS || d == day) && (channel == ALL_CHANNELS || c == channel)
  }

  /** load_wsch: the buffer goes to every cell that the working day and channel cover. */
  function LoadTable(t: Table, day: int, channel: int, s: Sched): Table {
    seq(|t|, i requires 0 <= i < |t| =>
      if Covers(day, channel, i / NUMBER_OF_CHANNELS, i % NUMBER_OF_CHANNELS) then s else t[i])
  }

  function LoadWork(m: Mach): Outcome {
    if (m.cb.channel == ALL_CHANNELS || IsChannel(m.cb.channel)) && (m.cb.day == ALL_DAYS || IsDay(m.cb.day)) then
      Done(0, m.(cb := m.cb.(work := LoadTable(m.cb.work, m.cb.day, m.cb.channel, m.cb.buffer.recs))))
    else Fault
  }

  /** c_29: the channel number is not checked. */
  function LoadWorkChannel(tok: Tok, m: Mach): Outcome {
    LoadWork(m.(cb := m.cb.(channel := tok.value)))
  }

  /** c_31 */
  function LoadWorkAllChannels(m: Mach): Outcome {
    LoadWork(m.(cb := m.cb.(channel := ALL_CHANNELS)))
  }

  /** c_39 */
  function ReplaceSchedule(m: Mach): Outcome {
    Done(0, m.(sys := m.sys.(sch := m.cb.work, force := 1)))
  }

  // ----- action routines on the channel data -----

  function SetChan(y: Sys, c: int, mode: int, state: int): Sys
    requires 0 <= c < |y.chans|
  {
    y.(chans := y.chans[c := y.chans[c].(mode := mode, state := state)])
  }

  /** c_9 .. c_12 */
  function SetMode(mode: int, state: int, m: Mach): Outcome {
    if 0 <= m.cb.channel < |m.sys.chans| then
      Done(0, m.(sys := SetChan(m.sys, m.cb.channel, mode, state).(force := 1)))
    else Fault
  }

  /** c_5 */
  function SetName(tok: Tok, m: Mach): Outcome {
    var c := m.cb.channel;
    if 0 <= c < |m.sys.chans| && TextFits(Dequote(tok.text), CHANNEL_NAME_SIZE) then
      Done(0, m.(sys := m.sys.(chans := m.sys.chans[c := m.sys.chans[c].(name := Dequote(tok.text))])))
    else Fault
  }

  /** c_75 and c_76 */
  function SetHide(hidden: bool, m: Mach): Outcome {
    var c := m.cb.channel;
    if 0 <= c < |m.sys.chans| then
      Done(0, m.(sys := m.sys.(chans := m.sys.chans[c := m.sys.chans[c].(hidden := hidden)])))
    else Fault
  }

  // ----- the schedule printer -----

  function Week(t: Table, c: int): seq<Sched> {
    seq(DAYS_PER_WEEK, d requires 0 <= d < DAYS_PER_WEEK => if 0 <= Cell(d, c) < |t| then t[Cell(d, c)] else [])
  }

  function DecimalLength(n: nat): (len: nat)
    ensures 1 <= len
  {
    if n < 10 then 1 else 1 + DecimalLength(n / 10)
  }

  /** The characters `sch_print` puts into its cell text for record `i` of a day: blanks if the day has
      fewer, else a time of day with a state word (three letters) or a temperature with two decimals. */
  function EntryLength(mode: int, s: Sched, i: nat): nat {
    if |s| <= i then 9
    else if mode == 0 || mode == 1 then 5 + 1 + 3
    else if mode == 2 then
      5 + 1 + (if s[i].temp < 0 then 1 + DecimalLength(-s[i].temp) else DecimalLength(s[i].temp)) + 3
    else 0 // a bad mode is reported instead
  }

  predicate EntryFits(mode: int, s: Sched, i: nat) {
    EntryLength(mode, s, i) < TIME_STATE_SIZE
  }

  /** A channel's rows go on as long as some day of the week has records. */
  predicate WeekFits(mode: int, week: seq<Sched>) {
    forall d, e, i :: 0 <= d < |week| && 0 <= e < |week| && 0 <= i < |week[e]| ==> EntryFits(mode, week[d], i)
  }

  predicate PrintFits(cs: seq<Chan>, t: Table) {
    forall c :: 0 <= c < |cs| && !cs[c].hidden ==> WeekFits(cs[c].mode, Week(t, c))
  }

  /** c_57 and c_58 */
  function ShowSchedule(t: Table, m: Mach): Outcome {
    if PrintFits(m.sys.chans, t) then Done(0, m) else Fault
  }

  // ----- backup -----

  /** c_25 */
  function Backup(m: Mach): Outcome {
    Done(0, m.(backup := Some(m.sys)))
  }

  /** c_19: without a backup file nothing is loaded. */
  function Restore(m: Mach): Outcome {
    Done(0, if m.backup.Some? then m.(sys := m.backup.value) else m)
  }

  // ----- dispatch -----

  /** The routines that only prompt, print or do nothing. */
  function Quiet(a: nat, m: Mach): Outcome {
    if a == 7 || a == 8 then Done(1, m) else Done(0, m)
  }

  /** c_41 .. c_47 collect a clock setting that is not modelled; c_47 indexes the day names with it. */
  function SetClockDay(tok: Tok, m: Mach): Outcome {
    if IsDay(tok.value) then Done(0, m) else Fault
  }

  function ActOnBuffer(a: nat, tok: Tok, m: Mach): (o: Outcome)
    ensures o.Done? ==> 0 <= o.rc <= 2 && o.m.cb.state == m.cb.state
    ensures o.Done? && o.rc == 0 ==> a != 7 && a != 8
  {
    match a
    case 22 => SetRecState(1, m)
    case 23 => SetRecState(0, m)
    case 24 => DeleteRec(m)
    case 27 => SetRecTemp(tok, m)
    case 28 => SetRecHumid(tok, m)
    case 33 => ClearBuffer(m)
    case 51 => SaveTemplate(tok, m)
    case 61 => LoadTemplate(tok, m)
    case 14 => DeleteTemplate(tok, m)
    case _ => Quiet(a, m)
  }

  function ActOnSystem(a: nat, tok: Tok, m: Mach): (o: Outcome)
    ensures o.Done? ==> 0 <= o.rc <= 2 && o.m.cb.state == m.cb.state
    ensures o.Done? && o.rc == 0 ==> a != 7 && a != 8
  {
    match a
    case 5 => SetName(tok, m)
    case 9 => SetMode(0, 1, m)
    case 10 => SetMode(0, 0, m)
    case 11 => SetMode(1, 0, m)
    case 12 => SetMode(2, 0, m)
    case 39 => ReplaceSchedule(m)
    case 75 => SetHide(true, m)
    case 76 => SetHide(false, m)
    case 25 => Backup(m)
    case 19 => Restore(m)
    case _ => ActOnBuffer(a, tok, m)
  }

  /** Action routine number `a`. The two that are never dispatched, 18 and 49, are in `SensorIndex`. */
  function Act(a: nat, tok: Tok, m: Mach): (o: Outcome)
    requires a != 18 && a != 49
    ensures o.Done? ==> 0 <= o.rc <= 2 && o.m.cb.state == m.cb.state
    ensures o.Done? && o.rc == 0 ==> a != 7 && a != 8
  {
    match a
    case 3 => Exited
    case 4 => SetWorkChannel(tok, m)
    case 20 => SetHours(tok, m)
    case 21 => SetMinutes(tok, m)
    case 29 => LoadWorkChannel(tok, m)
    case 30 => SetDay(tok, m)
    case 31 => LoadWorkAllChannels(m)
    case 32 => Done(0, m.(cb := m.cb.(day := ALL_DAYS)))
    case 47 => SetClockDay(tok, m)
    case 57 => ShowSchedule(m.sys.sch, m)
    case 58 => ShowSchedule(m.cb.work, m)
    case 68 => SetWorkSensor(tok, m)
    case 69 => SetSensorGroup(tok, m)
    case 70 => SetSensorDescription(tok, m)
    case 73 => StoreSensor(m)
    case _ => ActOnSystem(a, tok, m)
  }

  /** The states the machine can be in. */
  predicate Reachable(s: nat) {
    s < 33 && s != 21 && s != 23 && s != 28
  }

  /** Routines 7 and 8 reject the token; any other answer 0 moves along the table. */
  lemma TablesStayReachable(t: nat, s: nat)
    requires t < CMD_TOKENS && Reachable(s)
    ensures ActionOf(t, s) != 18 && ActionOf(t, s) != 49
    ensures ActionOf(t, s) == 7 || ActionOf(t, s) == 8 || Reachable(NewState(t, s))
  {
  }

  predicate TokOk(tok: Tok) {
    tok.index < CMD_TOKENS
  }

  /** Fire routine `a`; move to state `next` if it answered 0. */
  function Fire(a: nat, next: nat, tok: Tok, m: Mach): (o: Outcome)
    requires a != 18 && a != 49
    ensures o.Done? ==> 0 <= o.rc <= 2
    ensures o.Done? ==> o.m.cb.state == m.cb.state || (o.m.cb.state == next && a != 7 && a != 8)
  {
    var o := Act(a, tok, m);
    if o.Done? && o.rc == 0 then Done(0, o.m.(cb := o.m.cb.(state := next))) else o
  }

  /** One cycle of the machine. */
  function Step(tok: Tok, m: Mach): (o: Outcome)
    requires TokOk(tok) && Reachable(m.cb.state)
    ensures o.Done? ==> 0 <= o.rc <= 2 && Reachable(o.m.cb.state)
  {
    var a, next := ActionOf(tok.index, m.cb.state), NewState(tok.index, m.cb.state);
    TablesStayReachable(tok.index, m.cb.state);
    Fire(a, next, tok, m)
  }

  /** `cmd_fsm` on a token's text; an empty token is ignored. */
  function Cycle(text: string, m: Mach): (o: Outcome)
    requires Reachable(m.cb.state)
    ensures o.Done? ==> 0 <= o.rc <= 2 && Reachable(o.m.cb.state)
  {
    var tok := Classify(text);
    if tok.None? then Done(0, m) else Step(tok.value, m)
  }

  /** The main loop's inner loop: feed the queued tokens until one is refused, which drops the rest. */
  function Drain(queue: seq<string>, m: Mach): (o: Outcome)
    requires Reachable(m.cb.state)
    ensures o.Done? ==> Reachable(o.m.cb.state)
  {
    if queue == [] then Done(0, m)
    else
      var o := Cycle(queue[0], m);
      if o.Done? && o.rc != 1 then Drain(queue[1..], o.m) else o
  }
}
