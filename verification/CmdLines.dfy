/** What whole lines do, in the words and numbers that are typed: the routes through the command machine's
    tables, with keywords, key arithmetic and modes written out. */
module CmdLines {
  import opened CmdFindings
  import opened CmdLibrary
  import opened CmdRuns
  import opened CmdSpec
  import opened CmdTables
  import opened Schedule
  import ScheduleLaws
  import opened SharedData
  import opened Tokens

  // ----- single tokens -----

  /** A routine's outcome, with the state its row leads to. */
  function Moved(o: Outcome, next: nat): Outcome {
    if o.Done? && o.rc == 0 then Done(0, o.m.(cb := o.m.cb.(state := next))) else o
  }

  /** A word whose row leads to routine `a`. */
  lemma WordFires(t: nat, a: nat, next: nat, m: Mach)
    requires IsKeyword(t) && Reachable(m.cb.state) && a == ActionOf(t, m.cb.state) && next == NewState(t, m.cb.state)
    ensures a != 18 && a != 49 && Cycle(Keyword(t), m) == Moved(Act(a, Tok(t, t, Keyword(t)), m), next)
  {
    KeywordCycle(t, m);
    TablesStayReachable(t, m.cb.state);
    hide Cycle;
    hide Act;
    hide Keyword;
  }

  /** A number whose column leads to routine `a`. */
  lemma NumberFires(n: nat, a: nat, next: nat, m: Mach)
    requires n <= I32_MAX && Reachable(m.cb.state)
    requires a == ActionOf(INT_TOKEN, m.cb.state) && next == NewState(INT_TOKEN, m.cb.state)
    ensures a != 18 && a != 49 && Cycle(Numeral(n), m) == Moved(Act(a, Tok(INT_TOKEN, n, Numeral(n)), m), next)
  {
    NumeralsAreRecognised(n);
    TablesStayReachable(INT_TOKEN, m.cb.state);
    hide Classify;
    hide Act;
    hide Numeral;
  }

  /** A quoted text. */
  lemma TextFires(text: string, a: nat, next: nat, m: Mach)
    requires Reachable(m.cb.state) && a == ActionOf(STR_TOKEN, m.cb.state) && next == NewState(STR_TOKEN, m.cb.state)
    ensures a != 18 && a != 49 && Cycle(Quoted(text), m) == Moved(Act(a, Tok(STR_TOKEN, -1, Quoted(text)), m), next)
  {
    QuotedIsText(text);
    TablesStayReachable(STR_TOKEN, m.cb.state);
    hide Classify;
    hide Act;
  }

  /** Routines that answer 0 and change nothing. */
  predicate IsQuiet(a: nat) {
    a == 0 || a == 37 || a == 38 || a == 50 || a == 53 || a == 59 || a == 63
  }

  lemma QuietRoutine(a: nat, tok: Tok, m: Mach)
    requires IsQuiet(a)
    ensures Act(a, tok, m) == Done(0, m)
  {
  }

  lemma ChannelRoutines(tok: Tok, m: Mach)
    ensures Act(9, tok, m) == SetMode(0, 1, m) && Act(10, tok, m) == SetMode(0, 0, m)
    ensures Act(11, tok, m) == SetMode(1, 0, m) && Act(12, tok, m) == SetMode(2, 0, m)
    ensures Act(75, tok, m) == SetHide(true, m) && Act(76, tok, m) == SetHide(false, m)
  {
    hide SetMode;
    hide SetHide;
  }

  lemma RecordRoutines(tok: Tok, m: Mach)
    ensures Act(22, tok, m) == SetRecState(1, m) && Act(23, tok, m) == SetRecState(0, m)
    ensures Act(24, tok, m) == DeleteRec(m) && Act(33, tok, m) == ClearBuffer(m)
  {
    hide SetRecState;
    hide DeleteRec;
    hide ClearBuffer;
  }

  lemma TableRoutines(tok: Tok, m: Mach)
    ensures Act(29, tok, m) == LoadWorkChannel(tok, m) && Act(31, tok, m) == LoadWorkAllChannels(m)
    ensures Act(30, tok, m) == SetDay(tok, m) && Act(39, tok, m) == ReplaceSchedule(m)
    ensures Act(32, tok, m) == Done(0, m.(cb := m.cb.(day := ALL_DAYS)))
  {
    hide LoadWorkChannel;
    hide LoadWorkAllChannels;
    hide SetDay;
    hide ReplaceSchedule;
  }

  lemma LibraryRoutines(tok: Tok, m: Mach)
    ensures Act(51, tok, m) == SaveTemplate(tok, m) && Act(61, tok, m) == LoadTemplate(tok, m)
    ensures Act(14, tok, m) == DeleteTemplate(tok, m)
    ensures Act(25, tok, m) == Backup(m) && Act(19, tok, m) == Restore(m)
    ensures Act(3, tok, m) == Exited && Act(4, tok, m) == SetWorkChannel(tok, m)
  {
    hide SaveTemplate;
    hide LoadTemplate;
    hide DeleteTemplate;
    hide Backup;
    hide Restore;
  }

  lemma QuietWord(t: nat, a: nat, next: nat, m: Mach)
    requires IsKeyword(t) && Reachable(m.cb.state) && IsQuiet(a)
    requires a == ActionOf(t, m.cb.state) && next == NewState(t, m.cb.state)
    ensures Goes(Keyword(t), m, m.(cb := m.cb.(state := next)))
  {
    WordFires(t, a, next, m);
    QuietRoutine(a, Tok(t, t, Keyword(t)), m);
    hide Cycle;
    hide Act;
    hide Keyword;
    hide ActionOf;
    hide NewState;
  }

  // ----- lines -----

  /** The machine goes from `m` to `n` on this token, and no token behind it is dropped. */
  predicate Goes(text: string, m: Mach, n: Mach) {
    Reachable(m.cb.state) && Cycle(text, m).Done? && Cycle(text, m).rc != 1 && Cycle(text, m).m == n
  }

  lemma Line2(a: string, b: string, m0: Mach, m1: Mach, m2: Mach)
    requires Goes(a, m0, m1) && Goes(b, m1, m2)
    ensures Drain([a, b], m0) == Done(0, m2)
  {
    hide Cycle;
    DrainCons(b, [], m1);
    DrainCons(a, [b], m0);
    assert [b] + [] == [b] && [a] + [b] == [a, b];
  }

  lemma Line3(a: string, b: string, c: string, m0: Mach, m1: Mach, m2: Mach, m3: Mach)
    requires Goes(a, m0, m1) && Goes(b, m1, m2) && Goes(c, m2, m3)
    ensures Drain([a, b, c], m0) == Done(0, m3)
  {
    hide Cycle;
    Line2(b, c, m1, m2, m3);
    DrainCons(a, [b, c], m0);
    assert [a] + [b, c] == [a, b, c];
    hide Drain;
  }

  lemma Line4(a: string, b: string, c: string, d: string, m0: Mach, m1: Mach, m2: Mach, m3: Mach, m4: Mach)
    requires Goes(a, m0, m1) && Goes(b, m1, m2) && Goes(c, m2, m3) && Goes(d, m3, m4)
    ensures Drain([a, b, c, d], m0) == Done(0, m4)
  {
    hide Cycle;
    Line3(b, c, d, m1, m2, m3, m4);
    DrainCons(a, [b, c, d], m0);
    assert [a] + [b, c, d] == [a, b, c, d];
    hide Drain;
  }

  lemma Line5(a: string, b: string, c: string, d: string, e: string,
              m0: Mach, m1: Mach, m2: Mach, m3: Mach, m4: Mach, m5: Mach)
    requires Goes(a, m0, m1) && Goes(b, m1, m2) && Goes(c, m2, m3) && Goes(d, m3, m4) && Goes(e, m4, m5)
    ensures Drain([a, b, c, d, e], m0) == Done(0, m5)
  {
    hide Cycle;
    Line4(b, c, d, e, m1, m2, m3, m4, m5);
    DrainCons(a, [b, c, d, e], m0);
    assert [a] + [b, c, d, e] == [a, b, c, d, e];
    hide Drain;
  }

  // ----- channels -----

  lemma ChannelIsChosen(n: nat, m: Mach)
    requires m.cb.state == 0 && n < 16
    ensures Goes(Numeral(n), m, m.(cb := m.cb.(state := 1, channel := n, minutes := 0, hours := 0)))
  {
    assert ActionOf(INT_TOKEN, 0) == 4 && NewState(INT_TOKEN, 0) == 1;
    NumberFires(n, 4, 1, m);
    LibraryRoutines(Tok(INT_TOKEN, n, Numeral(n)), m);
    hide Act;
    hide Cycle;
    hide Numeral;
    hide ActionOf;
    hide NewState;
  }

  datatype Switch = Switch(word: string, mode: int, state: int)

  /** "on", "off" and "time", with the mode and the state they stand for. */
  predicate IsSwitch(w: Switch) {
    w == Switch("on", 0, 1) || w == Switch("off", 0, 0) || w == Switch("time", 1, 0)
  }

  /** Channel `n` has this mode and state, nothing else in shared memory has changed, and the daemon is called. */
  predicate ChannelSet(y: Sys, z: Sys, n: nat, mode: int, state: int) {
    && |z.chans| == |y.chans| == 16 && n < 16
    && z.chans[n] == y.chans[n].(mode := mode, state := state)
    && (forall c :: 0 <= c < 16 && c != n ==> z.chans[c] == y.chans[c])
    && z.force == 1 && z.sch == y.sch && z.lib == y.lib && z.tplIndex == y.tplIndex
  }

  lemma SwitchWord(w: Switch, m: Mach)
    requires m.cb.state == 1 && IsSwitch(w) && 0 <= m.cb.channel < |m.sys.chans|
    ensures Goes(w.word, m, m.(cb := m.cb.(state := 0), sys := SetChan(m.sys, m.cb.channel, w.mode, w.state).(force := 1)))
  {
    var t, a := if w.word == "on" then 12 else if w.word == "off" then 13 else 16,
                if w.word == "on" then 9 else if w.word == "off" then 10 else 11;
    assert Keyword(t) == w.word && ActionOf(t, 1) == a && NewState(t, 1) == 0;
    WordFires(t, a, 0, m);
    ChannelRoutines(Tok(t, t, Keyword(t)), m);
    hide Act;
    hide Cycle;
    hide Keyword;
    hide ActionOf;
    hide NewState;
  }

  /** "n on", "n off", "n time": for every channel, from every well-formed machine in state 0. */
  lemma NumberAndSwitch(n: nat, w: Switch, m: Mach)
    requires Inv(m) && m.cb.state == 0 && n < 16 && IsSwitch(w)
    ensures var o := Drain([Numeral(n), w.word], m);
            o.Done? && o.rc == 0 && o.m.cb.state == 0 && o.m.cb.work == m.cb.work && o.m.cb.buffer == m.cb.buffer &&
            ChannelSet(m.sys, o.m.sys, n, w.mode, w.state)
  {
    var m1 := m.(cb := m.cb.(state := 1, channel := n, minutes := 0, hours := 0));
    var m2 := m1.(cb := m1.cb.(state := 0), sys := SetChan(m.sys, n, w.mode, w.state).(force := 1));
    ChannelIsChosen(n, m);
    SwitchWord(w, m1);
    Line2(Numeral(n), w.word, m, m1, m2);
    hide Goes;
    hide Drain;
  }

  /** The escape key makes the next line be read from the start, in whatever state the machine is. */
  lemma EscapeThenSwitch(n: nat, w: Switch, m: Mach)
    requires Inv(m) && n < 16 && IsSwitch(w)
    ensures var e := React(EscapeKey, m);
            e.Done? && Inv(e.m) &&
            var o := Drain([Numeral(n), w.word], e.m);
            o.Done? && o.rc == 0 && ChannelSet(m.sys, o.m.sys, n, w.mode, w.state)
  {
    ReactKeepsInvIffGuarded(EscapeKey, m);
    NumberAndSwitch(n, w, React(EscapeKey, m).m);
    hide Drain;
    hide Numeral;
    hide Inv;
  }

  lemma SensorWord(m: Mach)
    requires m.cb.state == 0 && 0 <= m.cb.channel < |m.sys.chans|
    ensures Goes("sensor", m, m.(sys := SetChan(m.sys, m.cb.channel, 2, 0).(force := 1)))
  {
    assert Keyword(17) == "sensor" && ActionOf(17, 0) == 12 && NewState(17, 0) == 0;
    WordFires(17, 12, 0, m);
    ChannelRoutines(Tok(17, 17, Keyword(17)), m);
    hide Act;
    hide Cycle;
    hide Keyword;
    hide ActionOf;
    hide NewState;
  }

  /** "n time sensor" sets the sensor mode: state 0 takes "sensor" for the channel last worked on. */
  lemma NumberTimeSensor(n: nat, m: Mach)
    requires Inv(m) && m.cb.state == 0 && n < 16
    ensures var o := Drain([Numeral(n), "time", "sensor"], m);
            o.Done? && o.rc == 0 && o.m.cb.state == 0 && ChannelSet(m.sys, o.m.sys, n, 2, 0)
  {
    var w := Switch("time", 1, 0);
    var m1 := m.(cb := m.cb.(state := 1, channel := n, minutes := 0, hours := 0));
    var m2 := m1.(cb := m1.cb.(state := 0), sys := SetChan(m.sys, n, 1, 0).(force := 1));
    var m3 := m2.(sys := SetChan(m2.sys, n, 2, 0).(force := 1));
    ChannelIsChosen(n, m);
    SwitchWord(w, m1);
    SensorWord(m2);
    Line3(Numeral(n), "time", "sensor", m, m1, m2, m3);
    hide Goes;
    hide Drain;
  }

  lemma DisplayWord(hidden: bool, m: Mach)
    requires m.cb.state == 1 && 0 <= m.cb.channel < |m.sys.chans|
    ensures Goes(if hidden then "hide" else "show", m,
                 m.(cb := m.cb.(state := 0),
                    sys := m.sys.(chans := m.sys.chans[m.cb.channel := m.sys.chans[m.cb.channel].(hidden := hidden)])))
  {
    var t, a := if hidden then 23 else 20, if hidden then 75 else 76;
    assert Keyword(t) == (if hidden then "hide" else "show") && ActionOf(t, 1) == a && NewState(t, 1) == 0;
    WordFires(t, a, 0, m);
    ChannelRoutines(Tok(t, t, Keyword(t)), m);
    hide Act;
    hide Cycle;
    hide Keyword;
    hide ActionOf;
    hide NewState;
  }

  /** "n hide" and "n show" mark the channel and change nothing else in shared memory. */
  lemma NumberAndDisplay(n: nat, hidden: bool, m: Mach)
    requires Inv(m) && m.cb.state == 0 && n < 16
    ensures var o := Drain([Numeral(n), if hidden then "hide" else "show"], m);
            o.Done? && o.rc == 0 && o.m.cb.state == 0 &&
            o.m.sys == m.sys.(chans := m.sys.chans[n := m.sys.chans[n].(hidden := hidden)])
  {
    var m1 := m.(cb := m.cb.(state := 1, channel := n, minutes := 0, hours := 0));
    var m2 := m1.(cb := m1.cb.(state := 0), sys := m.sys.(chans := m.sys.chans[n := m.sys.chans[n].(hidden := hidden)]));
    ChannelIsChosen(n, m);
    DisplayWord(hidden, m1);
    Line2(Numeral(n), if hidden then "hide" else "show", m, m1, m2);
    hide Goes;
    hide Drain;
  }

  /** A number and a quoted text name the channel, without the quotes. */
  lemma NumberAndName(n: nat, text: string, m: Mach)
    requires Inv(m) && m.cb.state == 0 && n < 16 && |text| < 20 && '\"' !in text
    ensures var o := Drain([Numeral(n), Quoted(text)], m);
            o.Done? && o.rc == 0 && o.m.cb.state == 0 &&
            o.m.sys == m.sys.(chans := m.sys.chans[n := m.sys.chans[n].(name := text)])
  {
    var m1 := m.(cb := m.cb.(state := 1, channel := n, minutes := 0, hours := 0));
    ChannelIsChosen(n, m);
    ChannelNames(text, m1);
    hide Quoted;
    hide Drain;
    hide Cycle;
    hide Numeral;
    Line2(Numeral(n), Quoted(text), m, m1, Cycle(Quoted(text), m1).m);
  }

  // ----- the record editor -----

  lemma TimeRoutines(tok: Tok, m: Mach)
    requires |tok.text| <= 2
    ensures 0 <= tok.value <= 23 ==> Act(20, tok, m) == Done(0, m.(cb := m.cb.(hours := tok.value)))
    ensures 0 <= tok.value <= 59 ==> Act(21, tok, m) == Done(0, m.(cb := m.cb.(minutes := tok.value)))
  {
  }

  lemma HourIsTaken(h: nat, m: Mach)
    requires m.cb.state == 4 && h <= 23
    ensures Goes(Numeral(h), m, m.(cb := m.cb.(state := 8, hours := h)))
  {
    NumeralsAreRead(h);
    assert ActionOf(INT_TOKEN, 4) == 20 && NewState(INT_TOKEN, 4) == 8;
    NumberFires(h, 20, 8, m);
    TimeRoutines(Tok(INT_TOKEN, h, Numeral(h)), m);
    hide Act;
    hide Cycle;
    hide Numeral;
    hide ActionOf;
    hide NewState;
  }

  lemma MinuteIsTaken(mi: nat, m: Mach)
    requires m.cb.state == 8 && mi <= 59
    ensures Goes(Numeral(mi), m, m.(cb := m.cb.(state := 24, minutes := mi)))
  {
    NumeralsAreRead(mi);
    assert ActionOf(INT_TOKEN, 8) == 21 && NewState(INT_TOKEN, 8) == 24;
    NumberFires(mi, 21, 24, m);
    TimeRoutines(Tok(INT_TOKEN, mi, Numeral(mi)), m);
    hide Act;
    hide Cycle;
    hide Numeral;
    hide ActionOf;
    hide NewState;
  }

  lemma ScheduleWord(m: Mach)
    requires m.cb.state == 0
    ensures Goes("schedule", m, m.(cb := m.cb.(state := 4)))
  {
    ScheduleOpensTheBuffer(m);
  }

  /** The machine at "schedule h m", waiting for what to do with that time. */
  function AtTime(h: nat, mi: nat, m: Mach): Mach {
    m.(cb := m.cb.(state := 24, hours := h, minutes := mi))
  }

  /** The machine at "schedule" and at "schedule h". */
  function AtSchedule(m: Mach): Mach {
    m.(cb := m.cb.(state := 4))
  }

  function AtHour(h: nat, m: Mach): Mach {
    m.(cb := m.cb.(state := 8, hours := h))
  }

  lemma TimeSteps(h: nat, mi: nat, m: Mach)
    requires m.cb.state == 0 && h <= 23 && mi <= 59
    ensures Goes("schedule", m, AtSchedule(m)) && Goes(Numeral(h), AtSchedule(m), AtHour(h, m))
    ensures Goes(Numeral(mi), AtHour(h, m), AtTime(h, mi, m))
  {
    ScheduleWord(m);
    HourIsTaken(h, AtSchedule(m));
    MinuteIsTaken(mi, AtHour(h, m));
    hide Goes;
    hide Numeral;
  }

  lemma TimeLine(h: nat, mi: nat, word: string, m: Mach, n: Mach)
    requires m.cb.state == 0 && h <= 23 && mi <= 59 && Goes(word, AtTime(h, mi, m), n)
    ensures Drain(["schedule", Numeral(h), Numeral(mi), word], m) == Done(0, n)
  {
    hide Goes;
    hide AtTime;
    TimeSteps(h, mi, m);
    Line4("schedule", Numeral(h), Numeral(mi), word, m, AtSchedule(m), AtHour(h, m), AtTime(h, mi, m), n);
  }

  lemma RecordWord(on: bool, m: Mach)
    requires m.cb.state == 24
    ensures Cycle(if on then "on" else "off", m) == Moved(SetRecState(if on then 1 else 0, m), 4)
  {
    var t, a := if on then 12 else 13, if on then 22 else 23;
    assert Keyword(t) == (if on then "on" else "off") && ActionOf(t, 24) == a && NewState(t, 24) == 4;
    WordFires(t, a, 4, m);
    RecordRoutines(Tok(t, t, Keyword(t)), m);
    hide SetRecState;
    hide Act;
    hide Cycle;
    hide Keyword;
    hide ActionOf;
    hide NewState;
  }

  /** The records of `t` are those of `s`, but for the one at minute `k`, which has this state. */
  ghost predicate RecordSet(s: Sched, t: Sched, k: int, state: int) {
    && (exists i :: 0 <= i < |t| && t[i].key == k && t[i].state == state)
    && (forall q: Rec :: q.key != k ==> (q in t <==> q in s))
    && DayState(t, k) == state
  }

  lemma InsertSetsRecord(s: Sched, r: Rec)
    requires WellFormed(s) && RecOk(r) && !Full(s, r.key)
    ensures RecordSet(s, Insert(s, r), r.key, r.state)
  {
    InsertedRecordGoverns(s, r);
    hide Insert;
    hide IndexOf;
    forall q: Rec | q.key != r.key
      ensures q in Insert(s, r) <==> q in s
    {
      ScheduleLaws.InsertMembers(s, r, q);
    }
  }

  lemma InsertedRecordGoverns(s: Sched, r: Rec)
    requires WellFormed(s) && RecOk(r) && !Full(s, r.key)
    ensures var t, i := Insert(s, r), IndexOf(Insert(s, r), r.key);
            i < |t| && t[i] == r && DayState(t, r.key) == r.state
  {
    InsertKeepsWellFormed(s, r);
    IndexOfInsert(s, r);
    hide Insert;
    hide IndexOf;
    hide DayState;
    var t := Insert(s, r);
    ScheduleLaws.HoldsUntilNext(t, IndexOf(t, r.key), r.key);
  }

  /** The record that "on" or "off" puts into the buffer. */
  function SwitchedRec(state: int, cb: Cb): Rec {
    Held(cb).(key := cb.hours * 60 + cb.minutes, state := state)
  }

  /** The machine after a record has been switched at its working time. */
  function Switched(state: int, m: Mach): Mach {
    m.(cb := m.cb.(state := 4, buffer := m.cb.buffer.(recs := Insert(m.cb.buffer.recs, SwitchedRec(state, m.cb)))))
  }

  lemma SetRecStateInserts(state: int, m: Mach)
    requires !Full(m.cb.buffer.recs, m.cb.hours * 60 + m.cb.minutes)
    ensures Moved(SetRecState(state, m), 4) == Done(0, Switched(state, m))
  {
    hide Full;
    hide Insert;
    hide Held;
  }

  lemma RecordIsSwitched(on: bool, m: Mach)
    requires m.cb.state == 24 && !Full(m.cb.buffer.recs, m.cb.hours * 60 + m.cb.minutes)
    ensures Goes(if on then "on" else "off", m, Switched(if on then 1 else 0, m))
  {
    RecordWord(on, m);
    SetRecStateInserts(if on then 1 else 0, m);
    hide Cycle;
    hide Full;
    hide Switched;
    hide SetRecState;
    hide Moved;
  }

  lemma TimeSwitchLine(h: nat, mi: nat, on: bool, m: Mach)
    requires m.cb.state == 0 && h <= 23 && mi <= 59 && !Full(m.cb.buffer.recs, h * 60 + mi)
    ensures Drain(["schedule", Numeral(h), Numeral(mi), if on then "on" else "off"], m)
         == Done(0, Switched(if on then 1 else 0, AtTime(h, mi, m)))
  {
    RecordIsSwitched(on, AtTime(h, mi, m));
    hide Goes;
    hide Switched;
    TimeLine(h, mi, if on then "on" else "off", m, Switched(if on then 1 else 0, AtTime(h, mi, m)));
  }

  lemma SwitchedRecord(state: int, m: Mach)
    requires WellFormed(m.cb.buffer.recs) && 0 <= m.cb.hours <= 23 && 0 <= m.cb.minutes <= 59
    requires (state == 0 || state == 1) && !Full(m.cb.buffer.recs, m.cb.hours * 60 + m.cb.minutes)
    ensures RecordSet(m.cb.buffer.recs, Switched(state, m).cb.buffer.recs, m.cb.hours * 60 + m.cb.minutes, state)
  {
    hide RecordSet;
    hide Insert;
    hide Held;
    hide Full;
    hide WellFormed;
    InsertSetsRecord(m.cb.buffer.recs, SwitchedRec(state, m.cb));
  }

  /** "schedule h m on" and "schedule h m off": the buffer gets a record of that state at that time of day,
      and keeps all others. */
  lemma ScheduleTimeSwitch(h: nat, mi: nat, on: bool, m: Mach)
    requires Inv(m) && m.cb.state == 0 && h <= 23 && mi <= 59 && !Full(m.cb.buffer.recs, h * 60 + mi)
    ensures var o := Drain(["schedule", Numeral(h), Numeral(mi), if on then "on" else "off"], m);
            o.Done? && o.rc == 0 && o.m.cb.state == 4 && o.m.sys == m.sys && o.m.cb.work == m.cb.work &&
            RecordSet(m.cb.buffer.recs, o.m.cb.buffer.recs, h * 60 + mi, if on then 1 else 0)
  {
    hide Drain;
    hide RecordSet;
    hide Full;
    hide Insert;
    hide Held;
    hide Numeral;
    TimeSwitchLine(h, mi, on, m);
    SwitchedRecord(if on then 1 else 0, AtTime(h, mi, m));
  }

  lemma DeleteWord(m: Mach)
    requires m.cb.state == 24
    ensures Goes("delete", m, DeleteRec(m).m.(cb := DeleteRec(m).m.cb.(state := 4)))
  {
    assert Keyword(10) == "delete" && ActionOf(10, 24) == 24 && NewState(10, 24) == 4;
    WordFires(10, 24, 4, m);
    RecordRoutines(Tok(10, 10, Keyword(10)), m);
    hide Act;
    hide Cycle;
    hide Keyword;
    hide ActionOf;
    hide NewState;
    hide Remove;
  }

  lemma RemoveMembers(s: Sched, k: int, q: Rec)
    requires Sorted(s)
    ensures q in Remove(s, k) <==> q in s && q.key != k
  {
    var t, i := Remove(s, k), IndexOf(s, k);
    if i < |s| {
      if q in t {
        var j :| 0 <= j < |t| && t[j] == q;
        assert s[if j < i then j else j + 1] == q;
      }
      if q in s && q.key != k {
        var j :| 0 <= j < |s| && s[j] == q;
        assert t[if j < i then j else j - 1] == q;
      }
    }
  }

  /** "schedule h m delete": exactly the record at that time of day goes. */
  lemma ScheduleTimeDelete(h: nat, mi: nat, m: Mach, q: Rec)
    requires Inv(m) && m.cb.state == 0 && h <= 23 && mi <= 59
    ensures var o := Drain(["schedule", Numeral(h), Numeral(mi), "delete"], m);
            o.Done? && o.rc == 0 && o.m.cb.state == 4 && o.m.sys == m.sys && o.m.cb.work == m.cb.work &&
            (q in o.m.cb.buffer.recs <==> q in m.cb.buffer.recs && q.key != h * 60 + mi)
  {
    var a := AtTime(h, mi, m);
    DeleteWord(a);
    RemoveMembers(m.cb.buffer.recs, h * 60 + mi, q);
    TimeLine(h, mi, "delete", m, DeleteRec(a).m.(cb := DeleteRec(a).m.cb.(state := 4)));
    hide Goes;
    hide Drain;
    hide Remove;
  }

  lemma TargetWord(humid: bool, m: Mach)
    requires m.cb.state == 24
    ensures Goes(if humid then "humid" else "temp", m, m.(cb := m.cb.(state := if humid then 27 else 26)))
  {
    var t, a := if humid then 2 else 0, if humid then 37 else 38;
    assert Keyword(t) == if humid then "humid" else "temp";
    QuietWord(t, a, if humid then 27 else 26, m);
    hide Goes;
    hide Keyword;
  }

  /** The record that a temperature or a humidity puts into the buffer. */
  function TargetRec(humid: bool, v: int, cb: Cb): Rec {
    var r := Held(cb).(key := cb.hours * 60 + cb.minutes);
    if humid then r.(humid := v) else r.(temp := v)
  }

  function Targeted(humid: bool, v: int, m: Mach): Mach {
    m.(cb := m.cb.(state := 4, buffer := m.cb.buffer.(recs := Insert(m.cb.buffer.recs, TargetRec(humid, v, m.cb)))))
  }

  lemma TargetRoutines(v: int, tok: Tok, m: Mach)
    requires !Full(m.cb.buffer.recs, m.cb.hours * 60 + m.cb.minutes) && tok.value == v
    ensures Moved(Act(27, tok, m), 4) == Done(0, Targeted(false, v, m))
    ensures Moved(Act(28, tok, m), 4) == Done(0, Targeted(true, v, m))
  {
    hide Full;
    hide Insert;
    hide Held;
  }

  lemma TargetIsTaken(humid: bool, v: nat, m: Mach)
    requires m.cb.state == (if humid then 27 else 26) && v <= I32_MAX
    requires !Full(m.cb.buffer.recs, m.cb.hours * 60 + m.cb.minutes)
    ensures Goes(Numeral(v), m, Targeted(humid, v, m))
  {
    var a := if humid then 28 else 27;
    assert ActionOf(INT_TOKEN, m.cb.state) == a && NewState(INT_TOKEN, m.cb.state) == 4;
    NumberFires(v, a, 4, m);
    TargetRoutines(v, Tok(INT_TOKEN, v, Numeral(v)), m);
    hide Act;
    hide Cycle;
    hide Numeral;
    hide ActionOf;
    hide NewState;
    hide Full;
    hide Targeted;
    hide Moved;
  }

  function AtTarget(humid: bool, m: Mach): Mach {
    m.(cb := m.cb.(state := if humid then 27 else 26))
  }

  lemma TargetSteps(humid: bool, v: nat, m: Mach)
    requires m.cb.state == 24 && v <= I32_MAX && !Full(m.cb.buffer.recs, m.cb.hours * 60 + m.cb.minutes)
    ensures Goes(if humid then "humid" else "temp", m, AtTarget(humid, m))
    ensures Goes(Numeral(v), AtTarget(humid, m), Targeted(humid, v, m))
  {
    hide Goes;
    hide Full;
    hide Insert;
    hide Numeral;
    TargetWord(humid, m);
    TargetIsTaken(humid, v, AtTarget(humid, m));
  }

  lemma TargetLine(h: nat, mi: nat, humid: bool, v: nat, m: Mach)
    requires m.cb.state == 0 && h <= 23 && mi <= 59 && v <= I32_MAX && !Full(m.cb.buffer.recs, h * 60 + mi)
    ensures Drain(["schedule", Numeral(h), Numeral(mi), if humid then "humid" else "temp", Numeral(v)], m)
         == Done(0, Targeted(humid, v, AtTime(h, mi, m)))
  {
    hide Goes;
    hide Full;
    hide Targeted;
    hide Numeral;
    var a := AtTime(h, mi, m);
    TimeSteps(h, mi, m);
    TargetSteps(humid, v, a);
    Line5("schedule", Numeral(h), Numeral(mi), if humid then "humid" else "temp", Numeral(v),
          m, AtSchedule(m), AtHour(h, m), a, AtTarget(humid, a), Targeted(humid, v, a));
  }

  /** The records of `t` are those of `s`, but for the one at minute `k`, which has this target. */
  ghost predicate TargetSet(s: Sched, t: Sched, k: int, humid: bool, v: int) {
    && (exists i :: 0 <= i < |t| && t[i].key == k && (if humid then t[i].humid else t[i].temp) == v)
    && (forall q: Rec :: q.key != k ==> (q in t <==> q in s))
  }

  lemma InsertSetsTarget(s: Sched, r: Rec, humid: bool)
    requires Sorted(s)
    ensures TargetSet(s, Insert(s, r), r.key, humid, if humid then r.humid else r.temp)
  {
    IndexOfInsert(s, r);
    hide Insert;
    hide IndexOf;
    hide FirstAfter;
    var t, i := Insert(s, r), IndexOf(Insert(s, r), r.key);
    assert t[i] == r;
    forall q: Rec | q.key != r.key
      ensures q in t <==> q in s
    {
      ScheduleLaws.InsertMembers(s, r, q);
    }
  }

  /** "schedule h m temp v" and "schedule h m humid v": the record at that time of day gets that target. */
  lemma ScheduleTimeTarget(h: nat, mi: nat, humid: bool, v: nat, m: Mach)
    requires Inv(m) && m.cb.state == 0 && h <= 23 && mi <= 59 && v <= I32_MAX && !Full(m.cb.buffer.recs, h * 60 + mi)
    ensures var o := Drain(["schedule", Numeral(h), Numeral(mi), if humid then "humid" else "temp", Numeral(v)], m);
            o.Done? && o.rc == 0 && o.m.cb.state == 4 && o.m.sys == m.sys && o.m.cb.work == m.cb.work &&
            TargetSet(m.cb.buffer.recs, o.m.cb.buffer.recs, h * 60 + mi, humid, v)
  {
    hide Drain;
    hide Numeral;
    hide Full;
    hide Insert;
    hide Held;
    hide TargetSet;
    TargetLine(h, mi, humid, v, m);
    InsertSetsTarget(m.cb.buffer.recs, TargetRec(humid, v, AtTime(h, mi, m).cb), humid);
  }

  lemma ClearWord(m: Mach)
    requires m.cb.state == 4
    ensures Goes("clear", m, m.(cb := m.cb.(buffer := m.cb.buffer.(recs := []))))
  {
    assert Keyword(14) == "clear" && ActionOf(14, 4) == 33 && NewState(14, 4) == 4;
    WordFires(14, 33, 4, m);
    RecordRoutines(Tok(14, 14, Keyword(14)), m);
    hide Act;
    hide Cycle;
    hide Keyword;
    hide ActionOf;
    hide NewState;
  }

  /** "schedule clear" empties the buffer. */
  lemma ScheduleClear(m: Mach)
    requires m.cb.state == 0
    ensures Drain(["schedule", "clear"], m) == Done(0, m.(cb := m.cb.(state := 4, buffer := m.cb.buffer.(recs := []))))
  {
    ScheduleWord(m);
    var m1 := m.(cb := m.cb.(state := 4));
    ClearWord(m1);
    Line2("schedule", "clear", m, m1, m1.(cb := m1.cb.(buffer := m.cb.buffer.(recs := []))));
  }

  // ----- numbers out of range, and sensors -----

  /** Where numbers are asked for: the state, the routine, and the next state. */
  predicate AsksFor(s: nat, a: nat, next: nat) {
    (s == 0 && a == 4 && next == 1) || (s == 4 && a == 20 && next == 8) || (s == 8 && a == 21 && next == 24)
    || (s == 5 && a == 30 && next == 9) || (s == 29 && a == 68 && next == 30)
  }

  /** Channels go up to 15, hours to 23, minutes to 59, days from 1 to 7, sensors to 19. */
  predicate InRange(s: nat, n: nat) {
    if s == 0 then n <= 15 else if s == 4 then n <= 23 else if s == 8 then n <= 59 else if s == 5 then 1 <= n <= 7 else n <= 19
  }

  lemma NumberRoutines(a: nat, s: nat, next: nat, tok: Tok, m: Mach)
    requires AsksFor(s, a, next) && tok.value >= 0 && !InRange(s, tok.value)
    ensures Act(a, tok, m) == Done(if s == 29 then 2 else 1, m)
  {
  }

  /** A number out of range is refused and nothing changes; only an unknown sensor keeps the rest of the line. */
  lemma NumbersOutOfRange(n: nat, a: nat, next: nat, m: Mach)
    requires n <= I32_MAX && AsksFor(m.cb.state, a, next) && !InRange(m.cb.state, n)
    ensures Cycle(Numeral(n), m) == Done(if m.cb.state == 29 then 2 else 1, m)
  {
    var s := m.cb.state;
    assert ActionOf(INT_TOKEN, s) == a && NewState(INT_TOKEN, s) == next;
    NumberFires(n, a, next, m);
    NumberRoutines(a, s, next, Tok(INT_TOKEN, n, Numeral(n)), m);
    hide Act;
    hide Cycle;
    hide Numeral;
    hide ActionOf;
    hide NewState;
  }

  lemma SensorRoutine(tok: Tok, m: Mach)
    ensures Act(68, tok, m) == SetWorkSensor(tok, m)
  {
  }

  lemma SensorIsChosen(n: nat, m: Mach)
    requires m.cb.state == 29 && n < 20
    ensures Goes(Numeral(n), m, m.(cb := m.cb.(state := 30, sensor := n)))
  {
    assert ActionOf(INT_TOKEN, 29) == 68 && NewState(INT_TOKEN, 29) == 30;
    NumberFires(n, 68, 30, m);
    SensorRoutine(Tok(INT_TOKEN, n, Numeral(n)), m);
    hide Act;
    hide Cycle;
    hide Numeral;
    hide ActionOf;
    hide NewState;
  }

  /** "sedit n" opens the sensor editor for sensor n. */
  lemma SeditNumber(n: nat, m: Mach)
    requires m.cb.state == 0 && n < 20
    ensures Drain(["sedit", Numeral(n)], m) == Done(0, m.(cb := m.cb.(state := 30, sensor := n)))
  {
    var m1 := m.(cb := m.cb.(state := 29));
    SeditOpensTheSensorEditor(m);
    SensorIsChosen(n, m1);
    hide Numeral;
    Line2("sedit", Numeral(n), m, m1, m1.(cb := m1.cb.(state := 30, sensor := n)));
  }

  // ----- the tables -----

  lemma SetWord(m: Mach)
    requires m.cb.state == 4
    ensures Goes("set", m, m.(cb := m.cb.(state := 5)))
  {
    SetAsksForTheDay(m);
  }

  /** A day or channel as it is typed: a number, or a star for all. */
  datatype Which = One(n: nat) | All

  function TextOf(w: Which): string {
    if w.One? then Numeral(w.n) else "*"
  }

  predicate Includes(w: Which, n: int) {
    w.All? || n == w.n
  }

  lemma NumberedDayIsTaken(d: nat, m: Mach)
    requires m.cb.state == 5 && 1 <= d <= 7
    ensures Goes(Numeral(d), m, m.(cb := m.cb.(state := 9, day := d - 1)))
  {
    assert ActionOf(INT_TOKEN, 5) == 30 && NewState(INT_TOKEN, 5) == 9;
    NumberFires(d, 30, 9, m);
    TableRoutines(Tok(INT_TOKEN, d, Numeral(d)), m);
    hide Act;
    hide Cycle;
    hide Numeral;
    hide ActionOf;
    hide NewState;
  }

  lemma DayIsTaken(d: Which, m: Mach)
    requires m.cb.state == 5 && (d.One? ==> 1 <= d.n <= 7)
    ensures Goes(TextOf(d), m, m.(cb := m.cb.(state := 9, day := if d.One? then d.n - 1 else ALL_DAYS)))
  {
    hide Cycle;
    hide Numeral;
    if d.One? {
      NumberedDayIsTaken(d.n, m);
    } else {
      StarTakesAllDays(m);
    }
  }

  lemma ChannelIsLoaded(c: Which, m: Mach)
    requires m.cb.state == 9 && (c.One? ==> c.n < 16) && (m.cb.day == ALL_DAYS || IsDay(m.cb.day))
    ensures var ch := if c.One? then c.n else ALL_CHANNELS;
            Goes(TextOf(c), m, m.(cb := m.cb.(state := 4, channel := ch,
                                              work := LoadTable(m.cb.work, m.cb.day, ch, m.cb.buffer.recs))))
  {
    if c.One? {
      assert ActionOf(INT_TOKEN, 9) == 29 && NewState(INT_TOKEN, 9) == 4;
      NumberFires(c.n, 29, 4, m);
      TableRoutines(Tok(INT_TOKEN, c.n, Numeral(c.n)), m);
    } else {
      assert Keyword(1) == "*" && ActionOf(1, 9) == 31 && NewState(1, 9) == 4;
      WordFires(1, 31, 4, m);
      TableRoutines(Tok(1, 1, Keyword(1)), m);
    }
    hide LoadTable;
    hide Act;
    hide Cycle;
    hide Numeral;
    hide Keyword;
    hide ActionOf;
    hide NewState;
  }

  lemma LoadedCell(t: Table, day: int, channel: int, s: Sched, d: int, c: int)
    requires |t| == TABLE_SIZE && IsDay(d) && IsChannel(c)
    ensures 0 <= d * 16 + c < |LoadTable(t, day, channel, s)|
    ensures LoadTable(t, day, channel, s)[d * 16 + c] == if Covers(day, channel, d, c) then s else t[d * 16 + c]
  {
    assert (d * 16 + c) / NUMBER_OF_CHANNELS == d && (d * 16 + c) % NUMBER_OF_CHANNELS == c;
  }

  /** What "schedule set d c" leaves. */
  function CellsSet(d: Which, c: Which, m: Mach): Mach {
    var day := if d.One? then d.n - 1 else ALL_DAYS;
    var ch := if c.One? then c.n else ALL_CHANNELS;
    m.(cb := m.cb.(state := 4, day := day, channel := ch, work := LoadTable(m.cb.work, day, ch, m.cb.buffer.recs)))
  }

  lemma SetLine(d: Which, c: Which, m: Mach)
    requires m.cb.state == 0 && (d.One? ==> 1 <= d.n <= 7) && (c.One? ==> c.n < 16)
    ensures Drain(["schedule", "set", TextOf(d), TextOf(c)], m) == Done(0, CellsSet(d, c, m))
  {
    hide LoadTable;
    hide TextOf;
    var m1 := m.(cb := m.cb.(state := 4));
    var m2 := m1.(cb := m1.cb.(state := 5));
    var m3 := m2.(cb := m2.cb.(state := 9, day := if d.One? then d.n - 1 else ALL_DAYS));
    ScheduleWord(m);
    SetWord(m1);
    DayIsTaken(d, m2);
    ChannelIsLoaded(c, m3);
    hide Goes;
    Line4("schedule", "set", TextOf(d), TextOf(c), m, m1, m2, m3, CellsSet(d, c, m));
  }

  /** "schedule set d c", with "*" for all: exactly the cells of day d, counted from 1, and channel c of the
      working table get the buffer. */
  lemma ScheduleSetCells(d: Which, c: Which, m: Mach, day: int, channel: int)
    requires Inv(m) && m.cb.state == 0 && (d.One? ==> 1 <= d.n <= 7) && (c.One? ==> c.n < 16)
    requires 1 <= day <= 7 && 0 <= channel < 16
    ensures var o := Drain(["schedule", "set", TextOf(d), TextOf(c)], m);
            o.Done? && o.rc == 0 && o.m.cb.state == 4 && o.m.sys == m.sys && o.m.cb.buffer == m.cb.buffer &&
            |o.m.cb.work| == |m.cb.work| == 7 * 16 &&
            o.m.cb.work[(day - 1) * 16 + channel] ==
              if Includes(d, day) && Includes(c, channel) then m.cb.buffer.recs else m.cb.work[(day - 1) * 16 + channel]
  {
    hide Drain;
    hide TextOf;
    SetLine(d, c, m);
    LoadedCell(m.cb.work, if d.One? then d.n - 1 else ALL_DAYS, if c.One? then c.n else ALL_CHANNELS,
               m.cb.buffer.recs, day - 1, channel);
  }

  lemma ReplaceWord(m: Mach)
    requires m.cb.state == 4
    ensures Goes("replace", m, m.(sys := m.sys.(sch := m.cb.work, force := 1)))
  {
    assert Keyword(8) == "replace" && ActionOf(8, 4) == 39 && NewState(8, 4) == 4;
    WordFires(8, 39, 4, m);
    TableRoutines(Tok(8, 8, Keyword(8)), m);
    hide Act;
    hide Cycle;
    hide Keyword;
    hide ActionOf;
    hide NewState;
  }

  /** "schedule replace" makes the working table the system table and calls the daemon. */
  lemma ScheduleReplace(m: Mach)
    requires m.cb.state == 0
    ensures Drain(["schedule", "replace"], m)
         == Done(0, m.(cb := m.cb.(state := 4), sys := m.sys.(sch := m.cb.work, force := 1)))
  {
    ScheduleWord(m);
    var m1 := m.(cb := m.cb.(state := 4));
    ReplaceWord(m1);
    Line2("schedule", "replace", m, m1, m1.(sys := m.sys.(sch := m.cb.work, force := 1)));
  }

  // ----- the library -----

  /** The words that lead to the library, with the state behind each. */
  predicate IsLibraryWord(word: string, via: nat) {
    (word == "save" && via == 6) || (word == "load" && via == 7) || (word == "delete" && via == 12)
  }

  lemma LibraryWord(word: string, via: nat, m: Mach)
    requires m.cb.state == 4 && IsLibraryWord(word, via)
    ensures Goes(word, m, m.(cb := m.cb.(state := via)))
  {
    var t := if via == 6 then 21 else if via == 7 then 24 else 10;
    assert Keyword(t) == word && ActionOf(t, 4) == 50 && NewState(t, 4) == via;
    QuietWord(t, 50, via, m);
    hide Goes;
    hide Keyword;
  }

  lemma TemplateWord(m: Mach)
    requires m.cb.state == 6 || m.cb.state == 7 || m.cb.state == 12
    ensures Goes("template", m, m.(cb := m.cb.(state := if m.cb.state == 6 then 10 else if m.cb.state == 7 then 22 else 25)))
  {
    assert Keyword(22) == "template";
    if m.cb.state == 6 {
      QuietWord(22, 53, 10, m);
    } else {
      QuietWord(22, 63, if m.cb.state == 7 then 22 else 25, m);
    }
    hide Cycle;
    hide Keyword;
  }

  /** The line up to its last token: "schedule save template", "schedule load template" and so on. */
  lemma LibraryLine(word: string, last: string, via: nat, at: nat, m: Mach, n: Mach)
    requires m.cb.state == 0
    requires IsLibraryWord(word, via) && at == if via == 6 then 10 else if via == 7 then 22 else 25
    requires Goes(last, m.(cb := m.cb.(state := at)), n)
    ensures Drain(["schedule", word, "template", last], m) == Done(0, n)
  {
    var m1, m2, m3 := m.(cb := m.cb.(state := 4)), m.(cb := m.cb.(state := via)), m.(cb := m.cb.(state := at));
    ScheduleWord(m);
    LibraryWord(word, via, m1);
    TemplateWord(m2);
    hide Goes;
    Line4("schedule", word, "template", last, m, m1, m2, m3, n);
  }

  /** The buffer has gone to the next slot under this name, unless the library was full. */
  predicate TemplateSaved(name: string, m: Mach, n: Mach) {
    var k := m.sys.tplIndex;
    if k == 10 then n.sys == m.sys && n.cb.buffer == m.cb.buffer
    else
      0 <= k < |m.sys.lib| && n.sys == m.sys.(lib := m.sys.lib[k := Tmpl(name, m.cb.buffer.recs)], tplIndex := k + 1) &&
      n.cb.buffer.recs == []
  }

  lemma SaveTemplateIs(tok: Tok, m: Mach)
    requires |m.sys.lib| == 10 && 0 <= m.sys.tplIndex <= 10 && |Dequote(tok.text)| < 40
    ensures var o := SaveTemplate(tok, m);
            o.Done? && o.rc == 0 && o.m.cb.work == m.cb.work && TemplateSaved(Dequote(tok.text), m, o.m)
  {
    hide Dequote;
  }

  /** "schedule save template "name"" saves the buffer under that name. */
  lemma ScheduleSaveTemplate(text: string, m: Mach)
    requires Inv(m) && m.cb.state == 0 && |text| < 40 && '\"' !in text
    ensures var o := Drain(["schedule", "save", "template", Quoted(text)], m);
            o.Done? && o.rc == 0 && o.m.cb.state == 4 && o.m.cb.work == m.cb.work && TemplateSaved(text, m, o.m)
  {
    QuotesComeOff(text);
    var a, tok := m.(cb := m.cb.(state := 10)), Tok(STR_TOKEN, -1, Quoted(text));
    assert ActionOf(STR_TOKEN, 10) == 51 && NewState(STR_TOKEN, 10) == 4;
    TextFires(text, 51, 4, a);
    LibraryRoutines(tok, a);
    SaveTemplateIs(tok, a);
    hide SaveTemplate;
    hide Act;
    hide Cycle;
    hide ActionOf;
    hide NewState;
    hide Dequote;
    hide Quoted;
    hide Drain;
    LibraryLine("save", Quoted(text), 6, 10, m, Cycle(Quoted(text), a).m);
  }

  /** "schedule load template k" loads slot k. */
  lemma ScheduleLoadTemplate(k: nat, m: Mach)
    requires Inv(m) && m.cb.state == 0 && k < 10
    ensures Drain(["schedule", "load", "template", Numeral(k)], m)
         == Done(0, m.(cb := m.cb.(state := 4, buffer := m.sys.lib[k])))
  {
    var a := m.(cb := m.cb.(state := 22));
    assert ActionOf(INT_TOKEN, 22) == 61 && NewState(INT_TOKEN, 22) == 4;
    NumberFires(k, 61, 4, a);
    LibraryRoutines(Tok(INT_TOKEN, k, Numeral(k)), a);
    hide Act;
    hide Cycle;
    hide ActionOf;
    hide NewState;
    hide Numeral;
    LibraryLine("load", Numeral(k), 7, 22, m, m.(cb := m.cb.(state := 4, buffer := m.sys.lib[k])));
  }

  /** Template `k` is gone, the earlier ones are where they were, and each later one is one place down. */
  ghost predicate TemplateDeleted(k: nat, y: Sys, z: Sys) {
    && z.tplIndex == y.tplIndex - 1 && |z.lib| == |y.lib| == 10 && 0 <= k < y.tplIndex <= 10
    && (forall i :: 0 <= i < y.tplIndex - 1 ==> z.lib[i] == y.lib[if i < k then i else i + 1])
    && z.chans == y.chans && z.sch == y.sch && z.force == y.force
  }

  lemma DeleteTemplateIs(tok: Tok, m: Mach)
    requires |m.sys.lib| == 10 && 0 <= tok.value < m.sys.tplIndex <= 10
    ensures var o := DeleteTemplate(tok, m);
            o.Done? && o.rc == 0 && o.m.cb == m.cb && TemplateDeleted(tok.value, m.sys, o.m.sys)
  {
  }

  /** "schedule delete template k" deletes it. */
  lemma ScheduleDeleteTemplate(k: nat, m: Mach)
    requires Inv(m) && m.cb.state == 0 && k < m.sys.tplIndex
    ensures var o := Drain(["schedule", "delete", "template", Numeral(k)], m);
            o.Done? && o.rc == 0 && o.m.cb == m.cb.(state := 4) && TemplateDeleted(k, m.sys, o.m.sys)
  {
    var a, tok := m.(cb := m.cb.(state := 25)), Tok(INT_TOKEN, k, Numeral(k));
    assert ActionOf(INT_TOKEN, 25) == 14 && NewState(INT_TOKEN, 25) == 4;
    NumberFires(k, 14, 4, a);
    LibraryRoutines(tok, a);
    DeleteTemplateIs(tok, a);
    hide DeleteTemplate;
    hide TemplateDeleted;
    hide Act;
    hide Cycle;
    hide ActionOf;
    hide NewState;
    hide Numeral;
    hide Drain;
    LibraryLine("delete", Numeral(k), 12, 25, m, Cycle(Numeral(k), a).m);
  }

  // ----- the backup, and the end -----

  lemma IpcWord(m: Mach)
    ensures m.cb.state == 6 ==> Goes("ipc", m, m.(cb := m.cb.(state := 4), backup := Some(m.sys)))
    ensures m.cb.state == 7 ==>
              Goes("ipc", m, m.(cb := m.cb.(state := 4), sys := if m.backup.Some? then m.backup.value else m.sys))
  {
    assert Keyword(19) == "ipc" && ActionOf(19, 6) == 25 && NewState(19, 6) == 4 && ActionOf(19, 7) == 19 && NewState(19, 7) == 4;
    if m.cb.state == 6 {
      WordFires(19, 25, 4, m);
    } else if m.cb.state == 7 {
      WordFires(19, 19, 4, m);
    }
    LibraryRoutines(Tok(19, 19, Keyword(19)), m);
    hide Act;
    hide Cycle;
    hide Keyword;
    hide ActionOf;
    hide NewState;
  }

  /** "schedule save ipc" backs shared memory up, "schedule load ipc" brings the backup back. */
  lemma ScheduleIpc(m: Mach)
    requires m.cb.state == 0
    ensures Drain(["schedule", "save", "ipc"], m) == Done(0, m.(cb := m.cb.(state := 4), backup := Some(m.sys)))
    ensures Drain(["schedule", "load", "ipc"], m)
         == Done(0, m.(cb := m.cb.(state := 4), sys := if m.backup.Some? then m.backup.value else m.sys))
  {
    var m1, m2, m3 := m.(cb := m.cb.(state := 4)), m.(cb := m.cb.(state := 6)), m.(cb := m.cb.(state := 7));
    ScheduleWord(m);
    LibraryWord("save", 6, m1);
    LibraryWord("load", 7, m1);
    IpcWord(m2);
    IpcWord(m3);
    hide Goes;
    Line3("schedule", "save", "ipc", m, m1, m2, m2.(cb := m2.cb.(state := 4), backup := Some(m.sys)));
    Line3("schedule", "load", "ipc", m, m1, m3,
          m3.(cb := m3.cb.(state := 4), sys := if m.backup.Some? then m.backup.value else m.sys));
  }

  /** "q" ends the program from every state. */
  lemma QuitEnds(m: Mach)
    requires Reachable(m.cb.state)
    ensures Cycle("q", m).Exited?
  {
    assert Keyword(26) == "q" && ActionOf(26, m.cb.state) == 3;
    WordFires(26, 3, NewState(26, m.cb.state), m);
    LibraryRoutines(Tok(26, 26, Keyword(26)), m);
    hide Act;
    hide Cycle;
    hide Keyword;
    hide ActionOf;
    hide NewState;
  }
}
