/** Whole runs of the command machine: what every token keeps, and when. */
module CmdRuns {
  import opened CmdTables
  import opened CmdSpec
  import opened Schedule
  import opened SharedData
  import opened Tokens

  // ----- what holds between tokens -----

  /** In these states the operator is working on one channel. */
  predicate OnChannel(s: nat) {
    1 <= s <= 3
  }

  predicate WorkOk(cb: Cb) {
    && (IsChannel(cb.channel) || cb.channel == ALL_CHANNELS)
    && (IsDay(cb.day) || cb.day == ALL_DAYS)
    && 0 <= cb.hours <= 23
    && 0 <= cb.minutes <= 59
    && 0 <= cb.sensor < NUMBER_OF_SENSORS
  }

  ghost predicate DataOk(m: Mach) {
    && WorkOk(m.cb)
    && WellFormed(m.cb.buffer.recs)
    && TableOk(m.cb.work)
    && SysOk(m.sys)
    && (m.backup.Some? ==> SysOk(m.backup.value))
  }

  /** Everything is well formed, and in states 1 to 3 there is a definite working channel. */
  ghost predicate Inv(m: Mach) {
    Reachable(m.cb.state) && DataOk(m) && (OnChannel(m.cb.state) ==> IsChannel(m.cb.channel))
  }

  // ----- when a routine is safe: checks a caller could make before the call -----

  predicate BufferGuard(a: nat, tok: Tok, m: Mach) {
    match a
    case 51 => m.sys.tplIndex < MAX_TEMPLATES ==> TextFits(Dequote(tok.text), TEMPLATE_NAME_SIZE)
    case 61 => 0 <= tok.value < MAX_TEMPLATES
    case _ => true
  }

  predicate SystemGuard(a: nat, tok: Tok, m: Mach) {
    match a
    case 5 => m.cb.channel != ALL_CHANNELS && TextFits(Dequote(tok.text), CHANNEL_NAME_SIZE)
    case 9 => m.cb.channel != ALL_CHANNELS
    case 10 => m.cb.channel != ALL_CHANNELS
    case 11 => m.cb.channel != ALL_CHANNELS
    case 12 => m.cb.channel != ALL_CHANNELS
    case 75 => m.cb.channel != ALL_CHANNELS
    case 76 => m.cb.channel != ALL_CHANNELS
    case _ => BufferGuard(a, tok, m)
  }

  /** No channel that is shown has a record in the table. */
  predicate NothingToShow(cs: seq<Chan>, t: Table) {
    forall c, d :: 0 <= c < |cs| && !cs[c].hidden && 0 <= d < |Week(t, c)| ==> Week(t, c)[d] == []
  }

  predicate Guard(a: nat, tok: Tok, m: Mach) {
    match a
    case 4 => tok.value >= 0
    case 20 => 0 <= tok.value <= 23 ==> TextFits(tok.text, TIME_FIELD_SIZE)
    case 21 => 0 <= tok.value <= 59 ==> TextFits(tok.text, TIME_FIELD_SIZE)
    case 29 => IsChannel(tok.value) || tok.value == ALL_CHANNELS
    case 47 => IsDay(tok.value)
    case 57 => NothingToShow(m.sys.chans, m.sys.sch)
    case 58 => NothingToShow(m.sys.chans, m.cb.work)
    case 68 => tok.value >= 0
    case 69 => |tok.text| > GROUP_NAME_SIZE + 2
    case 70 => |tok.text| <= DESCRIPTION_NAME_SIZE + 2 ==> TextFits(Dequote(tok.text), DESCRIPTION_NAME_SIZE)
    case _ => SystemGuard(a, tok, m)
  }

  /** The routine neither faults nor leaves anything malformed. */
  ghost predicate Clean(o: Outcome) {
    o.Done? ==> DataOk(o.m)
  }

  // ----- the buffer and the library -----

  lemma HeldOk(cb: Cb)
    requires WellFormed(cb.buffer.recs)
    ensures Held(cb).state == 0 || Held(cb).state == 1
  {
    if cb.buffer.recs != [] {
      assert RecOk(cb.buffer.recs[0]);
    }
  }

  lemma AddKeepsData(r: Rec, m: Mach)
    requires DataOk(m) && RecOk(r)
    ensures AddToBuffer(r, m).Done? && DataOk(AddToBuffer(r, m).m)
  {
    if !Full(m.cb.buffer.recs, r.key) {
      InsertKeepsWellFormed(m.cb.buffer.recs, r);
    }
  }

  lemma DeleteTemplateKeepsLib(lib: seq<Tmpl>, v: int, n: int)
    requires LibOk(lib) && 0 <= v < n <= MAX_TEMPLATES
    ensures LibOk(lib[..v] + lib[v + 1..n] + lib[n - 1..])
  {
    var after := lib[..v] + lib[v + 1..n] + lib[n - 1..];
    forall i | 0 <= i < MAX_TEMPLATES
      ensures WellFormed(after[i].recs)
    {
      assert after[i] == if i < v then lib[i] else if i < n - 1 then lib[i + 1] else lib[i];
    }
  }

  lemma BufferRoutines(a: nat, tok: Tok, m: Mach)
    requires DataOk(m)
    ensures var o := ActOnBuffer(a, tok, m);
            (BufferGuard(a, tok, m) <==> o != Fault && Clean(o)) && (o.Done? ==> o.m.cb.channel == m.cb.channel)
  {
    HeldOk(m.cb);
    var key := KeyOf(m.cb.hours, m.cb.minutes);
    match a
    case 22 => AddKeepsData(Held(m.cb).(key := key, state := 1), m);
    case 23 => AddKeepsData(Held(m.cb).(key := key, state := 0), m);
    case 27 => AddKeepsData(Held(m.cb).(key := key, temp := tok.value), m);
    case 28 => AddKeepsData(Held(m.cb).(key := key, humid := tok.value), m);
    case 24 => RemoveKeepsWellFormed(m.cb.buffer.recs, key);
    case 14 =>
      if 0 <= tok.value <= m.sys.tplIndex - 1 {
        DeleteTemplateKeepsLib(m.sys.lib, tok.value, m.sys.tplIndex);
      }
    case _ =>
  }

  // ----- shared data -----

  lemma SystemRoutines(a: nat, tok: Tok, m: Mach)
    requires DataOk(m)
    ensures var o := ActOnSystem(a, tok, m);
            (SystemGuard(a, tok, m) <==> o != Fault && Clean(o)) && (o.Done? ==> o.m.cb.channel == m.cb.channel)
  {
    BufferRoutines(a, tok, m);
  }

  // ----- all routines -----

  lemma LoadTableOk(t: Table, day: int, channel: int, s: Sched)
    requires TableOk(t) && WellFormed(s)
    ensures TableOk(LoadTable(t, day, channel, s))
  {
  }

  lemma WeekFitsIffEmpty(mode: int, week: seq<Sched>)
    requires 0 <= mode <= 2
    ensures WeekFits(mode, week) <==> forall d :: 0 <= d < |week| ==> week[d] == []
  {
    forall d | 0 <= d < |week| && week[d] != []
      ensures !WeekFits(mode, week)
    {
      assert !EntryFits(mode, week[d], 0);
    }
  }

  /** No cell text ever fits its field: the schedule printer stays inside it exactly when it has no cell
      to print at all. */
  lemma PrintFitsIff(cs: seq<Chan>, t: Table)
    requires ChansOk(cs)
    ensures PrintFits(cs, t) <==> NothingToShow(cs, t)
  {
    forall c | 0 <= c < |cs|
      ensures WeekFits(cs[c].mode, Week(t, c)) <==> forall d :: 0 <= d < |Week(t, c)| ==> Week(t, c)[d] == []
    {
      assert ChanOk(cs[c]);
      WeekFitsIffEmpty(cs[c].mode, Week(t, c));
    }
  }

  lemma Routines(a: nat, tok: Tok, m: Mach)
    requires DataOk(m) && a != 18 && a != 49
    ensures var o := Act(a, tok, m);
            (Guard(a, tok, m) <==> o != Fault && Clean(o)) &&
            (o.Done? ==> o.m.cb.channel == m.cb.channel || a == 4 || a == 29 || a == 31)
  {
    hide PrintFits;
    hide NothingToShow;
    hide LoadTable;
    hide WellFormed;
    LoadTableOk(m.cb.work, m.cb.day, tok.value, m.cb.buffer.recs);
    LoadTableOk(m.cb.work, m.cb.day, ALL_CHANNELS, m.cb.buffer.recs);
    PrintFitsIff(m.sys.chans, m.sys.sch);
    PrintFitsIff(m.sys.chans, m.cb.work);
    SystemRoutines(a, tok, m);
    hide ActOnSystem;
    hide SystemGuard;
  }

  // ----- one cycle -----

  /** What the two tables promise together, for the row's routine `a` and next state. */
  predicate RouteOk(a: nat, next: nat, s: nat) {
    && a != 18 && a != 49
    && (a == 7 || a == 8 || Reachable(next))
    && (a != 7 && a != 8 && OnChannel(next) ==> a == 4 || (OnChannel(s) && a != 29 && a != 31))
    && (a == 4 || a == 29 || a == 31 ==> !OnChannel(s))
    && (a == 5 || a == 9 || a == 10 || a == 11 || a == 75 || a == 76 ==> OnChannel(s))
  }

  lemma TablesEnterChannel(t: nat, s: nat)
    requires t < CMD_TOKENS && Reachable(s)
    ensures var a := ActionOf(t, s);
            a != 7 && a != 8 && OnChannel(NewState(t, s)) ==> a == 4 || OnChannel(s)
  {
  }

  lemma TablesOnChannel(t: nat, s: nat)
    requires t < CMD_TOKENS && s < CMD_STATES
    ensures var a := ActionOf(t, s);
            && (a == 4 || a == 29 || a == 31 ==> !OnChannel(s))
            && (a == 5 || a == 9 || a == 10 || a == 11 || a == 75 || a == 76 ==> OnChannel(s))
  {
  }

  lemma TablesRouteOk(t: nat, s: nat)
    requires t < CMD_TOKENS && Reachable(s)
    ensures RouteOk(ActionOf(t, s), NewState(t, s), s)
  {
    RouteOkFrom(t, s, ActionOf(t, s), NewState(t, s));
  }

  lemma RouteOkFrom(t: nat, s: nat, a: nat, next: nat)
    requires t < CMD_TOKENS && Reachable(s) && a == ActionOf(t, s) && next == NewState(t, s)
    ensures RouteOk(a, next, s)
  {
    TablesStayReachable(t, s);
    TablesEnterChannel(t, s);
    TablesOnChannel(t, s);
  }

  lemma FireKeepsInv(a: nat, next: nat, tok: Tok, m: Mach)
    requires Inv(m) && RouteOk(a, next, m.cb.state)
    ensures var o := Fire(a, next, tok, m);
            Guard(a, tok, m) <==> o != Fault && (o.Done? ==> Inv(o.m))
  {
    Routines(a, tok, m);
    var o := Act(a, tok, m);
    if o.Done? && o.rc == 0 {
      assert DataOk(o.m.(cb := o.m.cb.(state := next))) <==> DataOk(o.m);
      if Guard(a, tok, m) && OnChannel(next) {
        assert IsChannel(o.m.cb.channel);
      }
    }
  }

  /** The check a caller could make before feeding the token. */
  predicate StepGuard(tok: Tok, m: Mach)
    requires TokOk(tok) && Reachable(m.cb.state)
  {
    Guard(ActionOf(tok.index, m.cb.state), tok, m)
  }

  /** One token keeps everything well formed and the working channel coupled to the state, and stays
      inside every array, exactly when its guard holds. */
  lemma StepKeepsInvIffGuarded(tok: Tok, m: Mach)
    requires TokOk(tok) && Inv(m)
    ensures var o := Step(tok, m);
            StepGuard(tok, m) <==> o != Fault && (o.Done? ==> Inv(o.m))
  {
    TablesRouteOk(tok.index, m.cb.state);
    FireKeepsInv(ActionOf(tok.index, m.cb.state), NewState(tok.index, m.cb.state), tok, m);
  }

  // ----- runs -----

  /** What reaches the command machine: a token from the queue, or the escape key. */
  datatype Input = Typed(text: string) | EscapeKey

  function React(e: Input, m: Mach): Outcome
    requires Reachable(m.cb.state)
  {
    match e
    case EscapeKey => Done(0, m.(cb := m.cb.(state := 0)))
    case Typed(text) => Cycle(text, m)
  }

  predicate InputGuard(e: Input, m: Mach)
    requires Reachable(m.cb.state)
  {
    e.Typed? && Classify(e.text).Some? ==> StepGuard(Classify(e.text).value, m)
  }

  /** Every token of the run meets its guard when its turn comes. */
  predicate Guarded(es: seq<Input>, m: Mach)
    requires Reachable(m.cb.state)
  {
    es == [] || (InputGuard(es[0], m) && var o := React(es[0], m); o.Done? ==> Guarded(es[1..], o.m))
  }

  /** The run never faults and everything is well formed at every point of it. */
  ghost predicate AlwaysInv(es: seq<Input>, m: Mach)
    requires Reachable(m.cb.state)
  {
    Inv(m) && (es == [] || var o := React(es[0], m); o != Fault && (o.Done? ==> AlwaysInv(es[1..], o.m)))
  }

  lemma ReactKeepsInvIffGuarded(e: Input, m: Mach)
    requires Inv(m)
    ensures InputGuard(e, m) <==> React(e, m) != Fault && (React(e, m).Done? ==> Inv(React(e, m).m))
  {
    if e.Typed? && Classify(e.text).Some? {
      StepKeepsInvIffGuarded(Classify(e.text).value, m);
    }
  }

  /** Whole runs: well-formedness, coupling and memory safety hold throughout exactly when every token
      meets its guard. */
  lemma {:induction false} RunsStayWellFormedIffGuarded(es: seq<Input>, m: Mach)
    requires Inv(m)
    ensures AlwaysInv(es, m) <==> Guarded(es, m)
    decreases |es|
  {
    if es != [] {
      ReactKeepsInvIffGuarded(es[0], m);
      var o := React(es[0], m);
      if o.Done? && Inv(o.m) {
        RunsStayWellFormedIffGuarded(es[1..], o.m);
      }
    }
  }

  /** Start of the program on zeroed shared memory. */
  function ZeroMach(): Mach {
    Mach(Cb(0, 0, 0, 0, 0, 0, Tmpl("", []), ZeroSys().sch), ZeroSys(), None)
  }

  lemma ZeroMachIsWellFormed()
    ensures Inv(ZeroMach())
  {
  }

  // ----- the working channel alone -----

  /** The schedule printers, which write nothing but their own text. */
  predicate Shows(a: nat) {
    a == 57 || a == 58
  }

  /** One cycle in which the printers run on past the end of their text. */
  function StepOn(tok: Tok, m: Mach): (o: Outcome)
    requires TokOk(tok) && Reachable(m.cb.state)
    ensures o.Done? ==> Reachable(o.m.cb.state)
  {
    TablesStayReachable(tok.index, m.cb.state);
    if Shows(ActionOf(tok.index, m.cb.state)) then Done(0, m.(cb := m.cb.(state := NewState(tok.index, m.cb.state))))
    else Step(tok, m)
  }

  function ReactOn(e: Input, m: Mach): (o: Outcome)
    requires Reachable(m.cb.state)
    ensures o.Done? ==> Reachable(o.m.cb.state)
  {
    if e.Typed? && Classify(e.text).Some? then StepOn(Classify(e.text).value, m) else React(e, m)
  }

  /** In states 1 to 3 there is a definite working channel. */
  predicate Coupled(m: Mach) {
    Reachable(m.cb.state) && (OnChannel(m.cb.state) ==> IsChannel(m.cb.channel))
  }

  /** The token is not a negative channel number. */
  predicate ChannelGuard(e: Input, m: Mach)
    requires Reachable(m.cb.state)
  {
    e.Typed? && Classify(e.text).Some? ==>
      var tok := Classify(e.text).value;
      ActionOf(tok.index, m.cb.state) == 4 ==> tok.value >= 0
  }

  lemma ActKeepsChannel(a: nat, tok: Tok, m: Mach)
    requires a != 18 && a != 49 && a != 4 && a != 29 && a != 31
    ensures Act(a, tok, m).Done? ==> Act(a, tok, m).m.cb.channel == m.cb.channel
  {
    hide PrintFits;
  }

  lemma StepOnKeepsCoupledIff(tok: Tok, m: Mach)
    requires TokOk(tok) && Coupled(m)
    ensures var o := StepOn(tok, m);
            (o.Done? ==> Coupled(o.m)) <==> (ActionOf(tok.index, m.cb.state) == 4 ==> tok.value >= 0)
  {
    TablesRouteOk(tok.index, m.cb.state);
    ChannelRowLeadsOn(tok.index, m.cb.state);
    RouteKeepsCoupledIff(ActionOf(tok.index, m.cb.state), NewState(tok.index, m.cb.state), tok, m);
  }

  /** A channel number leads to a state in which the operator works on it. */
  lemma ChannelRowLeadsOn(t: nat, s: nat)
    requires t < CMD_TOKENS && Reachable(s)
    ensures ActionOf(t, s) == 4 ==> OnChannel(NewState(t, s))
  {
  }

  lemma RouteKeepsCoupledIff(a: nat, next: nat, tok: Tok, m: Mach)
    requires Coupled(m) && RouteOk(a, next, m.cb.state) && (a == 4 ==> OnChannel(next))
    ensures var o := if Shows(a) then Done(0, m.(cb := m.cb.(state := next))) else Fire(a, next, tok, m);
            (o.Done? ==> Coupled(o.m)) <==> (a == 4 ==> tok.value >= 0)
  {
    if a != 4 && a != 29 && a != 31 {
      ActKeepsChannel(a, tok, m);
      hide Act;
    } else {
      hide LoadWork;
    }
  }

  /** The working channel is coupled to the state at every point of the run, the printers running on; the
      run ends when another routine faults. */
  predicate AlwaysCoupled(es: seq<Input>, m: Mach)
    requires Reachable(m.cb.state)
  {
    Coupled(m) && (es == [] || var o := ReactOn(es[0], m); o.Done? ==> AlwaysCoupled(es[1..], o.m))
  }

  predicate ChannelGuarded(es: seq<Input>, m: Mach)
    requires Reachable(m.cb.state)
  {
    es == [] ||
    (ChannelGuard(es[0], m) && var o := ReactOn(es[0], m); o.Done? ==> ChannelGuarded(es[1..], o.m))
  }

  lemma ReactOnKeepsCoupledIff(e: Input, m: Mach)
    requires Coupled(m)
    ensures (ReactOn(e, m).Done? ==> Coupled(ReactOn(e, m).m)) <==> ChannelGuard(e, m)
  {
    if e.Typed? && Classify(e.text).Some? {
      StepOnKeepsCoupledIff(Classify(e.text).value, m);
    }
  }

  /** Whole runs: the coupling holds throughout exactly when no negative channel number is typed. */
  lemma {:induction false} StateAndChannelStayCoupledIff(es: seq<Input>, m: Mach)
    requires Coupled(m)
    ensures AlwaysCoupled(es, m) <==> ChannelGuarded(es, m)
    decreases |es|
  {
    hide ReactOn;
    hide ChannelGuard;
    if es != [] {
      ReactOnKeepsCoupledIff(es[0], m);
      var o := ReactOn(es[0], m);
      if o.Done? && Coupled(o.m) {
        StateAndChannelStayCoupledIff(es[1..], o.m);
      }
    }
  }

  /** So it does whenever all numbers are non-negative. */
  lemma {:induction false} NonNegativeNumbersStayCoupled(es: seq<Input>, m: Mach)
    requires Coupled(m)
    requires forall i :: 0 <= i < |es| && es[i].Typed? && IsInt(es[i].text) ==> IntValue(es[i].text) >= 0
    ensures AlwaysCoupled(es, m)
    decreases |es|
  {
    if es != [] {
      OnlyNumbersNameChannels(es[0], m);
      ReactOnKeepsCoupledIff(es[0], m);
      var o := ReactOn(es[0], m);
      hide ReactOn;
      if o.Done? {
        NonNegativeNumbersStayCoupled(es[1..], o.m);
      }
    }
  }

  lemma OnlyNumbersNameChannels(e: Input, m: Mach)
    requires Reachable(m.cb.state) && (e.Typed? && IsInt(e.text) ==> IntValue(e.text) >= 0)
    ensures ChannelGuard(e, m)
  {
    if e.Typed? && Classify(e.text).Some? {
      ChannelRow(Classify(e.text).value.index, m.cb.state);
      OnlyNumbersAreNegative(e.text);
    }
  }

  lemma ChannelRow(t: nat, s: nat)
    requires t < CMD_TOKENS && Reachable(s)
    ensures ActionOf(t, s) == 4 ==> t == INT_TOKEN
  {
  }

  lemma OnlyNumbersAreNegative(s: string)
    ensures Classify(s).Some? && Classify(s).value.index == INT_TOKEN ==>
              IsInt(s) && Classify(s).value.value == IntValue(s)
  {
    FindKeywordRange(LowerAll(s), 0);
  }

  /** The routines that index the channel array from states 1 to 3 never need their channel check. */
  lemma ChannelRoutinesIndexInRange(tok: Tok, m: Mach)
    requires TokOk(tok) && Coupled(m)
    ensures ActionOf(tok.index, m.cb.state) in {5, 9, 10, 11, 75, 76} ==> IsChannel(m.cb.channel)
  {
    TablesRouteOk(tok.index, m.cb.state);
  }
}
