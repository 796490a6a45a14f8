/** Whole runs of the three programs: mutual exclusion, requests that are never lost, updates computed
    from one snapshot, and the end-to-end meaning of the operator's commands. */
module ProtocolRuns {
  import opened CmdSpec
  import opened CmdRuns
  import opened Daemon
  import opened Protocol
  import opened ProtocolSteps
  import opened Schedule
  import opened SharedData
  import opened Tokens

  // ----- runs -----

  ghost predicate Steps(s: State, e: Event, s': State) {
    Good(s) && Next(e, s) == Some(s')
  }

  /** A run: states and the events between them, from zeroed shared memory. `Good` prunes nothing: it
      holds at the start and every step keeps it. */
  ghost predicate IsRun(ss: seq<State>, es: seq<Event>) {
    && |ss| == |es| + 1
    && (exists hMin, loc :: ss[0] == Start(hMin, loc))
    && forall i :: 0 <= i < |es| ==> Steps(ss[i], es[i], ss[i + 1])
  }

  lemma {:induction false} RunsAreGood(ss: seq<State>, es: seq<Event>, n: nat)
    requires IsRun(ss, es) && n <= |es|
    ensures Good(ss[n])
  {
    hide Next;
    if n == 0 {
      var hMin, loc :| ss[0] == Start(hMin, loc);
      StartIsGood(hMin, loc);
    } else {
      assert Steps(ss[n - 1], es[n - 1], ss[n - 1 + 1]);
      NextKeepsGood(es[n - 1], ss[n - 1]);
    }
  }

  lemma RunExtends(ss: seq<State>, es: seq<Event>, e: Event) returns (s: State)
    requires IsRun(ss, es) && Good(ss[|es|]) && Next(e, ss[|es|]).Some?
    ensures Next(e, ss[|es|]) == Some(s) && Good(s) && IsRun(ss + [s], es + [e])
  {
    hide Next;
    s := Next(e, ss[|es|]).value;
    NextKeepsGood(e, ss[|es|]);
    var tt, fs := ss + [s], es + [e];
    forall i | 0 <= i < |fs|
      ensures Steps(tt[i], fs[i], tt[i + 1])
    {
      if i < |es| {
        assert Steps(ss[i], es[i], ss[i + 1]);
      }
    }
  }

  // ----- mutual exclusion -----

  /** Every initialisation among the first `n` events finds the lock free. */
  ghost predicate InitsFindTheLockFree(ss: seq<State>, es: seq<Event>, n: nat)
    requires n <= |es| <= |ss|
  {
    forall i :: 0 <= i < n && es[i].Init? ==> ss[i].holders == {}
  }

  lemma {:induction false} ExclusiveUpTo(ss: seq<State>, es: seq<Event>, n: nat)
    requires IsRun(ss, es) && n <= |es| && InitsFindTheLockFree(ss, es, n)
    ensures HoldersOk(ss[n]) && Exclusive(ss[n])
  {
    hide Next;
    if n > 0 {
      ExclusiveUpTo(ss, es, n - 1);
      assert Steps(ss[n - 1], es[n - 1], ss[n - 1 + 1]);
      StepKeepsExclusionIff(es[n - 1], ss[n - 1]);
    }
  }

  /** Semaphore value plus holders is one throughout a run exactly when no program starts up, resetting
      the semaphore, while another holds the lock. */
  lemma {:induction false} MutualExclusionIffInitsFindTheLockFree(ss: seq<State>, es: seq<Event>, n: nat)
    requires IsRun(ss, es) && n <= |es|
    ensures (forall i :: 0 <= i <= n ==> Exclusive(ss[i])) <==> InitsFindTheLockFree(ss, es, n)
  {
    hide Next;
    hide Good;
    hide Exclusive;
    hide HoldersOk;
    if n > 0 {
      MutualExclusionIffInitsFindTheLockFree(ss, es, n - 1);
      if InitsFindTheLockFree(ss, es, n - 1) {
        ExclusiveUpTo(ss, es, n - 1);
        assert Steps(ss[n - 1], es[n - 1], ss[n - 1 + 1]);
        StepKeepsExclusionIff(es[n - 1], ss[n - 1]);
      }
    } else {
      ExclusiveUpTo(ss, es, 0);
    }
  }

  /** A sensor post that starts while the daemon is updating lets another process into the lock. */
  lemma InitDuringAnUpdateAdmitsASecondHolder(s: State, n: nat)
    requires Good(s) && HoldersOk(s) && Exclusive(s) && s.d.pc.Channel?
    ensures Next(Init, s).Some? && Good(Next(Init, s).value)
    ensures var t := Next(SconLock(n), Next(Init, s).value);
            t.Some? && Dcon in t.value.holders && Scon(n) in t.value.holders && !Exclusive(t.value)
  {
    NextKeepsGood(Init, s);
    if Scon(n) in s.holders {
      TwoHoldersBreakExclusion(s, Dcon, Scon(n));
    }
    TwoHoldersBreakExclusion(Lock(Scon(n), s.(sem := 1)), Dcon, Scon(n));
  }

  // ----- no lost request -----

  /** A commit the daemon has not seen is still announced by the flag, or the daemon is between clearing
      the flag and taking the update lock. */
  predicate NothingLost(s: State) {
    s.d.seen <= |s.log| &&
    (s.d.seen < |s.log| ==> s.sys.force == 1 || s.d.pc.ClearFree? || s.d.pc == UpdateLock(true))
  }

  lemma WriteLosesNothing(s: State)
    requires NothingLost(s) && NextPconWrite(s).Some?
    ensures NothingLost(NextPconWrite(s).value)
  {
    var w := s.ppc.todo[0];
    assert s.ppc.todo[..1] == [w] && [w][1..] == [];
    assert Commits([w]) == if w.WForce? then [w.commit] else [];
    assert s.log + [] == s.log;
  }

  lemma PconLosesNothing(e: Event, s: State)
    requires Good(s) && NothingLost(s) && PconEvent(e) && NextPcon(e, s).Some?
    ensures NothingLost(NextPcon(e, s).value)
  {
    match e {
      case Token(tok) =>
        TokenIsLocal(tok, s);
        TokenKeepsGood(tok, s);
      case PconWrite => WriteLosesNothing(s);
      case _ =>
    }
  }

  lemma StepLosesNothing(e: Event, s: State)
    requires Good(s) && NothingLost(s) && Next(e, s).Some?
    ensures NothingLost(Next(e, s).value)
  {
    if !e.Init? && PconEvent(e) {
      PconLosesNothing(e, s);
    }
  }

  /** In every run, whatever the programs' timing and even if the semaphore is reset at a bad moment. */
  lemma {:induction false} NoRequestIsLost(ss: seq<State>, es: seq<Event>, n: nat)
    requires IsRun(ss, es) && n <= |es|
    ensures NothingLost(ss[n])
  {
    hide Next;
    if n > 0 {
      NoRequestIsLost(ss, es, n - 1);
      assert Steps(ss[n - 1], es[n - 1], ss[n - 1 + 1]);
      StepLosesNothing(es[n - 1], ss[n - 1]);
    }
  }

  // ----- one snapshot per update -----

  predicate Updating(s: State) {
    s.d.pc.Channel? || s.d.pc.Pin? || s.d.pc.UpdateFree?
  }

  function ChannelsDone(s: State): nat {
    if s.d.pc.Channel? then s.d.pc.c else NUMBER_OF_CHANNELS
  }

  function PinsDone(s: State): nat {
    if s.d.pc.Channel? then 0 else if s.d.pc.Pin? then s.d.pc.c else NUMBER_OF_CHANNELS
  }

  /** While the daemon updates, shared memory is the snapshot it took with the lock, with the channels
      done so far replaced by what the snapshot alone determines. */
  ghost predicate FromOneSnapshot(s: State) {
    Updating(s) && ChannelsDone(s) <= NUMBER_OF_CHANNELS && PinsDone(s) <= NUMBER_OF_CHANNELS ==>
      && SnapshotOk(s.d.snap) && s.d.snap.t == s.d.t && s.d.seen == |s.log|
      && s.sys.sch == s.d.snap.sch && s.readings == s.d.snap.readings
      && |s.d.stale| == ChannelsDone(s)
      && (Relays(s.sys.chans), s.d.regs) == DoChannels(ChannelsDone(s), s.d.snap, s.d.stale)
      && s.d.pins == WritePins(PinsDone(s), Relays(s.sys.chans), s.d.pins0)
  }

  lemma UpdatingAlone(s: State)
    requires HoldersOk(s) && Exclusive(s) && Updating(s)
    ensures s.sem == 0 && !s.ppc.Writing? && forall n :: Scon(n) !in s.holders
  {
    if s.ppc.Writing? {
      TwoHoldersBreakExclusion(s, Dcon, Pcon);
    }
    forall n
      ensures Scon(n) !in s.holders
    {
      if Scon(n) in s.holders {
        TwoHoldersBreakExclusion(s, Dcon, Scon(n));
      }
    }
    assert s.holders != {};
  }

  lemma LockTakesASnapshot(s: State)
    requires Good(s) && s.d.pc.UpdateLock? && NextDconLock(s).Some?
    ensures FromOneSnapshot(NextDconLock(s).value)
  {
    var n := NextDconLock(s).value;
    assert SnapshotOk(n.d.snap) by {
      assert forall c :: 0 <= c < NUMBER_OF_CHANNELS ==> ChanOk(s.sys.chans[c]);
    }
  }

  lemma RelaysUpdate(cs: seq<Chan>, c: int, v: int)
    requires 0 <= c < |cs|
    ensures Relays(cs[c := cs[c].(state := v)]) == Relays(cs)[c := Relays(cs)[c].(state := v)]
  {
  }

  lemma DoChannelKeepsMode(r: Relay, s: Sched, key: int, reading: int, stale: int, g: Regs)
    ensures var (r', g') := Daemon.DoChannel(r, s, key, reading, stale, g); r' == r.(state := r'.state)
  {
  }

  lemma ChannelFollowsSnapshot(s: State, stale: int)
    requires Good(s) && s.d.pc.Channel? && FromOneSnapshot(s)
    ensures FromOneSnapshot(NextChannel(s.d.pc.c, stale, s))
  {
    var c, p := s.d.pc.c, s.d.snap;
    var n := NextChannel(c, stale, s);
    var ch := s.sys.chans[c];
    assert ChanOk(ch);
    var r := Relay(ch.mode, ch.state, ch.sensorId);
    assert Relays(s.sys.chans)[c] == r;
    DoChannelKeepsMode(r, s.sys.sch[Cell(s.d.t.wday, c)], MinuteOfDay(s.d.t), s.readings[ch.sensorId], stale, s.d.regs);
    RelaysUpdate(s.sys.chans, c, n.sys.chans[c].state);
    DoChannelsExtend(c, p, s.d.stale, stale);
    assert n.d.stale[c] == stale;
    assert DoChannels(c + 1, p, n.d.stale) == (Relays(n.sys.chans), n.d.regs);
  }

  lemma PinFollowsSnapshot(s: State)
    requires Good(s) && s.d.pc.Pin? && FromOneSnapshot(s)
    ensures FromOneSnapshot(NextPin(s.d.pc.c, s))
  {
    hide DoChannels;
    hide SnapshotOk;
    hide Relays;
  }

  lemma DconKeepsSnapshot(e: Event, s: State)
    requires Good(s) && FromOneSnapshot(s) && NextDcon(e, s).Some?
    ensures FromOneSnapshot(NextDcon(e, s).value)
  {
    match e {
      case DconLock =>
        if s.d.pc.UpdateLock? {
          LockTakesASnapshot(s);
        }
      case DoChannel(stale) => ChannelFollowsSnapshot(s, stale);
      case DoPin => PinFollowsSnapshot(s);
      case Clock(_) =>
      case PollFlag =>
      case ClearFlag =>
      case DconFree =>
    }
  }

  /** An event that changes, in the middle of an update, something the update has read: modes, states or
      sensor numbers, the schedule, a reading; or that commits a request behind its back. */
  predicate Tears(e: Event, s: State) {
    Updating(s) &&
    match e
    case PconWrite => s.ppc.Writing? && s.ppc.todo != [] && Disturbs(s.ppc.todo[0], s)
    case SconWrite(_, sensor, value) => 0 <= sensor < |s.readings| && s.readings[sensor] != value
    case _ => false
  }

  predicate Disturbs(w: Write, s: State) {
    || w.WForce?
    || Relays(Apply(w, s.sys).chans) != Relays(s.sys.chans)
    || Apply(w, s.sys).sch != s.sys.sch
    || ApplyReading(w, s.readings) != s.readings
  }

  lemma WriteKeepsSnapshotIff(s: State)
    requires Good(s) && FromOneSnapshot(s) && NextPconWrite(s).Some?
    ensures FromOneSnapshot(NextPconWrite(s).value) <==> !Tears(PconWrite, s)
  {
    var w := s.ppc.todo[0];
    assert s.ppc.todo[..1] == [w] && [w][1..] == [];
    assert Commits([w]) == if w.WForce? then [w.commit] else [];
    assert s.log + [] == s.log;
  }

  lemma PconKeepsSnapshotIff(e: Event, s: State)
    requires Good(s) && FromOneSnapshot(s) && PconEvent(e) && NextPcon(e, s).Some?
    ensures FromOneSnapshot(NextPcon(e, s).value) <==> !Tears(e, s)
  {
    match e {
      case Token(tok) =>
        TokenIsLocal(tok, s);
        TokenKeepsGood(tok, s);
      case Escape =>
      case PconLock =>
      case PconWrite => WriteKeepsSnapshotIff(s);
      case PconFree =>
    }
  }

  lemma SconKeepsSnapshotIff(e: Event, s: State)
    requires Good(s) && FromOneSnapshot(s) && SconEvent(e) && NextScon(e, s).Some?
    ensures FromOneSnapshot(NextScon(e, s).value) <==> !Tears(e, s)
  {
    if e.SconWrite? {
      assert s.readings[e.sensor := e.value][e.sensor] == e.value;
    }
  }

  /** A step keeps "one snapshot" exactly when it does not tear: whoever holds the lock, and however. */
  lemma StepKeepsSnapshotIff(e: Event, s: State)
    requires Good(s) && FromOneSnapshot(s) && Next(e, s).Some?
    ensures FromOneSnapshot(Next(e, s).value) <==> !Tears(e, s)
  {
    if e.Init? {
    } else if PconEvent(e) {
      PconKeepsSnapshotIff(e, s);
    } else if SconEvent(e) {
      SconKeepsSnapshotIff(e, s);
    } else {
      DconKeepsSnapshot(e, s);
    }
  }

  ghost predicate NothingTears(ss: seq<State>, es: seq<Event>, n: nat)
    requires n <= |es| <= |ss|
  {
    forall i :: 0 <= i < n ==> !Tears(es[i], ss[i])
  }

  lemma StartIsFromOneSnapshot(ss: seq<State>, es: seq<Event>)
    requires IsRun(ss, es)
    ensures FromOneSnapshot(ss[0])
  {
  }

  /** The states, registers and pins of every update in a run come from one single snapshot of modes,
      schedules and readings exactly when no step tears an update. */
  lemma {:induction false} OneSnapshotIffNothingTears(ss: seq<State>, es: seq<Event>, n: nat)
    requires IsRun(ss, es) && n <= |es|
    ensures (forall i :: 0 <= i <= n ==> FromOneSnapshot(ss[i])) <==> NothingTears(ss, es, n)
  {
    hide Next;
    hide FromOneSnapshot;
    hide Tears;
    if n > 0 {
      OneSnapshotIffNothingTears(ss, es, n - 1);
      RunsAreGood(ss, es, n - 1);
      assert Steps(ss[n - 1], es[n - 1], ss[n - 1 + 1]);
      if FromOneSnapshot(ss[n - 1]) {
        StepKeepsSnapshotIff(es[n - 1], ss[n - 1]);
      }
    } else {
      StartIsFromOneSnapshot(ss, es);
    }
  }

  lemma TearingNeedsASecondHolder(e: Event, s: State)
    requires Good(s) && HoldersOk(s) && Exclusive(s) && Next(e, s).Some?
    ensures !Tears(e, s)
  {
    if Updating(s) {
      UpdatingAlone(s);
    }
  }

  /** So while no program starts with the lock held, every update comes from one snapshot. */
  lemma UpdatesComeFromOneSnapshot(ss: seq<State>, es: seq<Event>, n: nat)
    requires IsRun(ss, es) && n <= |es| && InitsFindTheLockFree(ss, es, n)
    ensures FromOneSnapshot(ss[n])
  {
    hide Next;
    hide FromOneSnapshot;
    hide Tears;
    forall i | 0 <= i < n
      ensures !Tears(es[i], ss[i])
    {
      ExclusiveUpTo(ss, es, i);
      RunsAreGood(ss, es, i);
      assert Steps(ss[i], es[i], ss[i + 1]);
      TearingNeedsASecondHolder(es[i], ss[i]);
    }
    OneSnapshotIffNothingTears(ss, es, n);
  }

  /** From any update in progress with a "replace" waiting, a program start lets the "replace" into the
      lock and the update is torn. */
  lemma InitDuringAnUpdateTearsTheSnapshot(s: State)
    requires Good(s) && s.d.pc.Channel? && FromOneSnapshot(s)
    requires s.ppc.Locking? && CmdTables.ActionOf(s.ppc.tok.index, s.cb.state) == 39 && s.cb.work != s.sys.sch
    ensures var s1 := s.(sem := 1);
            Next(Init, s) == Some(s1) && NextPconLock(s1).Some? && NextPconWrite(NextPconLock(s1).value).Some? &&
            !FromOneSnapshot(NextPconWrite(NextPconLock(s1).value).value)
  {
    hide DoChannels;
    hide WritePins;
    hide SnapshotOk;
    var s1 := s.(sem := 1);
    var s2 := NextPconLock(s1).value;
    assert s2.ppc.todo[0] == WTable(s.cb.work);
  }

  function AtPoll(): State {
    var s := Start(1, 0);
    s.(d := s.d.(pc := Poll))
  }

  function AtLock(): State {
    var s := Start(1, 0);
    s.(d := s.d.(pc := UpdateLock(false), hMin := 0))
  }

  lemma FirstClock()
    requires Good(Start(1, 0))
    ensures Next(Clock(Time(0, 0, 0)), Start(1, 0)) == Some(AtPoll())
  {
    hide Good;
  }

  lemma FirstPoll()
    requires Good(AtPoll())
    ensures Next(PollFlag, AtPoll()) == Some(AtLock())
  {
    hide Good;
  }

  lemma FreeLockIsTaken(s: State)
    requires Good(s) && s.sem > 0 && s.holders == {} && s.d.pc.UpdateLock?
    ensures var n := Next(DconLock, s);
            n.Some? && n.value.d.pc == Channel(0) && n.value.holders == {Dcon} && n.value.readings == s.readings
  {
    hide Good;
    hide Relays;
  }

  /** From zeroed memory the daemon starts its first update. */
  lemma AnUpdateStarts() returns (ss: seq<State>, es: seq<Event>)
    ensures IsRun(ss, es) && |es| == 3 && Good(ss[3]) && !es[0].Init? && !es[1].Init? && !es[2].Init?
    ensures ss[3].d.pc == Channel(0) && ss[3].holders == {Dcon} && ss[3].readings == Start(1, 0).readings
  {
    hide Good;
    hide Steps;
    hide Next;
    var e0, s0 := Clock(Time(0, 0, 0)), Start(1, 0);
    StartIsGood(1, 0);
    assert IsRun([s0], []);
    FirstClock();
    var s1 := RunExtends([s0], [], e0);
    FirstPoll();
    var s2 := RunExtends([s0] + [s1], [] + [e0], PollFlag);
    FreeLockIsTaken(s2);
    var s3 := RunExtends([s0] + [s1] + [s2], [] + [e0] + [PollFlag], DconLock);
    ss, es := [s0] + [s1] + [s2] + [s3], [] + [e0] + [PollFlag] + [DconLock];
  }

  /** Then a sensor post starts up and resets the semaphore, gets the lock beside the daemon, and stores a
      reading: a run that tears. */
  lemma AStartCanTearAnUpdate() returns (ss: seq<State>, es: seq<Event>)
    ensures IsRun(ss, es) && |es| == 6 && es[3].Init? && InitsFindTheLockFree(ss, es, 3)
    ensures !Exclusive(ss[5]) && Dcon in ss[5].holders && Scon(0) in ss[5].holders
    ensures FromOneSnapshot(ss[5]) && !FromOneSnapshot(ss[6])
  {
    hide Steps;
    hide Good;
    hide FromOneSnapshot;
    hide NextDcon;
    hide NextPcon;
    ss, es := AnUpdateStarts();
    var s3 := ss[3];
    StartIsFromOneSnapshot(ss, es);
    UpdatesComeFromOneSnapshot(ss, es, 3);
    var s4 := RunExtends(ss, es, Init);
    var s5 := RunExtends(ss + [s4], es + [Init], SconLock(0));
    var s6 := RunExtends(ss + [s4] + [s5], es + [Init] + [SconLock(0)], SconWrite(0, 0, 5));
    TornBySensorPost(s3, s4, s5, s6);
    ss, es := ss + [s4] + [s5] + [s6], es + [Init] + [SconLock(0)] + [SconWrite(0, 0, 5)];
  }

  lemma TornBySensorPost(s3: State, s4: State, s5: State, s6: State)
    requires Good(s3) && Good(s4) && Good(s5) && Updating(s3) && FromOneSnapshot(s3) && s3.holders == {Dcon}
    requires Next(Init, s3) == Some(s4) && Next(SconLock(0), s4) == Some(s5) && Next(SconWrite(0, 0, 5), s5) == Some(s6)
    requires s3.readings[0] == 0
    ensures !Exclusive(s5) && Dcon in s5.holders && Scon(0) in s5.holders
    ensures FromOneSnapshot(s5) && !FromOneSnapshot(s6)
  {
    hide FromOneSnapshot;
    StepKeepsSnapshotIff(Init, s3);
    StepKeepsSnapshotIff(SconLock(0), s4);
    StepKeepsSnapshotIff(SconWrite(0, 0, 5), s5);
    TwoHoldersBreakExclusion(s5, Dcon, Scon(0));
  }

  // ----- what the operator has asked for -----

  /** The configuration that a history of commits amounts to, from zeroed memory. */
  datatype Config = Config(modes: seq<int>, commanded: seq<int>, sch: Table)

  function SetAt(s: seq<int>, c: int, v: int): seq<int> {
    if 0 <= c < |s| then s[c := v] else s
  }

  function Follow(k: Commit, g: Config): Config {
    match k
    case Manual(c, on) => g.(modes := SetAt(g.modes, c, 0), commanded := SetAt(g.commanded, c, on))
    case Timed(c) => g.(modes := SetAt(g.modes, c, 1))
    case Sensed(c) => g.(modes := SetAt(g.modes, c, 2))
    case Install(t) => g.(sch := t)
  }

  function ConfigOf(log: seq<Commit>): Config {
    if log == [] then
      Config(seq(NUMBER_OF_CHANNELS, _ => 0), seq(NUMBER_OF_CHANNELS, _ => 0), ZeroSys().sch)
    else Follow(log[|log| - 1], ConfigOf(log[..|log| - 1]))
  }

  /** Shared memory carries this configuration; a manual channel has its last commanded state. */
  ghost predicate Carries(rs: seq<Relay>, sch: Table, g: Config) {
    && |rs| == |g.modes| == |g.commanded| == NUMBER_OF_CHANNELS && sch == g.sch
    && forall c :: 0 <= c < NUMBER_OF_CHANNELS ==>
         rs[c].mode == g.modes[c] && (rs[c].mode == 0 ==> rs[c].state == g.commanded[c])
  }

  /** The writes the operator program still has to do under the lock. */
  function Todo(s: State): seq<Write> {
    if s.ppc.Writing? then s.ppc.todo else []
  }

  /** Once its pending writes are done, shared memory carries what the commits ask for. */
  ghost predicate Faithful(s: State) {
    WillCarry(Todo(s), s.sys, s.log)
  }

  ghost predicate WillCarry(ws: seq<Write>, y: Sys, log: seq<Commit>) {
    Carries(Relays(ApplyAll(ws, y).chans), ApplyAll(ws, y).sch, ConfigOf(log + Commits(ws)))
  }

  lemma ConfigOfMore(log: seq<Commit>, k: Commit)
    ensures ConfigOf(log + [k]) == Follow(k, ConfigOf(log))
  {
    assert (log + [k])[..|log|] == log;
  }

  /** What a locking routine does to shared memory is what its commit does to the configuration. */
  lemma RoutineFollowsCommit(a: nat, tok: Tok, m: Mach, g: Config)
    requires Inv(m) && NeedsLock(a) && Guard(a, tok, m) && Carries(Relays(m.sys.chans), m.sys.sch, g)
    ensures var ws := Critical(a, tok, m.cb);
            var y := Act(a, tok, m).m.sys;
            Act(a, tok, m).Done? &&
            Carries(Relays(y.chans), y.sch,
                    if ws != [] && ws[|ws| - 1].WForce? then Follow(ws[|ws| - 1].commit, g) else g)
  {
    Routines(a, tok, m);
  }

  lemma LockKeepsFaithful(s: State)
    requires Good(s) && Faithful(s) && NextPconLock(s).Some?
    ensures Faithful(NextPconLock(s).value)
  {
    var tok, m := s.ppc.tok, AsMach(s);
    var a := ActionOfToken(s);
    var ws := Critical(a, tok, s.cb);
    assert s.log + Commits([]) == s.log;
    CriticalIsOk(a, tok, m);
    CommitsOfTodo(ws);
    CriticalSectionIsTheRoutine(a, tok, m);
    RoutineFollowsCommit(a, tok, m, ConfigOf(s.log));
    if ws != [] && ws[|ws| - 1].WForce? {
      ConfigOfMore(s.log, ws[|ws| - 1].commit);
    } else {
      assert s.log + [] == s.log;
    }
  }

  /** The routine that the token in hand dispatches to. */
  function ActionOfToken(s: State): (a: nat)
    requires Good(s) && s.ppc.Locking?
    ensures NeedsLock(a) && Guard(a, s.ppc.tok, AsMach(s))
  {
    CmdTables.ActionOf(s.ppc.tok.index, s.cb.state)
  }

  lemma WriteMovesOn(ws: seq<Write>, y: Sys, log: seq<Commit>)
    requires ws != [] && WillCarry(ws, y, log)
    ensures WillCarry(ws[1..], Apply(ws[0], y), log + Commits(ws[..1]))
  {
    CommitsTail(ws);
    assert log + Commits(ws) == (log + Commits(ws[..1])) + Commits(ws[1..]);
  }

  lemma WriteKeepsFaithful(s: State)
    requires Good(s) && Faithful(s) && NextPconWrite(s).Some?
    ensures Faithful(NextPconWrite(s).value)
  {
    WriteMovesOn(s.ppc.todo, s.sys, s.log);
  }

  lemma PconKeepsFaithful(e: Event, s: State)
    requires Good(s) && Faithful(s) && PconEvent(e) && NextPcon(e, s).Some?
    ensures Faithful(NextPcon(e, s).value)
  {
    match e {
      case Token(tok) =>
        TokenIsLocal(tok, s);
        TokenKeepsGood(tok, s);
      case PconLock => LockKeepsFaithful(s);
      case PconWrite => WriteKeepsFaithful(s);
      case _ =>
    }
  }

  lemma ChannelKeepsFaithful(s: State, stale: int)
    requires Good(s) && Faithful(s) && s.d.pc.Channel? && !s.ppc.Writing?
    ensures Faithful(NextChannel(s.d.pc.c, stale, s))
  {
    var c := s.d.pc.c;
    var n := NextChannel(c, stale, s);
    var ch := s.sys.chans[c];
    RelaysUpdate(s.sys.chans, c, n.sys.chans[c].state);
    assert Relays(s.sys.chans)[c] == Relay(ch.mode, ch.state, ch.sensorId);
  }

  lemma DconKeepsFaithful(e: Event, s: State)
    requires Good(s) && HoldersOk(s) && Exclusive(s) && Faithful(s) && NextDcon(e, s).Some?
    ensures Faithful(NextDcon(e, s).value)
  {
    hide Good;
    hide WillCarry;
    match e {
      case DoChannel(stale) =>
        UpdatingAlone(s);
        ChannelKeepsFaithful(s, stale);
      case ClearFlag =>
        if s.ppc.Writing? {
          TwoHoldersBreakExclusion(s, Dcon, Pcon);
        }
        ClearingKeepsCarrying(s.sys, s.log);
      case _ =>
    }
  }

  lemma ClearingKeepsCarrying(y: Sys, log: seq<Commit>)
    requires WillCarry([], y, log)
    ensures WillCarry([], y.(force := 0), log)
  {
  }

  lemma StepKeepsFaithful(e: Event, s: State)
    requires Good(s) && HoldersOk(s) && Exclusive(s) && Faithful(s) && Next(e, s).Some?
    ensures Faithful(Next(e, s).value)
  {
    if e.Init? {
    } else if PconEvent(e) {
      PconKeepsFaithful(e, s);
    } else if !SconEvent(e) {
      DconKeepsFaithful(e, s);
    }
  }

  lemma {:induction false} MemoryCarriesTheCommits(ss: seq<State>, es: seq<Event>, n: nat)
    requires IsRun(ss, es) && n <= |es| && InitsFindTheLockFree(ss, es, n)
    ensures Faithful(ss[n])
  {
    hide Next;
    if n > 0 {
      MemoryCarriesTheCommits(ss, es, n - 1);
      ExclusiveUpTo(ss, es, n - 1);
      assert Steps(ss[n - 1], es[n - 1], ss[n - 1 + 1]);
      StepKeepsFaithful(es[n - 1], ss[n - 1]);
    } else {
      assert ss[0].log + Commits([]) == [];
    }
  }

  // ----- end to end -----

  /** What an update at time `t` owes channel `c` under the operator's configuration, if the controller
      decides `sensed` for it. */
  predicate Owed(g: Config, t: Time, sensed: int, c: int, state: int)
    requires |g.modes| == |g.commanded| == NUMBER_OF_CHANNELS && |g.sch| == TABLE_SIZE && IsChannel(c) && TimeOk(t)
  {
    if g.modes[c] == 0 then state == g.commanded[c]
    else if g.modes[c] == 1 then state == DayState(g.sch[Cell(t.wday, c)], t.hour * 60 + t.minute)
    else state == sensed
  }

  /** The controller's decision for channel `c` in the last update: off without records, else from the
      target, the channel's reading and the last reading before it. */
  ghost function SensedIn(s: State, c: int): int {
    if SnapshotOk(s.d.snap) && IsChannel(c) && c < |s.d.stale| then SensedState(c, s.d.snap, s.d.stale[c]) else 0
  }

  /** What the operator asked for is what the channels are, as of time `t`. */
  ghost predicate Delivered(s: State, g: Config, t: Time) {
    && |g.modes| == |g.commanded| == |s.sys.chans| == NUMBER_OF_CHANNELS && |g.sch| == TABLE_SIZE && TimeOk(t)
    && forall c :: 0 <= c < NUMBER_OF_CHANNELS ==> Owed(g, t, SensedIn(s, c), c, s.sys.chans[c].state)
  }

  /** Every pin shows its channel, the one that channels 0 and 12 share shows 12. */
  ghost predicate PinsFollow(s: State) {
    |s.sys.chans| == NUMBER_OF_CHANNELS && PinsShow(s.d.pins, Relays(s.sys.chans))
  }

  lemma PinsAreWritten(s: State)
    requires |s.sys.chans| == NUMBER_OF_CHANNELS
    requires s.d.pins == WritePins(NUMBER_OF_CHANNELS, Relays(s.sys.chans), s.d.pins0)
    ensures PinsFollow(s)
  {
    WrittenPinsShow(Relays(s.sys.chans), s.d.pins0);
  }

  lemma SettledIsOwed(r: Relay, p: Snapshot, c: int, x: int, g: Config)
    requires SnapshotOk(p) && IsChannel(c) && Settled(r, p, c, x) && p.sch == g.sch && 0 <= r.mode <= 2
    requires |g.modes| == |g.commanded| == NUMBER_OF_CHANNELS && |g.sch| == TABLE_SIZE
    requires r.mode == g.modes[c] && (r.mode == 0 ==> r.state == g.commanded[c])
    ensures Owed(g, p.t, SensedState(c, p, x), c, r.state)
  {
    hide SensedState;
    hide DayState;
  }

  lemma FaithfulUpdate(s: State)
    requires Good(s) && HoldersOk(s) && Exclusive(s) && FromOneSnapshot(s) && Faithful(s) && s.d.pc.UpdateFree?
    ensures Delivered(s, ConfigOf(s.log), s.d.t)
    ensures s.d.snap.t == s.d.t && s.d.snap.sch == ConfigOf(s.log).sch && s.d.snap.readings == s.readings
  {
    UpdatingAlone(s);
    assert s.log + Commits([]) == s.log;
    hide Settled;
    hide Owed;
    hide SensedState;
    var g, rs := ConfigOf(s.log), Relays(s.sys.chans);
    forall c | 0 <= c < NUMBER_OF_CHANNELS
      ensures Owed(g, s.d.t, SensedIn(s, c), c, s.sys.chans[c].state)
    {
      assert ChanOk(s.sys.chans[c]) && Settled(rs[c], s.d.snap, c, s.d.stale[c]);
      SettledIsOwed(rs[c], s.d.snap, c, s.d.stale[c], g);
    }
  }

  /** In every interleaving, each completed relay update leaves every timed channel with the step-function
      state of the installed schedule for that weekday and minute, every manual channel with its last
      commanded state, every sensed channel with what the controller decides from the installed schedule
      and the current readings, and pin levels that follow the channels (the pin that channels 0 and 12
      share follows 12). */
  lemma UpdatesDeliverWhatTheOperatorAskedFor(ss: seq<State>, es: seq<Event>, n: nat)
    requires IsRun(ss, es) && n <= |es| && InitsFindTheLockFree(ss, es, n) && ss[n].d.pc.UpdateFree?
    ensures Good(ss[n])
    ensures Delivered(ss[n], ConfigOf(ss[n].log), ss[n].d.t)
    ensures ss[n].d.snap.t == ss[n].d.t && ss[n].d.snap.sch == ConfigOf(ss[n].log).sch
         && ss[n].d.snap.readings == ss[n].readings
    ensures PinsFollow(ss[n])
  {
    RunsAreGood(ss, es, n);
    ExclusiveUpTo(ss, es, n);
    UpdatesComeFromOneSnapshot(ss, es, n);
    MemoryCarriesTheCommits(ss, es, n);
    FaithfulUpdate(ss[n]);
    PinsAreWritten(ss[n]);
  }
}
