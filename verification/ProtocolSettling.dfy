/** With the operator quiet, two loop passes of the daemon settle everything, and the daemon gets there. */
module ProtocolSettling {
  import opened CmdTables
  import opened Daemon
  import opened Protocol
  import opened ProtocolRuns
  import opened ProtocolSteps
  import opened SharedData

  // ----- between updates -----

  /** When every commit has been seen and none is pending, shared memory still is what the last update
      made of its snapshot. */
  ghost predicate AsUpdated(s: State) {
    s.d.seen == |s.log| && s.log != [] && Commits(Todo(s)) == [] && !Updating(s) ==>
      && SnapshotOk(s.d.snap) && |s.d.stale| == NUMBER_OF_CHANNELS && s.sys.sch == s.d.snap.sch
      && Relays(s.sys.chans) == DoChannels(NUMBER_OF_CHANNELS, s.d.snap, s.d.stale).0
      && s.d.pins == WritePins(NUMBER_OF_CHANNELS, Relays(s.sys.chans), s.d.pins0)
  }

  lemma NamesKeepRelays(w: Write, y: Sys)
    requires w.WName? || w.WReading?
    ensures Relays(Apply(w, y).chans) == Relays(y.chans) && Apply(w, y).sch == y.sch
  {
  }

  lemma WriteKeepsAsUpdated(s: State)
    requires Good(s) && AsUpdated(s) && NextPconWrite(s).Some?
    ensures AsUpdated(NextPconWrite(s).value)
  {
    hide WritePins;
    hide DoChannels;
    hide SnapshotOk;
    hide Relays;
    var ws := s.ppc.todo;
    CommitsTail(ws);
    CommitsOfTodo(ws);
    assert ws[..1] == [ws[0]] && [ws[0]][1..] == [];
    if ws[0].WName? || ws[0].WReading? {
      NamesKeepRelays(ws[0], s.sys);
    } else {
      CommitsOfTodo(ws[1..]);
    }
  }

  lemma PconKeepsAsUpdated(e: Event, s: State)
    requires Good(s) && AsUpdated(s) && PconEvent(e) && NextPcon(e, s).Some?
    ensures AsUpdated(NextPcon(e, s).value)
  {
    match e {
      case Token(tok) =>
        TokenIsLocal(tok, s);
        TokenKeepsGood(tok, s);
      case Escape =>
      case PconLock =>
      case PconWrite => WriteKeepsAsUpdated(s);
      case PconFree =>
    }
  }

  lemma DconKeepsAsUpdated(e: Event, s: State)
    requires Good(s) && AsUpdated(s) && FromOneSnapshot(s) && NextDcon(e, s).Some?
    ensures AsUpdated(NextDcon(e, s).value)
  {
    hide SnapshotOk;
    hide DoChannels;
    hide Relays;
    hide Commits;
    match e {
      case DconLock => assert s.d.pc.UpdateLock? ==> Updating(NextDconLock(s).value);
      case DoChannel(stale) => assert Updating(NextChannel(s.d.pc.c, stale, s));
      case DoPin => assert Updating(NextPin(s.d.pc.c, s));
      case Clock(_) =>
      case PollFlag =>
      case ClearFlag =>
      case DconFree =>
    }
  }

  lemma StepKeepsAsUpdated(e: Event, s: State)
    requires Good(s) && AsUpdated(s) && FromOneSnapshot(s) && Next(e, s).Some?
    ensures AsUpdated(Next(e, s).value)
  {
    if e.Init? {
    } else if PconEvent(e) {
      PconKeepsAsUpdated(e, s);
    } else if !SconEvent(e) {
      DconKeepsAsUpdated(e, s);
    }
  }

  lemma {:induction false} MemoryStaysAsUpdated(ss: seq<State>, es: seq<Event>, n: nat)
    requires IsRun(ss, es) && n <= |es| && InitsFindTheLockFree(ss, es, n)
    ensures AsUpdated(ss[n])
  {
    hide Next;
    if n > 0 {
      MemoryStaysAsUpdated(ss, es, n - 1);
      UpdatesComeFromOneSnapshot(ss, es, n - 1);
      assert Steps(ss[n - 1], es[n - 1], ss[n - 1 + 1]);
      StepKeepsAsUpdated(es[n - 1], ss[n - 1]);
    }
  }

  // ----- two passes -----

  /** From state `i` on the operator program does nothing; `s` is a later state. */
  ghost predicate Settling(s0: State, s: State) {
    && s.log == s0.log && s.ppc == s0.ppc && s.d.passes >= s0.d.passes
    && (s.sys.force == 0
        || s.d.passes == s0.d.passes
        || (s.d.passes == s0.d.passes + 1 && (s.d.pc.Top? || s.d.pc.Poll? || s.d.pc.ClearLock? || s.d.pc.Clear?)))
  }

  lemma StepKeepsSettling(s0: State, e: Event, s: State)
    requires Good(s) && Settling(s0, s) && !PconEvent(e) && Next(e, s).Some?
    ensures Settling(s0, Next(e, s).value)
  {
    assert s.sys.force == 0 || s.sys.force == 1;
  }

  lemma {:induction false} QuietRunsSettle(ss: seq<State>, es: seq<Event>, i: nat, j: nat)
    requires IsRun(ss, es) && i <= j <= |es| && forall k :: i <= k < j ==> !PconEvent(es[k])
    ensures Settling(ss[i], ss[j])
    decreases j
  {
    hide Next;
    if i < j {
      QuietRunsSettle(ss, es, i, j - 1);
      assert Steps(ss[j - 1], es[j - 1], ss[j - 1 + 1]);
      StepKeepsSettling(ss[i], es[j - 1], ss[j - 1]);
    }
  }

  /** The time the states are right for: that of the last update, once there has been a request. */
  function UpdateTime(s: State): Time {
    if s.log == [] then s.d.t else s.d.snap.t
  }

  lemma SettledStates(s: State)
    requires Good(s) && Faithful(s) && AsUpdated(s) && !s.ppc.Writing? && s.d.seen == |s.log| && s.d.pc.Top?
    ensures Delivered(s, ConfigOf(s.log), UpdateTime(s)) && (s.log != [] ==> PinsFollow(s))
  {
    hide PinsFollow;
    assert s.log + Commits([]) == s.log;
    if s.log != [] {
      PinsAreWritten(s);
    }
    hide WritePins;
    hide Settled;
    hide SensedState;
    var rs := Relays(s.sys.chans);
    forall c | 0 <= c < NUMBER_OF_CHANNELS
      ensures Owed(ConfigOf(s.log), UpdateTime(s), SensedIn(s, c), c, s.sys.chans[c].state)
    {
      assert ChanOk(s.sys.chans[c]) && rs[c].state == s.sys.chans[c].state;
      if s.log != [] {
        assert Settled(rs[c], s.d.snap, c, s.d.stale[c]);
        SettledIsOwed(rs[c], s.d.snap, c, s.d.stale[c], ConfigOf(s.log));
      }
    }
  }

  /** Once the operator is quiet, after at most two further loop passes the flag is down, every request
      has been seen by an update, and the states are what the configuration asks for. */
  lemma TwoPassesSettleEverything(ss: seq<State>, es: seq<Event>, i: nat, j: nat)
    requires IsRun(ss, es) && i <= j <= |es| && InitsFindTheLockFree(ss, es, j)
    requires !ss[i].ppc.Writing? && forall k :: i <= k < j ==> !PconEvent(es[k])
    requires ss[j].d.pc.Top? && ss[j].d.passes >= ss[i].d.passes + 2
    ensures ss[j].sys.force == 0 && ss[j].d.seen == |ss[j].log| && ss[j].log == ss[i].log
    ensures Good(ss[j]) && Delivered(ss[j], ConfigOf(ss[i].log), UpdateTime(ss[j]))
    ensures ss[j].log != [] ==> PinsFollow(ss[j])
  {
    QuietRunsSettle(ss, es, i, j);
    RunsAreGood(ss, es, j);
    NoRequestIsLost(ss, es, j);
    MemoryCarriesTheCommits(ss, es, j);
    MemoryStaysAsUpdated(ss, es, j);
    SettledStates(ss[j]);
  }

  // ----- progress -----

  predicate DconEvent(e: Event) {
    !e.Init? && !PconEvent(e) && !SconEvent(e)
  }

  /** Steps the daemon has left in its pass, at most. */
  function Remaining(pc: DconPc): int {
    match pc
    case Top => 40
    case Poll => 39
    case ClearLock => 38
    case Clear => 37
    case ClearFree => 36
    case UpdateLock(_) => 35
    case Channel(c) => 34 - c
    case Pin(c) => 18 - c
    case UpdateFree => 1
  }

  /** Progress of the daemon over all its passes. */
  function Progress(s: State): int {
    41 * s.d.passes - Remaining(s.d.pc)
  }

  lemma DconStepsProgress(e: Event, s: State)
    requires Good(s) && NextDcon(e, s).Some?
    ensures Progress(NextDcon(e, s).value) > Progress(s)
  {
  }

  lemma StepsProgress(e: Event, s: State)
    requires Good(s) && DconEvent(e) && Next(e, s).Some?
    ensures Progress(Next(e, s).value) > Progress(s)
  {
    DconStepsProgress(e, s);
  }

  /** With nobody else in the lock the daemon can always go on. */
  lemma DaemonCanGoOn(s: State, t: Time, stale: int) returns (e: Event)
    requires Good(s) && HoldersOk(s) && Exclusive(s) && s.holders <= {Dcon} && TimeOk(t)
    ensures DconEvent(e) && Next(e, s).Some? && Next(e, s).value.holders <= {Dcon}
  {
    assert s.d.pc.ClearLock? || s.d.pc.UpdateLock? ==> s.holders == {};
    match s.d.pc
    case Top => e := Clock(t);
    case Poll => e := PollFlag;
    case ClearLock => e := DconLock;
    case Clear => e := ClearFlag;
    case ClearFree => e := DconFree;
    case UpdateLock(_) => e := DconLock;
    case Channel(_) => e := Event.DoChannel(stale);
    case Pin(_) => e := DoPin;
    case UpdateFree => e := DconFree;
  }

  lemma {:induction false} DaemonStepsAddUp(ss: seq<State>, es: seq<Event>, i: nat, j: nat)
    requires IsRun(ss, es) && i <= j <= |es| && forall k :: i <= k < j ==> DconEvent(es[k])
    ensures Progress(ss[j]) >= Progress(ss[i]) + (j - i)
    decreases j
  {
    hide Next;
    if i < j {
      DaemonStepsAddUp(ss, es, i, j - 1);
      assert Steps(ss[j - 1], es[j - 1], ss[j - 1 + 1]);
      StepsProgress(es[j - 1], ss[j - 1]);
    }
  }

  /** Left alone, the daemon finishes two passes within 81 of its steps, and can always take the next. */
  lemma EightyOneStepsMakeTwoPasses(ss: seq<State>, es: seq<Event>, i: nat, j: nat)
    requires IsRun(ss, es) && i <= j <= |es| && j - i >= 81 && forall k :: i <= k < j ==> DconEvent(es[k])
    ensures ss[j].d.passes >= ss[i].d.passes + 2
  {
    DaemonStepsAddUp(ss, es, i, j);
    RunsAreGood(ss, es, i);
    RunsAreGood(ss, es, j);
    assert 0 < Remaining(ss[j].d.pc) && Remaining(ss[i].d.pc) <= 40;
    assert 41 * (ss[j].d.passes - ss[i].d.passes) >= 42;
  }

  // ----- settling is always within reach -----

  ghost predicate RunExtended(ss: seq<State>, es: seq<Event>, tt: seq<State>, fs: seq<Event>) {
    |ss| == |es| + 1 && |tt| == |fs| + 1 && ss <= tt && es <= fs
  }

  /** A run and a longer one that only the daemon's steps have been added to. */
  ghost predicate DaemonExtends(ss: seq<State>, es: seq<Event>, tt: seq<State>, fs: seq<Event>) {
    RunExtended(ss, es, tt, fs) && forall k :: |es| <= k < |fs| ==> DconEvent(fs[k])
  }

  predicate WritingEvent(e: Event) {
    e.PconWrite? || e.PconFree?
  }

  /** Steps by which another program finishes what it does under the lock. */
  predicate FinishingEvent(e: Event) {
    WritingEvent(e) || e.SconFree?
  }

  /** The critical section that `s` is in has been done, and nothing else by the operator program. */
  predicate Finished(s: State, n: State)
    requires s.ppc.Writing?
  {
    n.ppc == Ready && n.sys == ApplyAll(s.ppc.todo, s.sys) && s.ppc.tok.index < CMD_TOKENS && s.cb.state < CMD_STATES &&
    n.cb == s.cb.(state := NewState(s.ppc.tok.index, s.cb.state))
  }

  /** The operator program writes what it still has to write, and frees the lock. */
  lemma {:induction false} WritingFinishes(ss: seq<State>, es: seq<Event>) returns (tt: seq<State>, fs: seq<Event>)
    requires IsRun(ss, es) && InitsFindTheLockFree(ss, es, |es|) && ss[|es|].ppc.Writing?
    ensures IsRun(tt, fs) && InitsFindTheLockFree(tt, fs, |fs|) && RunExtended(ss, es, tt, fs)
    ensures forall k :: |es| <= k < |fs| ==> WritingEvent(fs[k])
    ensures |fs| == |es| + |ss[|es|].ppc.todo| + 1
    ensures tt[|fs|].holders == {} && tt[|fs|].log == ss[|es|].log + Commits(ss[|es|].ppc.todo)
    ensures Finished(ss[|es|], tt[|fs|])
    decreases |ss[|es|].ppc.todo|
  {
    hide Steps;
    hide InitsFindTheLockFree;
    var todo := ss[|es|].ppc.todo;
    var s, e := WriterTakesAStep(ss, es);
    if todo == [] {
      tt, fs := ss + [s], es + [e];
      assert Commits(todo) == [] && ss[|es|].log + [] == ss[|es|].log;
    } else {
      CommitsTail(todo);
      hide Commits;
      assert (ss + [s])[|es + [e]|] == s;
      tt, fs := WritingFinishes(ss + [s], es + [e]);
      LongerStill(ss, es, s, e, tt, fs);
    }
  }

  lemma LongerStill(ss: seq<State>, es: seq<Event>, s: State, e: Event, tt: seq<State>, fs: seq<Event>)
    requires |ss| == |es| + 1 && RunExtended(ss + [s], es + [e], tt, fs)
    ensures RunExtended(ss, es, tt, fs) && fs[|es|] == e
  {
    assert fs[|es|] == (es + [e])[|es|];
  }

  lemma WriterTakesAStep(ss: seq<State>, es: seq<Event>) returns (s: State, e: Event)
    requires IsRun(ss, es) && InitsFindTheLockFree(ss, es, |es|) && ss[|es|].ppc.Writing?
    ensures WritingEvent(e) && IsRun(ss + [s], es + [e]) && InitsFindTheLockFree(ss + [s], es + [e], |es| + 1)
    ensures var todo := ss[|es|].ppc.todo;
            if todo == [] then s.holders == {} && s.log == ss[|es|].log && Finished(ss[|es|], s)
            else s.ppc == ss[|es|].ppc.(todo := todo[1..]) && s.cb == ss[|es|].cb &&
                 s.sys == Apply(todo[0], ss[|es|].sys) && s.log == ss[|es|].log + Commits(todo[..1])
  {
    hide Steps;
    hide InitsFindTheLockFree;
    hide Next;
    var last := ss[|es|];
    RunsAreGood(ss, es, |es|);
    ExclusiveUpTo(ss, es, |es|);
    e := if last.ppc.todo == [] then PconFree else PconWrite;
    WriterCanGoOn(last);
    s := RunExtends(ss, es, e);
    InitsStayFine(ss, es, s, e);
  }

  lemma WriterCanGoOn(s: State)
    requires Good(s) && HoldersOk(s) && Exclusive(s) && s.ppc.Writing?
    ensures s.ppc.todo == [] ==>
              var n := Next(PconFree, s);
              n.Some? && n.value.holders == {} && n.value.log == s.log && Finished(s, n.value)
    ensures s.ppc.todo != [] ==>
              var n := Next(PconWrite, s);
              n.Some? && n.value.ppc == s.ppc.(todo := s.ppc.todo[1..]) && n.value.cb == s.cb &&
              n.value.sys == Apply(s.ppc.todo[0], s.sys) && n.value.log == s.log + Commits(s.ppc.todo[..1])
  {
    forall p | p in s.holders
      ensures p == Pcon
    {
      if p != Pcon {
        TwoHoldersBreakExclusion(s, p, Pcon);
      }
    }
    hide Good;
    hide Apply;
    assert s.holders == {Pcon};
  }

  /** Whoever but the daemon holds the lock finishes and frees it. */
  lemma OthersFinish(ss: seq<State>, es: seq<Event>) returns (tt: seq<State>, fs: seq<Event>)
    requires IsRun(ss, es) && InitsFindTheLockFree(ss, es, |es|)
    ensures IsRun(tt, fs) && InitsFindTheLockFree(tt, fs, |fs|) && RunExtended(ss, es, tt, fs)
    ensures forall k :: |es| <= k < |fs| ==> FinishingEvent(fs[k])
    ensures |fs| <= |es| + |Todo(ss[|es|])| + 1
    ensures tt[|fs|].holders <= {Dcon} && tt[|fs|].log == ss[|es|].log + Commits(Todo(ss[|es|]))
  {
    hide Steps;
    hide InitsFindTheLockFree;
    var last := ss[|es|];
    RunsAreGood(ss, es, |es|);
    ExclusiveUpTo(ss, es, |es|);
    if last.ppc.Writing? {
      tt, fs := WritingFinishes(ss, es);
    } else if last.holders <= {Dcon} {
      tt, fs := ss, es;
      assert last.log + [] == last.log;
    } else {
      var p :| p in last.holders && p != Dcon;
      PostCanFinish(last, p.n);
      var s := RunExtends(ss, es, SconFree(p.n));
      InitsStayFine(ss, es, s, SconFree(p.n));
      tt, fs := ss + [s], es + [SconFree(p.n)];
      assert last.log + [] == last.log;
    }
  }

  lemma PostCanFinish(s: State, n: nat)
    requires Good(s) && HoldersOk(s) && Exclusive(s) && Scon(n) in s.holders
    ensures Next(SconFree(n), s).Some? && Next(SconFree(n), s).value.holders == {}
    ensures Next(SconFree(n), s).value.log == s.log
  {
    forall p | p in s.holders
      ensures p == Scon(n)
    {
      if p != Scon(n) {
        TwoHoldersBreakExclusion(s, p, Scon(n));
      }
    }
    hide Good;
    assert s.holders == {Scon(n)};
  }

  /** The daemon's last step of a pass brings it back to the top. */
  lemma PassesEndAtTheTop(e: Event, s: State)
    requires Good(s) && DconEvent(e) && Next(e, s).Some?
    ensures var d := Next(e, s).value.d;
            d.passes == s.d.passes || (d.passes == s.d.passes + 1 && d.pc.Top?)
  {
  }

  lemma InitsStayFine(ss: seq<State>, es: seq<Event>, s: State, e: Event)
    requires IsRun(ss, es) && InitsFindTheLockFree(ss, es, |es|) && !e.Init?
    ensures InitsFindTheLockFree(ss + [s], es + [e], |es| + 1)
  {
  }

  lemma DaemonTakesAStep(ss: seq<State>, es: seq<Event>, t: Time, stale: int) returns (s: State, e: Event)
    requires IsRun(ss, es) && InitsFindTheLockFree(ss, es, |es|) && ss[|es|].holders <= {Dcon} && TimeOk(t)
    ensures DconEvent(e) && IsRun(ss + [s], es + [e]) && InitsFindTheLockFree(ss + [s], es + [e], |es| + 1)
    ensures s.holders <= {Dcon} && Progress(s) > Progress(ss[|es|])
    ensures s.d.passes == ss[|es|].d.passes || (s.d.passes == ss[|es|].d.passes + 1 && s.d.pc.Top?)
  {
    hide Next;
    hide Progress;
    var last := ss[|es|];
    RunsAreGood(ss, es, |es|);
    ExclusiveUpTo(ss, es, |es|);
    e := DaemonCanGoOn(last, t, stale);
    s := RunExtends(ss, es, e);
    StepsProgress(e, last);
    PassesEndAtTheTop(e, last);
    InitsStayFine(ss, es, s, e);
  }

  lemma {:induction false} DaemonFinishesPasses(ss: seq<State>, es: seq<Event>, p: nat, t: Time, stale: int)
    returns (tt: seq<State>, fs: seq<Event>)
    requires IsRun(ss, es) && InitsFindTheLockFree(ss, es, |es|) && ss[|es|].holders <= {Dcon} && TimeOk(t)
    requires ss[|es|].d.passes <= p && (ss[|es|].d.passes == p ==> ss[|es|].d.pc.Top?)
    ensures IsRun(tt, fs) && InitsFindTheLockFree(tt, fs, |fs|) && DaemonExtends(ss, es, tt, fs)
    ensures tt[|fs|].d.passes == p && tt[|fs|].d.pc.Top?
    decreases 41 * p - Progress(ss[|es|])
  {
    hide Steps;
    hide InitsFindTheLockFree;
    if ss[|es|].d.passes == p {
      tt, fs := ss, es;
    } else {
      var s, e := DaemonTakesAStep(ss, es, t, stale);
      assert (ss + [s])[|es + [e]|] == s;
      RunsAreGood(ss, es, |es|);
      assert Remaining(ss[|es|].d.pc) > 0;
      tt, fs := DaemonFinishesPasses(ss + [s], es + [e], p, t, stale);
      assert DaemonExtends(ss, es, tt, fs);
    }
  }

  lemma DaemonCanSettle(ss: seq<State>, es: seq<Event>, t: Time, stale: int) returns (tt: seq<State>, fs: seq<Event>)
    requires IsRun(ss, es) && InitsFindTheLockFree(ss, es, |es|) && ss[|es|].holders <= {Dcon} && TimeOk(t)
    ensures IsRun(tt, fs) && DaemonExtends(ss, es, tt, fs) && |fs| <= |es| + 82
    ensures var s := tt[|fs|];
            s.sys.force == 0 && s.d.seen == |s.log| && s.log == ss[|es|].log &&
            Delivered(s, ConfigOf(s.log), UpdateTime(s)) && (s.log != [] ==> PinsFollow(s))
  {
    hide Steps;
    hide Delivered;
    hide PinsFollow;
    hide Good;
    hide Exclusive;
    var i := |es|;
    tt, fs := DaemonFinishesPasses(ss, es, ss[i].d.passes + 2, t, stale);
    assert tt[i] == ss[i];
    ExclusiveUpTo(ss, es, i);
    assert !ss[i].ppc.Writing?;
    TwoPassesSettleEverything(tt, fs, i, |fs|);
    DaemonStepsAddUp(tt, fs, i, |fs|);
    RunsAreGood(ss, es, i);
    PassHasFortySteps(ss[i]);
  }

  lemma PassHasFortySteps(s: State)
    requires Good(s)
    ensures 0 < Remaining(s.d.pc) <= 40
  {
  }

  /** From every reachable state there is a way on after which the flag is down, every request seen, the one
      in progress included, and all states are what the operator asked for: whoever is in the lock finishes,
      and at most 82 steps of the daemon follow. */
  lemma EveryStateCanSettle(ss: seq<State>, es: seq<Event>, t: Time, stale: int)
    returns (tt: seq<State>, fs: seq<Event>)
    requires IsRun(ss, es) && InitsFindTheLockFree(ss, es, |es|) && TimeOk(t)
    ensures IsRun(tt, fs) && RunExtended(ss, es, tt, fs) && |fs| <= |es| + |Todo(ss[|es|])| + 83
    ensures forall k :: |es| <= k < |fs| ==> FinishingEvent(fs[k]) || DconEvent(fs[k])
    ensures var s := tt[|fs|];
            s.sys.force == 0 && s.d.seen == |s.log| && s.log == ss[|es|].log + Commits(Todo(ss[|es|])) &&
            Delivered(s, ConfigOf(s.log), UpdateTime(s)) && (s.log != [] ==> PinsFollow(s))
  {
    hide Steps;
    hide InitsFindTheLockFree;
    hide Delivered;
    var uu, gs := OthersFinish(ss, es);
    tt, fs := DaemonCanSettle(uu, gs, t, stale);
    forall k | |es| <= k < |fs|
      ensures FinishingEvent(fs[k]) || DconEvent(fs[k])
    {
      if k < |gs| {
        assert fs[k] == gs[k];
      }
    }
  }
}
