/** What every single step of the three programs keeps. */
module ProtocolSteps {
  import opened CmdTables
  import opened CmdSpec
  import opened CmdRuns
  import opened Daemon
  import opened Protocol
  import opened SharedData
  import opened Tokens

  // ----- well-formedness -----

  lemma GuardIgnoresSharedData(a: nat, tok: Tok, m: Mach, y: Sys)
    requires NeedsLock(a)
    ensures Guard(a, tok, m) <==> Guard(a, tok, m.(sys := y))
  {
  }

  lemma LockedTokenStable(tok: Tok, m: Mach, y: Sys)
    requires LockedToken(tok, m)
    ensures LockedToken(tok, m.(sys := y))
  {
    GuardIgnoresSharedData(ActionOf(tok.index, m.cb.state), tok, m, y);
  }

  /** Only shared data changed, and it is still well formed. */
  lemma GoodWithSys(s: State, y: Sys)
    requires Good(s) && SysOk(y)
    ensures Good(s.(sys := y))
  {
    if s.ppc.Locking? || s.ppc.Writing? {
      LockedTokenStable(s.ppc.tok, AsMach(s), y);
    }
  }

  lemma ApplyKeepsSysOk(w: Write, y: Sys)
    requires SysOk(y) && WriteOk(w) && (w.WTable? ==> TableOk(w.t))
    ensures SysOk(Apply(w, y))
  {
  }

  lemma CommitsTail(ws: seq<Write>)
    requires ws != []
    ensures Commits(ws) == Commits(ws[..1]) + Commits(ws[1..])
  {
    assert ws[..1][1..] == [];
  }

  lemma {:induction false} CommitsOfTodo(ws: seq<Write>)
    requires TodoOk(ws)
    ensures Commits(ws) == if ws != [] && ws[|ws| - 1].WForce? then [ws[|ws| - 1].commit] else []
    decreases |ws|
  {
    if ws != [] {
      CommitsOfTodo(ws[1..]);
    }
  }

  lemma CriticalIsOk(a: nat, tok: Tok, m: Mach)
    requires Inv(m) && NeedsLock(a) && Guard(a, tok, m)
    ensures TodoOk(Critical(a, tok, m.cb))
  {
  }

  /** A routine that takes no lock leaves alone everything the daemon reads, and the flag. */
  lemma UnlockedRoutinesTouchNothingTheDaemonReads(a: nat, tok: Tok, m: Mach)
    requires Inv(m) && !NeedsLock(a) && a != 19 && a != 18 && a != 49 && Guard(a, tok, m)
    ensures var o := Act(a, tok, m);
            o.Done? ==> Relays(o.m.sys.chans) == Relays(m.sys.chans) && o.m.sys.sch == m.sys.sch &&
                        o.m.sys.force == m.sys.force
  {
    Routines(a, tok, m);
    if a == 75 || a == 76 {
      HidingKeepsRelays(m.sys.chans, m.cb.channel, a == 75);
    }
  }

  lemma HidingKeepsRelays(cs: seq<Chan>, c: int, hidden: bool)
    requires 0 <= c < |cs|
    ensures Relays(cs[c := cs[c].(hidden := hidden)]) == Relays(cs)
  {
  }

  lemma TokenKeepsGood(tok: Tok, s: State)
    requires Good(s)
    ensures NextToken(tok, s).Some? ==>
              Good(NextToken(tok, s).value) &&
              Relays(NextToken(tok, s).value.sys.chans) == Relays(s.sys.chans) &&
              NextToken(tok, s).value.sys.sch == s.sys.sch && NextToken(tok, s).value.sys.force == s.sys.force
  {
    if s.ppc.Ready? && Admissible(tok, AsMach(s)) {
      var a, next := ActionOf(tok.index, s.cb.state), NewState(tok.index, s.cb.state);
      TablesRouteOk(tok.index, s.cb.state);
      TokenKeepsGoodBy(a, next, tok, s);
    }
  }

  lemma TokenKeepsGoodBy(a: nat, next: nat, tok: Tok, s: State)
    requires Good(s) && s.ppc.Ready? && Admissible(tok, AsMach(s))
    requires a == ActionOf(tok.index, s.cb.state) && next == NewState(tok.index, s.cb.state)
    requires RouteOk(a, next, s.cb.state)
    ensures NextToken(tok, s).Some? ==>
              Good(NextToken(tok, s).value) &&
              Relays(NextToken(tok, s).value.sys.chans) == Relays(s.sys.chans) &&
              NextToken(tok, s).value.sys.sch == s.sys.sch && NextToken(tok, s).value.sys.force == s.sys.force
  {
    if Shows(a) {
      assert Inv(AsMach(s).(cb := s.cb.(state := next)));
    } else if !NeedsLock(a) {
      StepKeepsInvIffGuarded(tok, AsMach(s));
      UnlockedRoutinesTouchNothingTheDaemonReads(a, tok, AsMach(s));
      assert Step(tok, AsMach(s)) == Fire(a, next, tok, AsMach(s));
    }
  }

  lemma PconFreeKeepsGood(s: State)
    requires Good(s) && NextPconFree(s).Some?
    ensures Good(NextPconFree(s).value)
  {
    var tok, m := s.ppc.tok, AsMach(s);
    var a, next := ActionOf(tok.index, s.cb.state), NewState(tok.index, s.cb.state);
    TablesRouteOk(tok.index, s.cb.state);
    FireKeepsInv(a, next, tok, m);
    CriticalSectionIsTheRoutine(a, tok, m);
  }

  lemma PconWriteKeepsGood(s: State)
    requires Good(s) && NextPconWrite(s).Some?
    ensures Good(NextPconWrite(s).value)
  {
    ApplyKeepsSysOk(s.ppc.todo[0], s.sys);
    GoodWithSys(s, Apply(s.ppc.todo[0], s.sys));
    TodoTail(s.ppc.todo);
    hide TodoOk;
    hide SysOk;
    hide Apply;
  }

  lemma TodoTail(ws: seq<Write>)
    requires TodoOk(ws) && ws != []
    ensures TodoOk(ws[1..])
  {
  }

  lemma PconKeepsGood(e: Event, s: State)
    requires Good(s) && PconEvent(e) && NextPcon(e, s).Some?
    ensures Good(NextPcon(e, s).value)
  {
    match e {
      case Token(tok) => TokenKeepsGood(tok, s);
      case Escape =>
      case PconLock => CriticalIsOk(ActionOf(s.ppc.tok.index, s.cb.state), s.ppc.tok, AsMach(s));
      case PconWrite => PconWriteKeepsGood(s);
      case PconFree => PconFreeKeepsGood(s);
    }
  }

  lemma ChannelStateStays(s: State, c: nat, stale: int)
    requires Good(s) && c < NUMBER_OF_CHANNELS
    ensures SysOk(NextChannel(c, stale, s).sys)
    ensures NextChannel(c, stale, s).sys.sch == s.sys.sch && NextChannel(c, stale, s).sys.force == s.sys.force
  {
    assert ChanOk(s.sys.chans[c]);
    DayStateIsBinary(s.sys.sch[Cell(s.d.t.wday, c)], MinuteOfDay(s.d.t));
  }

  lemma DconKeepsGood(e: Event, s: State)
    requires Good(s) && NextDcon(e, s).Some?
    ensures Good(NextDcon(e, s).value)
  {
    match e {
      case DoChannel(stale) =>
        var n := NextChannel(s.d.pc.c, stale, s);
        ChannelStateStays(s, s.d.pc.c, stale);
        GoodWithSys(s, n.sys);
        hide Inv;
        hide TodoOk;
        hide LockedToken;
        hide Daemon.DoChannel;
      case ClearFlag => GoodWithSys(s, s.sys.(force := 0));
      case Clock(_) =>
      case PollFlag =>
      case DconLock =>
      case DoPin =>
      case DconFree =>
    }
  }

  lemma NextKeepsGood(e: Event, s: State)
    requires Good(s) && Next(e, s).Some?
    ensures Good(Next(e, s).value)
  {
    if !e.Init? && PconEvent(e) {
      PconKeepsGood(e, s);
    } else if !e.Init? && !SconEvent(e) {
      DconKeepsGood(e, s);
    }
  }

  // ----- the semaphore -----

  /** The daemon is between taking the lock and freeing it. */
  predicate InLock(pc: DconPc) {
    pc.Clear? || pc.ClearFree? || pc.Channel? || pc.Pin? || pc.UpdateFree?
  }

  /** A process is counted as holding the lock exactly when it is in a critical section. */
  predicate HoldersOk(s: State) {
    (Pcon in s.holders <==> s.ppc.Writing?) && (Dcon in s.holders <==> InLock(s.d.pc))
  }

  predicate Exclusive(s: State) {
    s.sem + |s.holders| == 1
  }

  lemma LockCounts(p: Pid, s: State)
    requires s.sem > 0 && p !in s.holders
    ensures Lock(p, s).sem + |Lock(p, s).holders| == s.sem + |s.holders|
  {
  }

  lemma FreeCounts(p: Pid, s: State)
    requires p in s.holders
    ensures Free(p, s).sem + |Free(p, s).holders| == s.sem + |s.holders|
  {
  }

  /** A token step only changes the operator program and what it writes without the lock. */
  lemma TokenIsLocal(tok: Tok, s: State)
    ensures NextToken(tok, s).Some? ==>
              var n := NextToken(tok, s).value;
              n == s.(cb := n.cb, sys := n.sys, ppc := n.ppc) && !n.ppc.Writing? && s.ppc.Ready?
  {
  }

  lemma PconKeepsExclusion(e: Event, s: State)
    requires HoldersOk(s) && Exclusive(s) && PconEvent(e) && NextPcon(e, s).Some?
    ensures HoldersOk(NextPcon(e, s).value) && Exclusive(NextPcon(e, s).value)
  {
    match e {
      case Token(tok) => TokenIsLocal(tok, s);
      case Escape =>
      case PconLock => LockCounts(Pcon, s);
      case PconWrite =>
      case PconFree => FreeCounts(Pcon, s);
    }
  }

  lemma DconLockKeepsExclusion(s: State)
    requires Good(s) && HoldersOk(s) && Exclusive(s) && NextDcon(DconLock, s).Some?
    ensures HoldersOk(NextDcon(DconLock, s).value) && Exclusive(NextDcon(DconLock, s).value)
  {
    hide Good;
    hide Relays;
    LockCounts(Dcon, s);
  }

  lemma DconFreeKeepsExclusion(s: State)
    requires Good(s) && HoldersOk(s) && Exclusive(s) && NextDcon(DconFree, s).Some?
    ensures HoldersOk(NextDcon(DconFree, s).value) && Exclusive(NextDcon(DconFree, s).value)
  {
    hide Good;
    FreeCounts(Dcon, s);
  }

  /** The daemon's other steps leave the lock to whom it belongs. */
  lemma OnlyDconMoves(e: Event, s: State)
    requires Good(s) && NextDcon(e, s).Some? && !e.DconLock? && !e.DconFree?
    ensures var n := NextDcon(e, s).value;
            n.sem == s.sem && n.holders == s.holders && n.ppc == s.ppc && (InLock(n.d.pc) <==> InLock(s.d.pc))
  {
    hide Good;
    hide Daemon.DoChannel;
    hide Relays;
    hide MinuteOfDay;
  }

  lemma DconKeepsExclusion(e: Event, s: State)
    requires Good(s) && HoldersOk(s) && Exclusive(s) && NextDcon(e, s).Some?
    ensures HoldersOk(NextDcon(e, s).value) && Exclusive(NextDcon(e, s).value)
  {
    hide Good;
    hide NextDcon;
    hide InLock;
    match e {
      case DconLock => DconLockKeepsExclusion(s);
      case DconFree => DconFreeKeepsExclusion(s);
      case _ => OnlyDconMoves(e, s);
    }
  }

  lemma SconKeepsExclusion(e: Event, s: State)
    requires HoldersOk(s) && Exclusive(s) && SconEvent(e) && NextScon(e, s).Some?
    ensures HoldersOk(NextScon(e, s).value) && Exclusive(NextScon(e, s).value)
  {
    match e {
      case SconLock(n) => LockCounts(Scon(n), s);
      case SconFree(n) => FreeCounts(Scon(n), s);
      case _ =>
    }
  }

  /** A step keeps "semaphore value plus holders is one" exactly when it is not an initialisation while
      the lock is held. */
  lemma StepKeepsExclusionIff(e: Event, s: State)
    requires Good(s) && HoldersOk(s) && Exclusive(s) && Next(e, s).Some?
    ensures HoldersOk(Next(e, s).value)
    ensures Exclusive(Next(e, s).value) <==> (e.Init? ==> s.holders == {})
  {
    if e.Init? {
    } else if PconEvent(e) {
      PconKeepsExclusion(e, s);
    } else if SconEvent(e) {
      SconKeepsExclusion(e, s);
    } else {
      DconKeepsExclusion(e, s);
    }
  }

  lemma TwoHoldersBreakExclusion(s: State, p: Pid, q: Pid)
    requires p in s.holders && q in s.holders && p != q
    ensures !Exclusive(s)
  {
    assert |s.holders - {p} - {q}| == |s.holders| - 2;
  }
}
