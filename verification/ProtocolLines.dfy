/** A typed line as part of a run: its tokens, fed one after the other while nobody interferes, do to the
    control block and to shared memory what the command machine specifies, and the daemon then carries it
    to the pins. */
module ProtocolLines {
  import opened CmdLines
  import opened CmdRuns
  import opened CmdSpec
  import opened CmdTables
  import opened Daemon
  import Lexer
  import opened Protocol
  import opened ProtocolRuns
  import opened ProtocolSettling
  import opened ProtocolSteps
  import opened Sequences
  import opened Schedule
  import opened SharedData
  import opened Tokens

  /** Every token of the line is admissible when its turn comes. */
  predicate LineAdmissible(q: seq<string>, m: Mach)
    requires Reachable(m.cb.state)
    decreases |q|
  {
    q == [] ||
    ((Classify(q[0]).Some? ==> Admissible(Classify(q[0]).value, m)) &&
     var o := Cycle(q[0], m);
     o.Done? && o.rc != 1 ==> LineAdmissible(q[1..], o.m))
  }

  /** The tokens of the line that the machine is fed: up to the first it refuses. */
  function Fed(q: seq<string>, m: Mach): seq<Tok>
    requires Reachable(m.cb.state)
    decreases |q|
  {
    if q == [] then []
    else
      var o := Cycle(q[0], m);
      (if Classify(q[0]).Some? then [Classify(q[0]).value] else []) +
      if o.Done? && o.rc != 1 then Fed(q[1..], o.m) else []
  }

  /** What the token commits. */
  function TokenCommits(tok: Tok, m: Mach): seq<Commit>
    requires TokOk(tok) && Reachable(m.cb.state)
  {
    var a := ActionOf(tok.index, m.cb.state);
    if NeedsLock(a) then Commits(Critical(a, tok, m.cb)) else []
  }

  /** What the line commits. */
  function LineCommits(q: seq<string>, m: Mach): seq<Commit>
    requires Reachable(m.cb.state)
    decreases |q|
  {
    if q == [] then []
    else
      var o := Cycle(q[0], m);
      (if Classify(q[0]).Some? then TokenCommits(Classify(q[0]).value, m) else []) +
      if o.Done? && o.rc != 1 then LineCommits(q[1..], o.m) else []
  }

  function TokenEvents(es: seq<Event>): seq<Tok> {
    if es == [] then [] else (if es[0].Token? then [es[0].tok] else []) + TokenEvents(es[1..])
  }

  lemma {:induction false} TokenEventsConcat(es: seq<Event>, fs: seq<Event>)
    ensures TokenEvents(es + fs) == TokenEvents(es) + TokenEvents(fs)
  {
    if es == [] {
      assert es + fs == fs;
    } else {
      var first := if es[0].Token? then [es[0].tok] else [];
      TokenEventsConcat(es[1..], fs);
      assert (es + fs)[1..] == es[1..] + fs && (es + fs)[0] == es[0];
      assert TokenEvents(es) == first + TokenEvents(es[1..]);
      assert TokenEvents(es + fs) == first + TokenEvents(es[1..] + fs);
      hide TokenEvents;
      Regroup(first, TokenEvents(es[1..]), TokenEvents(fs));
    }
  }

  lemma {:induction false} NoTokenEvents(es: seq<Event>)
    requires forall k :: 0 <= k < |es| ==> !es[k].Token?
    ensures TokenEvents(es) == []
  {
    if es != [] {
      NoTokenEvents(es[1..]);
    }
  }

  // ----- the state of the run and the machine -----

  /** Nobody is in the lock and the operator program waits for a token; its control block and shared memory
      are those of `m` (the run does not record the backup file). */
  predicate At(s: State, m: Mach) {
    s.ppc == Ready && s.holders == {} && s.cb == m.cb && s.sys == m.sys
  }

  /** After a token or a line with outcome `o`. */
  predicate Reached(s: State, o: Outcome) {
    (o.Done? ==> At(s, o.m)) && (o.Exited? ==> s.ppc == Gone)
  }

  predicate SameButBackup(o: Outcome, p: Outcome) {
    && (o.Fault? <==> p.Fault?) && (o.Exited? <==> p.Exited?)
    && (o.Done? ==> p.Done? && o.rc == p.rc && o.m.cb == p.m.cb && o.m.sys == p.m.sys)
  }

  lemma BufferRoutinesIgnoreBackup(a: nat, tok: Tok, m: Mach, n: Mach)
    requires m.cb == n.cb && m.sys == n.sys
    ensures SameButBackup(ActOnBuffer(a, tok, m), ActOnBuffer(a, tok, n))
    ensures BufferGuard(a, tok, m) <==> BufferGuard(a, tok, n)
  {
  }

  lemma SystemRoutinesIgnoreBackup(a: nat, tok: Tok, m: Mach, n: Mach)
    requires a != 19 && m.cb == n.cb && m.sys == n.sys
    ensures SameButBackup(ActOnSystem(a, tok, m), ActOnSystem(a, tok, n))
    ensures SystemGuard(a, tok, m) <==> SystemGuard(a, tok, n)
  {
    BufferRoutinesIgnoreBackup(a, tok, m, n);
    hide ActOnBuffer;
    hide BufferGuard;
  }

  lemma BackupIsNotRead(a: nat, tok: Tok, m: Mach, n: Mach)
    requires a != 18 && a != 49 && a != 19 && m.cb == n.cb && m.sys == n.sys
    ensures SameButBackup(Act(a, tok, m), Act(a, tok, n)) && (Guard(a, tok, m) <==> Guard(a, tok, n))
  {
    SystemRoutinesIgnoreBackup(a, tok, m, n);
    hide ActOnSystem;
    hide SystemGuard;
    hide PrintFits;
    hide NothingToShow;
    hide LoadTable;
  }

  lemma StepIgnoresBackup(tok: Tok, m: Mach, n: Mach)
    requires TokOk(tok) && Reachable(m.cb.state) && ActionOf(tok.index, m.cb.state) != 19
    requires m.cb == n.cb && m.sys == n.sys
    ensures SameButBackup(Step(tok, m), Step(tok, n)) && (Admissible(tok, m) <==> Admissible(tok, n))
  {
    TablesStayReachable(tok.index, m.cb.state);
    BackupIsNotRead(ActionOf(tok.index, m.cb.state), tok, m, n);
    hide Act;
    hide Guard;
  }

  // ----- one token -----

  /** What has been added to `es` is the token, and steps of the operator program for it. */
  ghost predicate TokenFirst(es: seq<Event>, fs: seq<Event>, tok: Tok) {
    |es| < |fs| && fs[|es|] == Token(tok) && forall k :: |es| < k < |fs| ==> PconEvent(fs[k]) && !fs[k].Token?
  }

  /** A routine that takes no lock is one event. */
  lemma UnlockedToken(tok: Tok, s: State, m: Mach)
    requires Good(s) && At(s, m) && Admissible(tok, m) && !NeedsLock(ActionOf(tok.index, m.cb.state))
    requires Step(tok, m) != Fault
    ensures Next(Token(tok), s).Some? && Reached(Next(Token(tok), s).value, Step(tok, m))
    ensures Next(Token(tok), s).value.log == s.log
  {
    TokenIsLocal(tok, s);
    StepIgnoresBackup(tok, m, AsMach(s));
    PrintersGoOn(tok, AsMach(s));
    hide Step;
    hide Good;
  }

  lemma PrintersGoOn(tok: Tok, m: Mach)
    requires TokOk(tok) && Reachable(m.cb.state) && Step(tok, m) != Fault
    ensures StepOn(tok, m) == Step(tok, m)
  {
    hide PrintFits;
  }

  /** A routine that locks: the token, then the lock. */
  lemma LockedTokenWaits(tok: Tok, s: State, m: Mach)
    requires Good(s) && HoldersOk(s) && Exclusive(s) && At(s, m) && LockedToken(tok, m)
    ensures Next(Token(tok), s) == Some(s.(ppc := Locking(tok)))
    ensures Good(s.(ppc := Locking(tok)))
    ensures var n := Next(PconLock, s.(ppc := Locking(tok)));
            n.Some? && n.value.ppc == Writing(tok, Critical(ActionOf(tok.index, s.cb.state), tok, s.cb)) &&
            n.value.cb == s.cb && n.value.sys == s.sys && n.value.log == s.log
  {
    StepIgnoresBackup(tok, m, AsMach(s));
    NextKeepsGood(Token(tok), s);
    hide Critical;
    hide Inv;
  }

  /** What the critical section leaves is what the machine specifies. */
  lemma LockedTokenIsTheStep(tok: Tok, s: State, m: Mach)
    requires Good(s) && At(s, m) && LockedToken(tok, m)
    ensures var a := ActionOf(tok.index, s.cb.state);
            var o := Step(tok, m);
            o.Done? && o.rc == 0 && o.m.sys == ApplyAll(Critical(a, tok, s.cb), s.sys) &&
            o.m.cb == s.cb.(state := NewState(tok.index, s.cb.state))
  {
    var a := ActionOf(tok.index, s.cb.state);
    StepIgnoresBackup(tok, m, AsMach(s));
    CriticalSectionIsTheRoutine(a, tok, AsMach(s));
    hide Act;
    hide ApplyAll;
    hide Critical;
    TablesStayReachable(tok.index, s.cb.state);
  }

  lemma LockIsTaken(ss: seq<State>, es: seq<Event>, tok: Tok, m: Mach) returns (tt: seq<State>, fs: seq<Event>)
    requires IsRun(ss, es) && InitsFindTheLockFree(ss, es, |es|) && At(ss[|es|], m) && LockedToken(tok, m)
    ensures IsRun(tt, fs) && InitsFindTheLockFree(tt, fs, |fs|) && RunExtended(ss, es, tt, fs)
    ensures |fs| == |es| + 2 && fs[|es|] == Token(tok) && fs[|es| + 1] == PconLock
    ensures var s, n := ss[|es|], tt[|fs|];
            n.ppc == Writing(tok, Critical(ActionOf(tok.index, s.cb.state), tok, s.cb)) && n.cb == s.cb && n.sys == s.sys &&
            n.log == s.log
  {
    hide Steps;
    hide InitsFindTheLockFree;
    hide Next;
    hide Critical;
    var s := ss[|es|];
    RunsAreGood(ss, es, |es|);
    ExclusiveUpTo(ss, es, |es|);
    LockedTokenWaits(tok, s, m);
    hide Good;
    hide LockedToken;
    var s1 := RunExtends(ss, es, Token(tok));
    InitsStayFine(ss, es, s1, Token(tok));
    var ss1, es1 := ss + [s1], es + [Token(tok)];
    var s2 := RunExtends(ss1, es1, PconLock);
    InitsStayFine(ss1, es1, s2, PconLock);
    tt, fs := ss1 + [s2], es1 + [PconLock];
  }

  lemma LockedTokenRuns(ss: seq<State>, es: seq<Event>, tok: Tok, m: Mach) returns (tt: seq<State>, fs: seq<Event>)
    requires IsRun(ss, es) && InitsFindTheLockFree(ss, es, |es|) && At(ss[|es|], m) && LockedToken(tok, m)
    ensures IsRun(tt, fs) && InitsFindTheLockFree(tt, fs, |fs|) && RunExtended(ss, es, tt, fs)
    ensures TokenFirst(es, fs, tok) && Reached(tt[|fs|], Step(tok, m))
    ensures tt[|fs|].log == ss[|es|].log + TokenCommits(tok, m)
  {
    hide Steps;
    hide InitsFindTheLockFree;
    hide Critical;
    hide Step;
    var s := ss[|es|];
    RunsAreGood(ss, es, |es|);
    LockedTokenIsTheStep(tok, s, m);
    hide Good;
    hide LockedToken;
    var uu, gs := LockIsTaken(ss, es, tok, m);
    tt, fs := WritingFinishes(uu, gs);
    assert fs[..|gs|] == gs;
    forall k | |es| < k < |fs|
      ensures PconEvent(fs[k]) && !fs[k].Token?
    {
      if k < |gs| {
        assert fs[k] == gs[k];
      } else {
        assert WritingEvent(fs[k]);
      }
    }
    assert fs[|es|] == gs[|es|];
  }

  lemma TokenRuns(ss: seq<State>, es: seq<Event>, tok: Tok, m: Mach) returns (tt: seq<State>, fs: seq<Event>)
    requires IsRun(ss, es) && InitsFindTheLockFree(ss, es, |es|) && At(ss[|es|], m)
    requires Admissible(tok, m) && Step(tok, m) != Fault
    ensures IsRun(tt, fs) && InitsFindTheLockFree(tt, fs, |fs|) && RunExtended(ss, es, tt, fs)
    ensures TokenFirst(es, fs, tok) && Reached(tt[|fs|], Step(tok, m))
    ensures tt[|fs|].log == ss[|es|].log + TokenCommits(tok, m)
  {
    hide Steps;
    hide InitsFindTheLockFree;
    hide Step;
    if NeedsLock(ActionOf(tok.index, m.cb.state)) {
      tt, fs := LockedTokenRuns(ss, es, tok, m);
    } else {
      hide Next;
      RunsAreGood(ss, es, |es|);
      UnlockedToken(tok, ss[|es|], m);
      hide Good;
      var s := RunExtends(ss, es, Token(tok));
      InitsStayFine(ss, es, s, Token(tok));
      tt, fs := ss + [s], es + [Token(tok)];
      assert s.log + [] == s.log;
    }
  }

  // ----- a line -----

  lemma TokenEventsOfStep(es: seq<Event>, fs: seq<Event>, tok: Tok)
    requires TokenFirst(es, fs, tok)
    ensures TokenEvents(fs[|es|..]) == [tok]
  {
    var added := fs[|es|..];
    assert added[1..] == fs[|es| + 1..];
    NoTokenEvents(added[1..]);
  }

  lemma TokenEventsInTurn(es: seq<Event>, fs: seq<Event>, gs: seq<Event>)
    requires es <= fs <= gs
    ensures TokenEvents(gs[|es|..]) == TokenEvents(fs[|es|..]) + TokenEvents(gs[|fs|..])
  {
    assert gs[|es|..] == fs[|es|..] + gs[|fs|..];
    TokenEventsConcat(fs[|es|..], gs[|fs|..]);
  }

  /** The line's tokens, up to the first refusal, are a sequence of events of the operator program alone, and
      they lead to what the command machine makes of the line. */
  lemma {:induction false} LineIsARun(ss: seq<State>, es: seq<Event>, q: seq<string>, m: Mach)
    returns (tt: seq<State>, fs: seq<Event>)
    requires IsRun(ss, es) && InitsFindTheLockFree(ss, es, |es|) && At(ss[|es|], m) && Reachable(m.cb.state)
    requires LineAdmissible(q, m) && Drain(q, m) != Fault
    ensures IsRun(tt, fs) && InitsFindTheLockFree(tt, fs, |fs|) && RunExtended(ss, es, tt, fs)
    ensures forall k :: |es| <= k < |fs| ==> PconEvent(fs[k])
    ensures TokenEvents(fs[|es|..]) == Fed(q, m) && Reached(tt[|fs|], Drain(q, m))
    ensures tt[|fs|].log == ss[|es|].log + LineCommits(q, m)
    decreases |q|
  {
    hide Steps;
    hide InitsFindTheLockFree;
    hide Step;
    hide Admissible;
    hide At;
    hide TokenEvents;
    hide Classify;
    hide TokenCommits;
    if q == [] {
      tt, fs := ss, es;
      NoTokenEvents(fs[|es|..]);
      assert fs[|es|..] == [];
      assert ss[|es|].log + [] == ss[|es|].log;
    } else if Classify(q[0]).None? {
      tt, fs := LineIsARun(ss, es, q[1..], m);
      assert [] + LineCommits(q[1..], m) == LineCommits(q[1..], m);
    } else {
      var tok, o := Classify(q[0]).value, Cycle(q[0], m);
      var uu, gs := TokenRuns(ss, es, tok, m);
      TokenEventsOfStep(es, gs, tok);
      if o.Done? && o.rc != 1 {
        tt, fs := LineIsARun(uu, gs, q[1..], o.m);
        TokenEventsInTurn(es, gs, fs);
        Regroup(ss[|es|].log, TokenCommits(tok, m), LineCommits(q[1..], o.m));
      } else {
        tt, fs := uu, gs;
        assert TokenCommits(tok, m) + [] == TokenCommits(tok, m);
      }
    }
  }

  /** From the carriage return to the pins: wherever the run is, as long as the operator program waits for
      input and nobody is in the lock, a line that does not fault and does not end the program is a
      sequence of its steps, and after at most 83 further steps, the daemon's, all channels are what the
      operator has asked for with it, and the pins follow. */
  lemma ATypedLineTakesEffect(ss: seq<State>, es: seq<Event>, text: string, t: Time, stale: int)
    returns (uu: seq<State>, gs: seq<Event>, tt: seq<State>, fs: seq<Event>)
    requires IsRun(ss, es) && InitsFindTheLockFree(ss, es, |es|) && TimeOk(t)
    requires ss[|es|].ppc == Ready && ss[|es|].holders == {} && Reachable(ss[|es|].cb.state)
    requires LineAdmissible(Lexer.LexLine(text), AsMach(ss[|es|]))
    requires Drain(Lexer.LexLine(text), AsMach(ss[|es|])).Done?
    ensures IsRun(uu, gs) && RunExtended(ss, es, uu, gs) && IsRun(tt, fs) && RunExtended(uu, gs, tt, fs)
    ensures At(uu[|gs|], Drain(Lexer.LexLine(text), AsMach(ss[|es|])).m)
    ensures TokenEvents(gs[|es|..]) == Fed(Lexer.LexLine(text), AsMach(ss[|es|])) && |fs| <= |gs| + 83
    ensures forall k :: |es| <= k < |gs| ==> PconEvent(gs[k])
    ensures var s := tt[|fs|];
            s.sys.force == 0 && s.d.seen == |s.log| &&
            s.log == ss[|es|].log + LineCommits(Lexer.LexLine(text), AsMach(ss[|es|])) &&
            Delivered(s, ConfigOf(s.log), UpdateTime(s)) && (s.log != [] ==> PinsFollow(s))
  {
    hide Steps;
    hide InitsFindTheLockFree;
    hide Delivered;
    hide PinsFollow;
    uu, gs := LineIsARun(ss, es, Lexer.LexLine(text), AsMach(ss[|es|]));
    tt, fs := EveryStateCanSettle(uu, gs, t, stale);
    assert uu[|gs|].log + [] == uu[|gs|].log;
  }

  // ----- in words -----

  lemma SwitchTokens(n: nat, w: Switch)
    requires n < 16 && IsSwitch(w)
    ensures Lexer.LexLine(Numeral(n) + " " + w.word) == [Numeral(n), w.word]
  {
    NumeralsAreRead(n);
    assert forall i :: 0 <= i < |Numeral(n)| ==> IsDigit(Numeral(n)[i]);
    hide Numeral;
    assert Lexer.Typable(Numeral(n)) && Lexer.Typable(w.word);
    Lexer.TwoLaid(Numeral(n), " ", w.word);
  }

  /** The request that the word stands for. */
  function RequestOf(n: nat, w: Switch): Commit {
    if w.mode == 0 then Manual(n, w.state) else Timed(n)
  }

  lemma ChannelTokenIsFine(n: nat, m: Mach)
    requires Inv(m) && m.cb.state == 0 && n < 16
    ensures Classify(Numeral(n)) == Some(Tok(INT_TOKEN, n, Numeral(n)))
    ensures Admissible(Tok(INT_TOKEN, n, Numeral(n)), m) && TokenCommits(Tok(INT_TOKEN, n, Numeral(n)), m) == []
  {
    NumeralsAreRecognised(n);
    hide Classify;
    hide Numeral;
  }

  lemma SwitchTokenIsFine(n: nat, w: Switch, m: Mach)
    requires IsSwitch(w) && m.cb.state == 1 && m.cb.channel == n < 16
    ensures Classify(w.word).Some?
    ensures Admissible(Classify(w.word).value, m) && TokenCommits(Classify(w.word).value, m) == [RequestOf(n, w)]
  {
    var t := if w.word == "on" then 12 else if w.word == "off" then 13 else 16;
    assert Keyword(t) == w.word;
    KeywordsAreLower(t);
    KeywordsAreRecognised(t, w.word);
    hide Classify;
    hide Keyword;
    SwitchCommits(n, w, t, m);
  }

  lemma SwitchWritesCommit(a: Write, b: Write, k: Commit)
    requires !a.WForce? && !b.WForce?
    ensures Commits([a, b, WForce(k)]) == [k]
  {
    assert [a, b, WForce(k)][1..] == [b, WForce(k)] && [b, WForce(k)][1..] == [WForce(k)] && [WForce(k)][1..] == [];
    assert Commits([WForce(k)]) == [k] + Commits([]);
    assert Commits([b, WForce(k)]) == [] + Commits([WForce(k)]);
  }

  lemma SwitchCommits(n: nat, w: Switch, t: nat, m: Mach)
    requires IsSwitch(w) && m.cb.state == 1 && m.cb.channel == n < 16
    requires t == if w.word == "on" then 12 else if w.word == "off" then 13 else 16
    ensures Admissible(Tok(t, t, w.word), m) && TokenCommits(Tok(t, t, w.word), m) == [RequestOf(n, w)]
  {
    var a := if w.word == "on" then 9 else if w.word == "off" then 10 else 11;
    assert ActionOf(t, 1) == a;
    hide ActionOf;
    var ws := Critical(a, Tok(t, t, w.word), m.cb);
    assert ws == [WMode(n, w.mode), WState(n, w.state), WForce(RequestOf(n, w))];
    SwitchWritesCommit(WMode(n, w.mode), WState(n, w.state), RequestOf(n, w));
  }

  lemma OneTokenLine(text: string, m: Mach)
    requires Reachable(m.cb.state) && Classify(text).Some? && Admissible(Classify(text).value, m)
    ensures LineAdmissible([text], m) && LineCommits([text], m) == TokenCommits(Classify(text).value, m)
  {
    hide Classify;
    hide Cycle;
    hide Admissible;
    hide TokenCommits;
    assert [text][1..] == [];
    var o, ks := Cycle(text, m), TokenCommits(Classify(text).value, m);
    assert o.Done? ==> LineAdmissible([], o.m) && LineCommits([], o.m) == [];
    assert ks + [] == ks;
  }

  lemma SwitchLineCommits(n: nat, w: Switch, m: Mach)
    requires Inv(m) && m.cb.state == 0 && n < 16 && IsSwitch(w)
    ensures LineAdmissible([Numeral(n), w.word], m) && LineCommits([Numeral(n), w.word], m) == [RequestOf(n, w)]
  {
    var q, m1 := [Numeral(n), w.word], m.(cb := m.cb.(state := 1, channel := n, minutes := 0, hours := 0));
    ChannelIsChosen(n, m);
    ChannelTokenIsFine(n, m);
    SwitchTokenIsFine(n, w, m1);
    SwitchWord(w, m1);
    hide Classify;
    hide Cycle;
    hide Numeral;
    hide Admissible;
    hide TokenCommits;
    assert q[1..] == [w.word];
    OneTokenLine(w.word, m1);
    assert [] + LineCommits([w.word], m1) == [RequestOf(n, w)];
  }

  /** The channel that the last request was about. */
  lemma LastRequestIsDelivered(n: nat, w: Switch, log: seq<Commit>, s: State, t: Time)
    requires n < 16 && IsSwitch(w) && Delivered(s, ConfigOf(log + [RequestOf(n, w)]), t)
    ensures var g := ConfigOf(log + [RequestOf(n, w)]);
            |s.sys.chans| == 16 && |g.sch| == TABLE_SIZE && IsDay(t.wday) &&
            s.sys.chans[n].state ==
              if w.mode == 0 then w.state else DayState(g.sch[Cell(t.wday, n)], t.hour * 60 + t.minute)
  {
    ConfigOfMore(log, RequestOf(n, w));
    var g := ConfigOf(log + [RequestOf(n, w)]);
    assert Owed(g, t, SensedIn(s, n), n, s.sys.chans[n].state);
    hide ConfigOf;
    hide DayState;
  }

  lemma SwitchLineIsFine(n: nat, w: Switch, s: State)
    requires Good(s) && s.cb.state == 0 && n < 16 && IsSwitch(w)
    ensures var q := Lexer.LexLine(Numeral(n) + " " + w.word);
            LineAdmissible(q, AsMach(s)) && LineCommits(q, AsMach(s)) == [RequestOf(n, w)] && Drain(q, AsMach(s)).Done?
  {
    hide Lexer.LexLine;
    hide Drain;
    hide LineAdmissible;
    hide LineCommits;
    hide Numeral;
    SwitchTokens(n, w);
    SwitchLineCommits(n, w, AsMach(s));
    NumberAndSwitch(n, w, AsMach(s));
  }

  /** "n on", "n off" or "n time", typed at the prompt: the last request is that one, and after at most 83
      further steps channel n is on, off, or what the installed schedule says for the time of the last
      update; the pins follow. */
  lemma NumberAndSwitchTakeEffect(ss: seq<State>, es: seq<Event>, n: nat, w: Switch, t: Time, stale: int)
    returns (tt: seq<State>, fs: seq<Event>)
    requires IsRun(ss, es) && InitsFindTheLockFree(ss, es, |es|) && TimeOk(t)
    requires ss[|es|].ppc == Ready && ss[|es|].holders == {} && ss[|es|].cb.state == 0 && n < 16 && IsSwitch(w)
    ensures IsRun(tt, fs) && RunExtended(ss, es, tt, fs)
    ensures var s := tt[|fs|];
            s.log == ss[|es|].log
                     + [if w.word == "on" then Manual(n, 1) else if w.word == "off" then Manual(n, 0) else Timed(n)] &&
            s.sys.force == 0 && s.d.seen == |s.log| && PinsFollow(s) && |s.sys.chans| == 16 &&
            var g, u := ConfigOf(s.log), UpdateTime(s);
            |g.sch| == TABLE_SIZE && IsDay(u.wday) &&
            s.sys.chans[n].state ==
              if w.word == "on" then 1 else if w.word == "off" then 0
              else DayState(g.sch[Cell(u.wday, n)], u.hour * 60 + u.minute)
  {
    hide Steps;
    hide InitsFindTheLockFree;
    hide PinsFollow;
    hide Good;
    hide Lexer.LexLine;
    hide Drain;
    hide LineAdmissible;
    hide LineCommits;
    hide ConfigOf;
    hide DayState;
    hide Delivered;
    hide Numeral;
    hide Fed;
    hide TokenEvents;
    hide At;
    var text := Numeral(n) + " " + w.word;
    RunsAreGood(ss, es, |es|);
    SwitchLineIsFine(n, w, ss[|es|]);
    var uu, gs;
    uu, gs, tt, fs := ATypedLineTakesEffect(ss, es, text, t, stale);
    LastRequestIsDelivered(n, w, ss[|es|].log, tt[|fs|], UpdateTime(tt[|fs|]));
    assert ss <= tt && es <= fs;
  }
}
