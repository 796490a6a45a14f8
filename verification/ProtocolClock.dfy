/** When the states are right for the present minute, and not only for that of the last update. The daemon
    remembers just the minute of the hour. */
module ProtocolClock {
  import opened Daemon
  import opened Protocol
  import opened ProtocolRuns
  import opened ProtocolSettling
  import opened ProtocolSteps

  // ----- one pass -----

  /** The flag is down and the last update was for the remembered minute: a pass at time `t` updates nothing
      exactly when the minute of the hour is that one, and then the states are those for time `t` exactly
      when the last update fell in the same hour of the same weekday. */
  lemma PassWithoutUpdateIff(s: State, t: Time)
    requires Good(s) && s.d.pc.Top? && s.sys.force == 0 && TimeOk(t) && s.d.hMin == s.d.snap.t.minute
    ensures var c := Next(Clock(t), s);
            c.Some? && Good(c.value) &&
            var n := Next(PollFlag, c.value);
            n.Some? && n.value.d.t == t && n.value.d.snap == s.d.snap &&
            (n.value.d.pc.Top? <==> t.minute == s.d.hMin) &&
            (n.value.d.pc.Top? ==>
               (n.value.d.snap.t == t <==> t.wday == s.d.snap.t.wday && t.hour == s.d.snap.t.hour))
  {
    NextKeepsGood(Clock(t), s);
    hide Good;
  }

  // ----- runs -----

  /** The clock `a` minutes after some midnight at the beginning of a week. */
  function TimeOf(a: nat): Time {
    Time(a / 1440 % 7, a / 60 % 24, a % 60)
  }

  /** Minute m of hour h of day d of any week. */
  lemma TimesOfTheWeek(week: nat, d: nat, h: nat, mi: nat)
    requires d < 7 && h < 24 && mi < 60
    ensures TimeOf(((week * 7 + d) * 24 + h) * 60 + mi) == Time(d, h, mi)
  {
    var hours, days := (week * 7 + d) * 24 + h, week * 7 + d;
    var a := hours * 60 + mi;
    assert a / 60 == hours && a % 60 == mi;
    assert hours / 24 == days && hours % 24 == h;
    assert a / 1440 == days;
    assert days % 7 == d;
  }

  lemma MinutesTellTimes(a: nat, b: nat)
    requires a <= b < a + 60 && a % 60 == b % 60
    ensures a == b
  {
  }

  /** From state `i` to state `j` the times the daemon reads never lie an hour apart or more. */
  ghost predicate ClockAdvances(ss: seq<State>, at: seq<nat>, i: nat, j: nat)
    requires i <= j < |ss|
  {
    && |at| == |ss|
    && (forall k :: i <= k <= j ==> ss[k].d.t == TimeOf(at[k]))
    && (forall k :: i <= k < j ==> at[k] <= at[k + 1] < at[k] + 60)
  }

  /** Where the daemon is, its remembered minute is that of the last update or of the one it is about to do,
      and no other time has that minute. */
  predicate Fresh(s: State) {
    match s.d.pc
    case Top => s.d.snap.t == s.d.t && s.d.hMin == s.d.t.minute
    case Poll => s.d.hMin == s.d.snap.t.minute && (s.d.t == s.d.snap.t || s.d.t.minute != s.d.hMin)
    case UpdateLock(forced) => !forced && s.d.hMin == s.d.t.minute
    case Channel(_) => s.d.snap.t == s.d.t && s.d.hMin == s.d.t.minute
    case Pin(_) => s.d.snap.t == s.d.t && s.d.hMin == s.d.t.minute
    case UpdateFree => s.d.snap.t == s.d.t && s.d.hMin == s.d.t.minute
    case _ => false
  }

  lemma DconStaysFresh(e: Event, s: State)
    requires Good(s) && Fresh(s) && s.sys.force == 0 && NextDcon(e, s).Some?
    requires e.Clock? && e.t.minute == s.d.t.minute ==> e.t == s.d.t
    ensures Fresh(NextDcon(e, s).value)
  {
    hide Daemon.DoChannel;
    hide Relays;
  }

  lemma StepStaysFresh(e: Event, s: State)
    requires Good(s) && Fresh(s) && s.sys.force == 0 && Next(e, s).Some?
    requires e.Clock? && e.t.minute == s.d.t.minute ==> e.t == s.d.t
    ensures Fresh(Next(e, s).value)
  {
    hide Fresh;
    if DconEvent(e) {
      DconStaysFresh(e, s);
    } else {
      OthersLeaveTheDaemon(e, s);
      FreshIsAboutTheDaemon(s, Next(e, s).value);
    }
  }

  lemma OthersLeaveTheDaemon(e: Event, s: State)
    requires Good(s) && !DconEvent(e) && Next(e, s).Some?
    ensures Next(e, s).value.d == s.d
  {
    hide Good;
    if e.Token? {
      TokenIsLocal(e.tok, s);
      hide NextToken;
    }
  }

  lemma FreshIsAboutTheDaemon(s: State, n: State)
    requires Fresh(s) && n.d == s.d
    ensures Fresh(n)
  {
  }

  lemma ClockReadsTime(e: Event, s: State, s': State)
    requires Steps(s, e, s') && e.Clock?
    ensures s'.d.t == e.t
  {
  }

  lemma {:induction false} RunStaysFresh(ss: seq<State>, es: seq<Event>, at: seq<nat>, i: nat, j: nat)
    requires IsRun(ss, es) && i <= j <= |es| && ClockAdvances(ss, at, i, j) && Fresh(ss[i])
    requires forall k :: i <= k <= j ==> ss[k].sys.force == 0
    ensures Fresh(ss[j])
    decreases j
  {
    hide Next;
    hide Fresh;
    hide TimeOf;
    if i < j {
      RunStaysFresh(ss, es, at, i, j - 1);
      var e, s := es[j - 1], ss[j - 1];
      assert Steps(s, e, ss[j - 1 + 1]);
      if e.Clock? {
        ClockReadsTime(e, s, ss[j]);
        SameMinuteSameTime(at[j - 1], at[j]);
      }
      StepStaysFresh(e, s);
    }
  }

  lemma SameMinuteSameTime(a: nat, b: nat)
    requires a <= b < a + 60
    ensures TimeOf(a).minute == TimeOf(b).minute ==> TimeOf(a) == TimeOf(b)
  {
    if a % 60 == b % 60 {
      MinutesTellTimes(a, b);
    }
  }

  lemma MinuteStepRemembers(e: Event, s: State)
    requires Good(s) && Next(e, s).Some? && (s.d.pc == UpdateLock(false) ==> s.d.hMin == s.d.t.minute)
    ensures var d := Next(e, s).value.d; d.pc == UpdateLock(false) ==> d.hMin == d.t.minute
  {
    hide Daemon.DoChannel;
    hide Relays;
    hide MinuteOfDay;
    if !DconEvent(e) {
      OthersLeaveTheDaemon(e, s);
      hide Next;
    }
  }

  lemma {:induction false} MinuteUpdatesRememberTheMinute(ss: seq<State>, es: seq<Event>, n: nat)
    requires IsRun(ss, es) && n <= |es|
    ensures ss[n].d.pc == UpdateLock(false) ==> ss[n].d.hMin == ss[n].d.t.minute
  {
    hide Next;
    if n > 0 {
      MinuteUpdatesRememberTheMinute(ss, es, n - 1);
      assert Steps(ss[n - 1], es[n - 1], ss[n - 1 + 1]);
      MinuteStepRemembers(es[n - 1], ss[n - 1]);
    }
  }

  /** From the first update that a new minute has started, as long as the flag stays down and the daemon
      reads the clock at least once an hour: whenever it is at the top of its loop, all channels are what the
      operator asked for at the very time it has read. */
  lemma StatesAreForThePresent(ss: seq<State>, es: seq<Event>, at: seq<nat>, i: nat, j: nat)
    requires IsRun(ss, es) && i <= j <= |es| && InitsFindTheLockFree(ss, es, j)
    requires ss[i].d.pc == UpdateLock(false) && ClockAdvances(ss, at, i, j)
    requires forall k :: i <= k <= j ==> ss[k].sys.force == 0
    requires ss[j].d.pc.Top? && !ss[j].ppc.Writing?
    ensures Delivered(ss[j], ConfigOf(ss[j].log), ss[j].d.t)
  {
    MinuteUpdatesRememberTheMinute(ss, es, i);
    RunStaysFresh(ss, es, at, i, j);
    RunsAreGood(ss, es, j);
    NoRequestIsLost(ss, es, j);
    MemoryCarriesTheCommits(ss, es, j);
    MemoryStaysAsUpdated(ss, es, j);
    SettledStates(ss[j]);
  }
}
