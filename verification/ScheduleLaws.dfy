/** Laws of schedules that span several edits or a whole day. */
module ScheduleLaws {
  import opened Schedule

  // ----- on-time accounting -----

  /** The number of minutes in lo..hi at which the lookup answers "on". */
  function OnMinutes(s: Sched, lo: int, hi: int): nat
    decreases |s|, hi - lo
  {
    if lo >= hi then 0 else (if DayState(s, lo) == 1 then 1 else 0) + OnMinutes(s, lo + 1, hi)
  }

  /** The cyclic gap that follows record `i`; the whole day when it is the only one. */
  function Gap(s: Sched, i: nat): int
    requires i < |s|
  {
    if i + 1 < |s| then s[i + 1].key - s[i].key else MINUTES_PER_DAY - s[i].key + s[0].key
  }

  /** The gaps that follow the "on" records among the first `n`. */
  function OnGaps(s: Sched, n: nat): int
    requires n <= |s|
  {
    if n == 0 then 0 else OnGaps(s, n - 1) + if s[n - 1].state == 1 then Gap(s, n - 1) else 0
  }

  lemma {:induction false} OnMinutesSplit(s: Sched, lo: int, mid: int, hi: int)
    requires lo <= mid <= hi
    ensures OnMinutes(s, lo, hi) == OnMinutes(s, lo, mid) + OnMinutes(s, mid, hi)
    decreases mid - lo
  {
    if lo < mid {
      OnMinutesSplit(s, lo + 1, mid, hi);
    }
  }

  lemma {:induction false} OnMinutesSteady(s: Sched, lo: int, hi: int, v: int)
    requires lo <= hi && forall m :: lo <= m < hi ==> DayState(s, m) == v
    ensures OnMinutes(s, lo, hi) == if v == 1 then hi - lo else 0
    decreases hi - lo
  {
    if lo < hi {
      OnMinutesSteady(s, lo + 1, hi, v);
    }
  }

  /** Between two neighbouring keys the earlier record governs. */
  lemma OnMinutesBetween(s: Sched, i: nat)
    requires WellFormed(s) && i + 1 < |s|
    ensures OnMinutes(s, s[i].key, s[i + 1].key) == if s[i].state == 1 then Gap(s, i) else 0
  {
    forall m | s[i].key <= m < s[i + 1].key
      ensures DayState(s, m) == s[i].state
    {
      FirstAfterIs(s, m, i + 1);
    }
    OnMinutesSteady(s, s[i].key, s[i + 1].key, s[i].state);
  }

  lemma {:induction false} OnMinutesUpTo(s: Sched, n: nat)
    requires WellFormed(s) && n < |s|
    ensures OnMinutes(s, s[0].key, s[n].key) == OnGaps(s, n)
  {
    if n > 0 {
      OnMinutesUpTo(s, n - 1);
      OnMinutesBetween(s, n - 1);
      assert s[0].key <= s[n - 1].key;
      OnMinutesSplit(s, s[0].key, s[n - 1].key, s[n].key);
    }
  }

  /** Before the first record and from the last one on, the last record governs. */
  lemma LastGoverns(s: Sched, m: int)
    requires Sorted(s) && s != [] && (m < s[0].key || s[|s| - 1].key <= m)
    ensures DayState(s, m) == s[|s| - 1].state
  {
    FirstAfterIs(s, m, if m < s[0].key then 0 else |s|);
  }

  lemma OnMinutesAround(s: Sched, first: int, last: int)
    requires WellFormed(s) && s != [] && first == s[0].key && last == s[|s| - 1].key
    ensures 0 <= first <= last < MINUTES_PER_DAY
    ensures OnMinutes(s, 0, first) + OnMinutes(s, last, MINUTES_PER_DAY)
         == if s[|s| - 1].state == 1 then Gap(s, |s| - 1) else 0
  {
    assert RecOk(s[0]) && RecOk(s[|s| - 1]);
    var v := s[|s| - 1].state;
    forall m | 0 <= m < first || last <= m < MINUTES_PER_DAY
      ensures DayState(s, m) == v
    {
      LastGoverns(s, m);
    }
    OnMinutesSteady(s, 0, first, v);
    OnMinutesSteady(s, last, MINUTES_PER_DAY, v);
  }

  /** The minutes at which a channel is on are exactly the cyclic gaps after its "on" records. */
  lemma OnTimeIsTheGapsAfterOnRecords(s: Sched)
    requires WellFormed(s) && s != []
    ensures OnMinutes(s, 0, MINUTES_PER_DAY) == OnGaps(s, |s|)
    ensures |s| == 1 && s[0].state == 1 ==> OnMinutes(s, 0, MINUTES_PER_DAY) == MINUTES_PER_DAY
  {
    var n := |s| - 1;
    OnMinutesAround(s, s[0].key, s[n].key);
    OnMinutesUpTo(s, n);
    OnMinutesSplit(s, s[0].key, s[n].key, MINUTES_PER_DAY);
    OnMinutesSplit(s, 0, s[0].key, MINUTES_PER_DAY);
  }

  // ----- clock times -----

  /** One time of day is not later than another. */
  predicate NotLater(a: (int, int), b: (int, int)) {
    a.0 < b.0 || (a.0 == b.0 && a.1 <= b.1)
  }

  predicate IsTime(t: (int, int)) {
    0 <= t.0 <= 23 && 0 <= t.1 <= 59
  }

  lemma KeysFollowTheClock(a: (int, int), k: int)
    requires IsTime(a) && 0 <= k < MINUTES_PER_DAY
    ensures KeyOf(a.0, a.1) <= k <==> NotLater(a, ConKey(k))
    ensures IsTime(ConKey(k)) && KeyOf(ConKey(k).0, ConKey(k).1) == k
  {
    assert k == k / 60 * 60 + k % 60;
  }

  /** After an accepted insert at a time of day the schedule has the new state at every time from then on
      up to the time of the next record, or to midnight when there is none. */
  lemma InsertHoldsUntilTheNextTime(s: Sched, at: (int, int), state: int, temp: int, humid: int, now: (int, int))
    requires WellFormed(s) && IsTime(at) && IsTime(now) && !Full(s, KeyOf(at.0, at.1)) && (state == 0 || state == 1)
    ensures var t := Insert(s, Rec(KeyOf(at.0, at.1), state, temp, humid));
            var i := IndexOf(t, KeyOf(at.0, at.1));
            i < |t| && ConKey(KeyOf(at.0, at.1)) == at &&
            (i + 1 < |t| ==> 0 <= t[i + 1].key) &&
            (NotLater(at, now) && (i + 1 < |t| ==> !NotLater(ConKey(t[i + 1].key), now)) ==>
               DayState(t, now.0 * 60 + now.1) == state)
  {
    hide Insert;
    hide IndexOf;
    hide DayState;
    var r := Rec(KeyOf(at.0, at.1), state, temp, humid);
    var t := Insert(s, r);
    KeysAreTimesOfDay(at.0, at.1);
    KeysAreTimesOfDay(now.0, now.1);
    InsertKeepsWellFormed(s, r);
    IndexOfInsert(s, r);
    var i := IndexOf(t, r.key);
    KeysFollowTheClock(at, KeyOf(now.0, now.1));
    if i + 1 < |t| {
      assert RecOk(t[i + 1]);
      KeysFollowTheClock(ConKey(t[i + 1].key), KeyOf(now.0, now.1));
      KeysFollowTheClock(at, t[i + 1].key);
    }
    HoldsUntilNext(t, i, KeyOf(now.0, now.1));
  }

  lemma HoldsUntilNext(t: Sched, i: nat, m: int)
    requires Sorted(t) && i < |t|
    ensures t[i].key <= m && (i + 1 < |t| ==> m < t[i + 1].key) ==> DayState(t, m) == t[i].state
  {
    if t[i].key <= m && (i + 1 < |t| ==> m < t[i + 1].key) {
      FirstAfterIs(t, m, i + 1);
    }
  }

  // ----- schedule algebra -----

  /** A sorted schedule is determined by the records in it. */
  lemma {:induction false} SortedIsCanonical(a: Sched, b: Sched)
    requires Sorted(a) && Sorted(b) && forall r :: r in a <==> r in b
    ensures a == b
  {
    if b != [] {
      SomeMember(b, a);
    }
    if a != [] {
      SomeMember(a, b);
      HeadIsLeast(a, b);
      HeadIsLeast(b, a);
      assert a[0].key == b[0].key;
      assert a[0] in b;
      forall r
        ensures r in a[1..] <==> r in b[1..]
      {
        TailMembers(a, r);
        TailMembers(b, r);
      }
      SortedIsCanonical(a[1..], b[1..]);
      assert a == [a[0]] + a[1..] && b == [b[0]] + b[1..];
    }
  }

  lemma SomeMember(a: Sched, b: Sched)
    requires a != [] && forall r :: r in a ==> r in b
    ensures b != []
  {
    assert a[0] in b;
  }

  lemma HeadIsLeast(a: Sched, b: Sched)
    requires a != [] && b != [] && Sorted(b) && forall r :: r in a ==> r in b
    ensures b[0].key <= a[0].key && (b[0].key == a[0].key ==> b[0] == a[0])
  {
    assert a[0] in b;
    var i :| 0 <= i < |b| && b[i] == a[0];
  }

  lemma TailMembers(a: Sched, r: Rec)
    requires a != [] && Sorted(a)
    ensures r in a[1..] <==> r in a && r != a[0]
  {
    if r in a[1..] {
      var i :| 0 <= i < |a[1..]| && a[1..][i] == r;
      assert a[i + 1] == r && a[0].key < a[i + 1].key;
    }
    if r in a && r != a[0] {
      var i :| 0 <= i < |a| && a[i] == r;
      assert a[1..][i - 1] == r;
    }
  }

  lemma PutMembers(s: Sched, p: nat, r: Rec, q: Rec)
    requires p <= |s|
    ensures q in PutAt(s, p, r) <==> q == r || q in s
  {
    var t := PutAt(s, p, r);
    if q in t && q != r {
      var j :| 0 <= j < |t| && t[j] == q;
      assert q == if j < p then s[j] else s[j - 1];
    }
    if q in s {
      var j :| 0 <= j < |s| && s[j] == q;
      assert t[if j < p then j else j + 1] == q;
    }
  }

  lemma ReplaceMembers(s: Sched, i: nat, r: Rec, q: Rec)
    requires Sorted(s) && i < |s| && s[i].key == r.key
    ensures q in s[i := r] <==> q == r || (q in s && q.key != r.key)
  {
    var t := s[i := r];
    assert t[i] == r;
    if q in t && q != r {
      var j :| 0 <= j < |t| && t[j] == q;
      assert s[j] == q && j != i;
    }
    if q in s && q.key != r.key {
      var j :| 0 <= j < |s| && s[j] == q;
      assert t[j] == q;
    }
  }

  /** An insert replaces what had the key and keeps everything else. */
  lemma InsertMembers(s: Sched, r: Rec, q: Rec)
    requires Sorted(s)
    ensures q in Insert(s, r) <==> q == r || (q in s && q.key != r.key)
  {
    hide IndexOf;
    hide FirstAfter;
    hide PutAt;
    var i := IndexOf(s, r.key);
    if i == |s| {
      PutMembers(s, FirstAfter(s, r.key), r, q);
      assert q in s ==> q.key != r.key;
    } else {
      ReplaceMembers(s, i, r, q);
    }
  }

  function InsertAll(s: Sched, rs: seq<Rec>): Sched
    decreases |rs|
  {
    if rs == [] then s else InsertAll(Insert(s, rs[0]), rs[1..])
  }

  ghost predicate DistinctKeys(rs: seq<Rec>) {
    forall i, j :: 0 <= i < j < |rs| ==> rs[i].key != rs[j].key
  }

  /** Whether some record of `rs` replaces what `s` has at the key of `q`. */
  predicate Overrides(rs: seq<Rec>, q: Rec) {
    exists i :: 0 <= i < |rs| && rs[i].key == q.key
  }

  lemma {:induction false} InsertAllMembers(s: Sched, rs: seq<Rec>, q: Rec)
    requires Sorted(s) && DistinctKeys(rs)
    ensures Sorted(InsertAll(s, rs))
    ensures q in InsertAll(s, rs) <==> q in rs || (q in s && !Overrides(rs, q))
    decreases |rs|
  {
    if rs != [] {
      hide Sorted;
      hide Insert;
      hide Overrides;
      var r, rest := rs[0], rs[1..];
      InsertKeepsSorted(s, r);
      InsertAllMembers(Insert(s, r), rest, q);
      InsertMembers(s, r, q);
      assert rs == [r] + rest;
      OverridesCons(r, rest, q);
      NoneOverridesFirst(rs);
    }
  }

  lemma NoneOverridesFirst(rs: seq<Rec>)
    requires DistinctKeys(rs) && rs != []
    ensures !Overrides(rs[1..], rs[0])
  {
    assert forall i :: 0 <= i < |rs[1..]| ==> rs[1..][i] == rs[i + 1];
  }

  lemma OverridesCons(r: Rec, rest: seq<Rec>, q: Rec)
    ensures Overrides([r] + rest, q) <==> r.key == q.key || Overrides(rest, q)
  {
    var rs := [r] + rest;
    if Overrides(rest, q) {
      var i :| 0 <= i < |rest| && rest[i].key == q.key;
      assert rs[i + 1].key == q.key;
    }
    if r.key == q.key {
      assert rs[0].key == q.key;
    }
  }

  /** Inserting records with distinct keys gives the same schedule in whatever order they come. */
  lemma InsertionOrderDoesNotMatter(s: Sched, a: seq<Rec>, b: seq<Rec>)
    requires Sorted(s) && DistinctKeys(a) && DistinctKeys(b) && multiset(a) == multiset(b)
    ensures InsertAll(s, a) == InsertAll(s, b)
  {
    assert forall q :: q in a <==> q in multiset(a);
    assert forall q :: q in b <==> q in multiset(b);
    InsertAllMembers(s, a, Rec(0, 0, 0, 0));
    InsertAllMembers(s, b, Rec(0, 0, 0, 0));
    forall q
      ensures q in InsertAll(s, a) <==> q in InsertAll(s, b)
    {
      InsertAllMembers(s, a, q);
      InsertAllMembers(s, b, q);
      SameOverrides(a, b, q);
      SameOverrides(b, a, q);
    }
    SortedIsCanonical(InsertAll(s, a), InsertAll(s, b));
  }

  lemma SameOverrides(a: seq<Rec>, b: seq<Rec>, q: Rec)
    requires forall r :: r in a ==> r in b
    ensures Overrides(a, q) ==> Overrides(b, q)
  {
    if Overrides(a, q) {
      var i :| 0 <= i < |a| && a[i].key == q.key;
      assert a[i] in b;
      var j :| 0 <= j < |b| && b[j] == a[i];
    }
  }

  /** Every insert of the list finds room or an old key when its turn comes. */
  predicate NeverRefused(s: Sched, rs: seq<Rec>)
    decreases |rs|
  {
    rs == [] || (!Full(s, rs[0].key) && NeverRefused(Insert(s, rs[0]), rs[1..]))
  }

  lemma {:induction false} InsertsThatFitAreNeverRefused(s: Sched, rs: seq<Rec>)
    requires WellFormed(s) && |s| + |rs| <= MAX_SCHEDULE_RECS && forall i :: 0 <= i < |rs| ==> RecOk(rs[i])
    ensures NeverRefused(s, rs) && WellFormed(InsertAll(s, rs))
    decreases |rs|
  {
    if rs != [] {
      InsertKeepsWellFormed(s, rs[0]);
      InsertsThatFitAreNeverRefused(Insert(s, rs[0]), rs[1..]);
    }
  }

  lemma SameMembers(a: seq<Rec>, b: seq<Rec>)
    requires multiset(a) == multiset(b)
    ensures |a| == |b| && forall q :: q in b <==> q in a
  {
    assert |multiset(a)| == |a| && |multiset(b)| == |b|;
    assert forall q :: q in b <==> q in multiset(b);
    assert forall q :: q in a <==> q in multiset(a);
  }

  /** Records with distinct keys for which there is room (50 for an empty buffer) can be entered in any
      order: none is refused and the result is always the same schedule. */
  lemma KeysThatFitInAnyOrder(s: Sched, a: seq<Rec>, b: seq<Rec>)
    requires WellFormed(s) && DistinctKeys(a) && DistinctKeys(b) && multiset(a) == multiset(b)
    requires |s| + |a| <= MAX_SCHEDULE_RECS && forall i :: 0 <= i < |a| ==> RecOk(a[i])
    ensures NeverRefused(s, a) && NeverRefused(s, b)
    ensures InsertAll(s, a) == InsertAll(s, b) && WellFormed(InsertAll(s, a))
  {
    SameMembers(a, b);
    assert forall i :: 0 <= i < |b| ==> b[i] in a;
    InsertsThatFitAreNeverRefused(s, a);
    InsertsThatFitAreNeverRefused(s, b);
    InsertionOrderDoesNotMatter(s, a, b);
  }

  /** Deleting a freshly inserted key restores the previous records exactly. */
  lemma RemoveUndoesInsert(s: Sched, r: Rec)
    requires Sorted(s) && IndexOf(s, r.key) == |s|
    ensures Remove(Insert(s, r), r.key) == s
  {
    hide IndexOf;
    hide FirstAfter;
    IndexOfInsert(s, r);
    DropUndoesPut(s, FirstAfter(s, r.key), r);
  }

  lemma DropUndoesPut(s: Sched, p: nat, r: Rec)
    requires p <= |s|
    ensures DropAt(PutAt(s, p, r), p) == s
  {
  }
}
