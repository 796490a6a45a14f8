/** One day's schedule as the controller keeps it: records sorted by minute of day.

    The sequence functions below say what the in-place routines of `sch.c` compute (class
    `Template` proves that); `DayState` says what a schedule means. */
module Schedule {
  const MAX_SCHEDULE_RECS := 50
  const MINUTES_PER_DAY := 1440

  /** `temp` and `humid` are floats that are only ever assigned from integers. */
  datatype Rec = Rec(key: int, state: int, temp: int, humid: int)

  type Sched = seq<Rec>

  function KeyOf(hour: int, minute: int): int {
    hour * 60 + minute
  }

  /** `con_key`: the time of day of a key. */
  function ConKey(key: nat): (int, int) {
    (key / 60, key % 60)
  }

  /** A key is the time of day it was made from, and later times have later keys. */
  lemma KeysAreTimesOfDay(h: int, m: int)
    requires 0 <= h <= 23 && 0 <= m <= 59
    ensures 0 <= KeyOf(h, m) < MINUTES_PER_DAY && ConKey(KeyOf(h, m)) == (h, m)
  {
    assert (h * 60 + m) / 60 == h;
  }

  ghost predicate Sorted(s: Sched) {
    forall i, j :: 0 <= i < j < |s| ==> s[i].key < s[j].key
  }

  predicate RecOk(r: Rec) {
    0 <= r.key < MINUTES_PER_DAY && (r.state == 0 || r.state == 1)
  }

  ghost predicate WellFormed(s: Sched) {
    Sorted(s) && |s| <= MAX_SCHEDULE_RECS && forall i :: 0 <= i < |s| ==> RecOk(s[i])
  }

  predicate HasKey(s: Sched, k: int) {
    exists i :: 0 <= i < |s| && s[i].key == k
  }

  /** Position of the first record with key `k`, or the length when there is none. */
  function IndexOf(s: Sched, k: int): (i: nat)
    ensures i <= |s| && (i < |s| ==> s[i].key == k)
    ensures forall j :: 0 <= j < i ==> s[j].key != k
  {
    if s == [] || s[0].key == k then 0 else 1 + IndexOf(s[1..], k)
  }

  /** Position of the first record later than minute `m`, or the length when there is none. */
  function FirstAfter(s: Sched, m: int): (i: nat)
    ensures i <= |s| && (i < |s| ==> m < s[i].key)
    ensures forall j :: 0 <= j < i ==> s[j].key <= m
  {
    if s == [] || s[0].key > m then 0 else 1 + FirstAfter(s[1..], m)
  }

  /** The sequence with `r` put before position `p`. */
  function PutAt(s: Sched, p: nat, r: Rec): (t: Sched)
    requires p <= |s|
    ensures |t| == |s| + 1 && t[p] == r
    ensures forall j :: 0 <= j < p ==> t[j] == s[j]
    ensures forall j :: p < j < |t| ==> t[j] == s[j - 1]
  {
    s[..p] + [r] + s[p..]
  }

  /** The sequence without position `i`. */
  function DropAt(s: Sched, i: nat): (t: Sched)
    requires i < |s|
    ensures |t| == |s| - 1
    ensures forall j :: 0 <= j < i ==> t[j] == s[j]
    ensures forall j :: i <= j < |t| ==> t[j] == s[j + 1]
  {
    s[..i] + s[i + 1..]
  }

  function Insert(s: Sched, r: Rec): Sched {
    var i := IndexOf(s, r.key);
    if i < |s| then s[i := r]
    else PutAt(s, FirstAfter(s, r.key), r)
  }

  function Remove(s: Sched, k: int): Sched {
    var i := IndexOf(s, k);
    if i < |s| then DropAt(s, i) else s
  }

  /** Whether an insertion is refused: a new key and no room. */
  predicate Full(s: Sched, k: int) {
    IndexOf(s, k) == |s| && |s| >= MAX_SCHEDULE_RECS
  }

  /** The record in force at minute `m`: the latest one at or before `m`, else the last of the day. */
  function Governing(s: Sched, m: int): (i: nat)
    requires s != []
    ensures i < |s|
  {
    var p := FirstAfter(s, m);
    if p == 0 then |s| - 1 else p - 1
  }

  /** The meaning of a schedule: a cyclic step function over the day, off when empty. */
  function DayState(s: Sched, m: int): int {
    if s == [] then 0 else s[Governing(s, m)].state
  }

  // ----- the step function, independently of search order -----

  /** Minutes from `k` forward to `m` on the clock face. */
  function Dist(k: int, m: int): int {
    if k <= m then m - k else m - k + MINUTES_PER_DAY
  }

  /** Minute `m` lies on the arc that starts at `a` and ends just before `b`; the whole day if a == b. */
  predicate OnArc(a: int, b: int, m: int) {
    if a < b then a <= m < b else a <= m || m < b
  }

  /** The cyclic successor and predecessor of position `i` among `n`. */
  function After(i: nat, n: nat): nat {
    if i + 1 < n then i + 1 else 0
  }

  function Before(i: nat, n: nat): int {
    if 0 < i then i - 1 else n - 1
  }

  /** The governing record is exactly the one whose key lies the fewest minutes back on the clock. */
  lemma GoverningIsCyclicallyNearest(s: Sched, m: int, i: nat)
    requires WellFormed(s) && 0 <= m < MINUTES_PER_DAY && i < |s|
    ensures Governing(s, m) == i <==> forall j :: 0 <= j < |s| ==> Dist(s[i].key, m) <= Dist(s[j].key, m)
  {
    var g := Governing(s, m);
    assert forall j :: 0 <= j < |s| && j != g ==> Dist(s[g].key, m) < Dist(s[j].key, m) by {
      forall j | 0 <= j < |s| && j != g
        ensures Dist(s[g].key, m) < Dist(s[j].key, m)
      {
        assert RecOk(s[j]) && RecOk(s[g]);
        var p := FirstAfter(s, m);
        if p != 0 && j >= p {
          assert s[p].key <= s[j].key;
        }
      }
    }
  }

  /** Each record governs exactly the arc from its own key to the next one. */
  lemma GoverningArc(s: Sched, m: int, i: nat)
    requires WellFormed(s) && 0 <= m < MINUTES_PER_DAY && i < |s|
    ensures Governing(s, m) == i <==> OnArc(s[i].key, s[After(i, |s|)].key, m)
  {
    var p := FirstAfter(s, m);
    assert 0 < i ==> s[0].key < s[i].key;
  }

  // ----- what an edit keeps -----

  lemma FirstAfterIs(s: Sched, m: int, p: nat)
    requires p <= |s| && (forall j :: 0 <= j < p ==> s[j].key <= m) && (p < |s| ==> m < s[p].key)
    ensures FirstAfter(s, m) == p
  {
    var q := FirstAfter(s, m);
    if q < p {
      assert false;
    }
  }

  lemma IndexOfIs(s: Sched, k: int, i: nat)
    requires Sorted(s) && i < |s| && s[i].key == k
    ensures IndexOf(s, k) == i
  {
    var q := IndexOf(s, k);
    if q < i {
      assert false;
    }
  }

  lemma PutBetweenSorted(s: Sched, p: nat, r: Rec)
    requires Sorted(s) && p <= |s|
    requires forall j :: 0 <= j < p ==> s[j].key < r.key
    requires forall j :: p <= j < |s| ==> r.key < s[j].key
    ensures Sorted(PutAt(s, p, r))
  {
    hide PutAt;
    var t := PutAt(s, p, r);
    forall x, y | 0 <= x < y < |t|
      ensures t[x].key < t[y].key
    {
      if x < p {
        assert t[x] == s[x];
      } else if x > p {
        assert t[x] == s[x - 1] && t[y] == s[y - 1];
      }
    }
  }

  lemma PutAtSorted(s: Sched, p: nat, r: Rec)
    requires Sorted(s) && p == FirstAfter(s, r.key) && IndexOf(s, r.key) == |s|
    ensures Sorted(PutAt(s, p, r))
  {
    hide IndexOf;
    hide FirstAfter;
    forall j | p <= j < |s|
      ensures r.key < s[j].key
    {
      assert s[p].key <= s[j].key;
    }
    PutBetweenSorted(s, p, r);
  }

  lemma InsertKeepsSorted(s: Sched, r: Rec)
    requires Sorted(s)
    ensures Sorted(Insert(s, r))
  {
    var i := IndexOf(s, r.key);
    if i == |s| {
      PutAtSorted(s, FirstAfter(s, r.key), r);
    }
  }

  /** Where the inserted record ends up. */
  lemma IndexOfInsert(s: Sched, r: Rec)
    requires Sorted(s)
    ensures var i := IndexOf(Insert(s, r), r.key);
            i == (if IndexOf(s, r.key) == |s| then FirstAfter(s, r.key) else IndexOf(s, r.key)) &&
            i < |Insert(s, r)| && Insert(s, r)[i] == r
  {
    InsertKeepsSorted(s, r);
    var i := IndexOf(s, r.key);
    IndexOfIs(Insert(s, r), r.key, if i == |s| then FirstAfter(s, r.key) else i);
  }

  lemma InsertKeepsWellFormed(s: Sched, r: Rec)
    requires WellFormed(s) && RecOk(r) && !Full(s, r.key)
    ensures WellFormed(Insert(s, r))
  {
    InsertKeepsSorted(s, r);
  }

  lemma RemoveKeepsWellFormed(s: Sched, k: int)
    requires WellFormed(s)
    ensures WellFormed(Remove(s, k)) && !HasKey(Remove(s, k), k)
  {
  }

  // ----- edit locality -----

  /** A successful insert at key k gives the new state to exactly the arc from k to the next key
      and leaves every other minute of the day as it was. */
  lemma InsertIsLocal(s: Sched, r: Rec, m: int)
    requires WellFormed(s) && RecOk(r) && !Full(s, r.key) && 0 <= m < MINUTES_PER_DAY
    ensures var t, i := Insert(s, r), IndexOf(Insert(s, r), r.key);
            i < |t| &&
            DayState(t, m) == if OnArc(r.key, t[After(i, |t|)].key, m) then r.state else DayState(s, m)
  {
    var t := Insert(s, r);
    IndexOfInsert(s, r);
    InsertKeepsWellFormed(s, r);
    var i := IndexOf(t, r.key);
    GoverningArc(t, m, i);
    if Governing(t, m) != i {
      InsertMovesNoOther(s, r, m);
    }
  }

  lemma InsertMovesNoOther(s: Sched, r: Rec, m: int)
    requires Sorted(s) && Governing(Insert(s, r), m) != IndexOf(Insert(s, r), r.key)
    ensures DayState(Insert(s, r), m) == DayState(s, m)
  {
    IndexOfInsert(s, r);
    if IndexOf(s, r.key) == |s| {
      PutMovesOthers(s, r, m);
    } else {
      FirstAfterIs(Insert(s, r), m, FirstAfter(s, m));
    }
  }

  lemma PutFirstAfter(s: Sched, r: Rec, m: int)
    requires Sorted(s) && IndexOf(s, r.key) == |s|
    ensures FirstAfter(PutAt(s, FirstAfter(s, r.key), r), m) == FirstAfter(s, m) + if r.key <= m then 1 else 0
  {
    hide FirstAfter;
    hide IndexOf;
    hide PutAt;
    var i, p := FirstAfter(s, r.key), FirstAfter(s, m);
    var t := PutAt(s, i, r);
    if r.key <= m {
      assert i <= p;
      FirstAfterIs(t, m, p + 1);
    } else {
      assert p <= i;
      FirstAfterIs(t, m, p);
    }
  }

  lemma PutMovesOthers(s: Sched, r: Rec, m: int)
    requires Sorted(s) && IndexOf(s, r.key) == |s|
    requires Governing(PutAt(s, FirstAfter(s, r.key), r), m) != FirstAfter(s, r.key)
    ensures DayState(PutAt(s, FirstAfter(s, r.key), r), m) == DayState(s, m)
  {
    hide FirstAfter;
    hide IndexOf;
    hide PutAt;
    var i, p := FirstAfter(s, r.key), FirstAfter(s, m);
    var t := PutAt(s, i, r);
    PutFirstAfter(s, r, m);
    if r.key <= m {
      assert i <= p && Governing(t, m) == p;
    } else {
      assert p <= i && Governing(t, m) == if p == 0 then |s| else p - 1;
    }
  }

  /** A delete gives the arc of the deleted record to its cyclic predecessor (to "off" when the
      schedule becomes empty) and leaves every other minute as it was. */
  lemma RemoveIsLocal(s: Sched, k: int, m: int)
    requires WellFormed(s) && IndexOf(s, k) < |s| && 0 <= m < MINUTES_PER_DAY
    ensures var n, i := |s|, IndexOf(s, k);
            DayState(Remove(s, k), m) ==
            if !OnArc(k, s[After(i, n)].key, m) then DayState(s, m)
            else if n == 1 then 0
            else s[Before(i, n)].state
  {
    var n, i := |s|, IndexOf(s, k);
    GoverningArc(s, m, i);
    if n > 1 {
      DropGoverning(s, i, m);
    }
  }

  lemma DropGoverning(s: Sched, i: nat, m: int)
    requires Sorted(s) && i < |s| && |s| > 1
    ensures DayState(DropAt(s, i), m) ==
            if Governing(s, m) != i then DayState(s, m) else s[Before(i, |s|)].state
  {
    hide FirstAfter;
    hide DropAt;
    DropFirstAfter(s, i, m);
  }

  lemma DropFirstAfter(s: Sched, i: nat, m: int)
    requires Sorted(s) && i < |s|
    ensures FirstAfter(DropAt(s, i), m) == if i < FirstAfter(s, m) then FirstAfter(s, m) - 1 else FirstAfter(s, m)
  {
    hide FirstAfter;
    hide DropAt;
    var p, t := FirstAfter(s, m), DropAt(s, i);
    if i >= p {
      assert p < |t| ==> t[p].key >= s[p].key;
    }
    FirstAfterIs(t, m, if i < p then p - 1 else p);
  }
}
