/** The template buffer and the routines of `sch.c` that read or edit it in place. */
module Templates {
  import opened Schedule

  /** Search for a key: the record number, or -1. As written the loop always looks at record 0. */
  method FindTmplKey(t: Sched, hour: int, minute: int) returns (hit: int)
    ensures hit == FoundKey(t, hour * 60 + minute)
  {
    var key := hour * 60 + minute;
    var i := 0;
    while i < |t|
      invariant 0 <= i <= |t|
      invariant i > 0 ==> t[0].key != key
    {
      if t[0].key == key {
        return i;
      }
      i := i + 1;
    }
    return -1;
  }

  function FoundKey(t: Sched, key: int): int {
    if t != [] && t[0].key == key then 0 else -1
  }

  /** The search its comment promises: the record number of a match, or -1 if there is none. */
  predicate IsSearchResult(t: Sched, key: int, hit: int) {
    if HasKey(t, key) then 0 <= hit < |t| && t[hit].key == key else hit == -1
  }

  /** The code keeps that promise exactly when the key is absent or is the first one. */
  lemma FindTmplKeyIsASearchIffFirstOrAbsent(t: Sched, key: int)
    ensures IsSearchResult(t, key, FoundKey(t, key)) <==> (IndexOf(t, key) == 0 || IndexOf(t, key) == |t|)
  {
    if HasKey(t, key) {
      var i :| 0 <= i < |t| && t[i].key == key;
    } else {
      assert IndexOf(t, key) == |t|;
    }
  }

  lemma FindTmplKeyMissesTheSecondRecord()
    ensures var t := [Rec(60, 1, 20, 0), Rec(780, 0, 15, 0)];
            HasKey(t, 780) && FoundKey(t, 780) == -1
  {
    var t := [Rec(60, 1, 20, 0), Rec(780, 0, 15, 0)];
    assert t[1].key == 780;
  }

  /** State for a time of day. The ghost result reports that the search fell through to the last `return 0`. */
  method TestSchTime(key: int, t: Sched) returns (state: int, ghost fellThrough: bool)
    ensures Sorted(t) ==> state == DayState(t, key)
    ensures Sorted(t) ==> !fellThrough
  {
    fellThrough := false;
    if |t| == 0 {
      return 0, false;
    }
    if |t| == 1 {
      return t[0].state, false;
    }
    if |t| == 2 {
      if key == t[0].key { return t[0].state, false; }
      if key == t[1].key { return t[1].state, false; }
      if key > t[1].key { return t[1].state, false; }
      if key < t[0].key { return t[1].state, false; }
      return t[0].state, false;
    }
    var i := 0;
    while i < |t|
      invariant 0 <= i <= |t|
      invariant forall j :: 0 <= j < i ==> t[j].key != key
    {
      if t[i].key == key {
        KeyGoverns(t, key, i);
        return t[i].state, false;
      }
      i := i + 1;
    }
    if key < t[0].key {
      return t[|t| - 1].state, false;
    }
    if key > t[|t| - 1].key {
      KeyGoverns(t, key, |t| - 1);
      return t[|t| - 1].state, false;
    }
    i := 0;
    while i < |t| - 1
      invariant 0 <= i <= |t| - 1
      invariant Sorted(t) ==> t[i].key < key
    {
      if key > t[i].key && key < t[i + 1].key {
        KeyGoverns(t, key, i);
        return t[i].state, false;
      }
      if key < t[i].key && i == |t| - 1 {
        assert false; // the code answers with record i - 1 here, but i stops short of the last record
      }
      i := i + 1;
    }
    return 0, true;
  }

  lemma KeyGoverns(t: Sched, key: int, i: nat)
    requires i < |t| && t[i].key <= key && (i + 1 < |t| ==> key < t[i + 1].key || t[i].key == key)
    ensures Sorted(t) ==> DayState(t, key) == t[i].state
  {
    if Sorted(t) {
      FirstAfterIs(t, key, i + 1);
    }
  }

  class Template {
    const rec: array<Rec>
    var rcnt: int

    ghost predicate Valid()
      reads this
    {
      rec.Length == MAX_SCHEDULE_RECS + 1 && 0 <= rcnt <= MAX_SCHEDULE_RECS
    }

    ghost function Contents(): Sched
      requires Valid()
      reads this, rec
    {
      rec[..rcnt]
    }

    constructor ()
      ensures Valid() && Contents() == [] && fresh(rec)
    {
      rec := new Rec[MAX_SCHEDULE_RECS + 1](_ => Rec(0, 0, 0, 0));
      rcnt := 0;
    }

    /** Delete a record; 0 when it was there, 1 when not. */
    method DelTmplRec(hour: int, minute: int) returns (rc: int)
      requires Valid()
      modifies this, rec
      ensures Valid() && Contents() == Remove(old(Contents()), hour * 60 + minute)
      ensures rc == if HasKey(old(Contents()), hour * 60 + minute) then 0 else 1
    {
      var key := hour * 60 + minute;
      ghost var s := Contents();
      if rcnt == 1 {
        if rec[0].key == key {
          rcnt := 0;
          assert s[0].key == key;
          return 0;
        }
      }
      var i := 0;
      while i < rcnt
        invariant 0 <= i <= rcnt && Contents() == s
        invariant forall j :: 0 <= j < i ==> s[j].key != key
      {
        if rec[i].key == key {
          assert s[i].key == key && IndexOf(s, key) == i;
          CloseGap(i);
          return 0;
        }
        i := i + 1;
      }
      assert IndexOf(s, key) == |s|;
      return 1;
    }

    /** The inner loop of `del_tmpl_rec`: the records behind position `i` move down over it. */
    method CloseGap(i: int)
      requires Valid() && 0 <= i < rcnt
      modifies this`rcnt, rec
      ensures Valid() && Contents() == DropAt(old(Contents()), i)
    {
      ghost var s := Contents();
      var ii := i;
      while ii < rcnt - 1
        invariant i <= ii <= rcnt - 1 && rcnt == |s|
        invariant forall j :: 0 <= j < i ==> rec[j] == s[j]
        invariant forall j :: i <= j < ii ==> rec[j] == s[j + 1]
        invariant forall j :: ii < j < rcnt ==> rec[j] == s[j]
      {
        rec[ii] := rec[ii + 1];
        ii := ii + 1;
      }
      rcnt := rcnt - 1;
    }

    /** The shift that opens position `i`. Its last pass writes a cell the caller overwrites next;
        only that pass's read below the array (at i == 0) is skipped. */
    method MoveRecordsUp(i: int)
      requires Valid() && 0 <= i < rcnt < MAX_SCHEDULE_RECS
      modifies rec
      ensures forall j :: 0 <= j < i ==> rec[j] == old(rec[j])
      ensures forall j :: i < j <= rcnt ==> rec[j] == old(rec[j - 1])
    {
      var ii := rcnt;
      while ii >= i
        invariant i - 1 <= ii <= rcnt
        invariant forall j :: 0 <= j < i || (i <= j <= ii && j < rcnt) ==> rec[j] == old(rec[j])
        invariant forall j :: i < j && ii < j <= rcnt ==> rec[j] == old(rec[j - 1])
      {
        if ii > 0 {
          rec[ii] := rec[ii - 1];
        }
        ii := ii - 1;
      }
    }

    method PutRec(i: int, hrec: Rec)
      requires Valid() && 0 <= i < rcnt < MAX_SCHEDULE_RECS
      modifies this`rcnt, rec
      ensures Valid() && Contents() == PutAt(old(Contents()), i, hrec)
    {
      MoveRecordsUp(i);
      rec[i] := hrec;
      rcnt := rcnt + 1;
    }

    /** Add a record or update the one with that key; 1 when there is no room, and then nothing changes. */
    method AddTmplRec(hour: int, minute: int, state: int, temp: int, humid: int) returns (rc: int)
      requires Valid()
      modifies this, rec
      ensures Valid()
      ensures var s, r := old(Contents()), Rec(hour * 60 + minute, state, temp, humid);
              if Full(s, r.key) then rc == 1 && Contents() == s else rc == 0 && Contents() == Insert(s, r)
    {
      var key := hour * 60 + minute;
      ghost var s := Contents();
      var i := 0;
      while i < rcnt
        invariant 0 <= i <= rcnt && Contents() == s
        invariant forall j :: 0 <= j < i ==> s[j].key != key
      {
        if rec[i].key == key {
          assert s[i].key == key && IndexOf(s, key) == i;
          rec[i] := rec[i].(state := state);
          rec[i] := rec[i].(temp := temp);
          rec[i] := rec[i].(humid := humid);
          assert Contents() == s[i := Rec(key, state, temp, humid)];
          return 0;
        }
        i := i + 1;
      }
      assert IndexOf(s, key) == |s|;
      if rcnt + 1 > MAX_SCHEDULE_RECS {
        return 1;
      }
      InsertNewRec(Rec(key, state, temp, humid));
      return 0;
    }

    /** The second half of `add_tmpl_rec`: put a record with a new key into its place. */
    method InsertNewRec(hrec: Rec)
      requires Valid() && rcnt < MAX_SCHEDULE_RECS && IndexOf(Contents(), hrec.key) == rcnt
      modifies this, rec
      ensures Valid() && Contents() == Insert(old(Contents()), hrec)
    {
      hide IndexOf;
      hide FirstAfter;
      ghost var s := Contents();
      if rcnt == 0 {
        rec[0] := hrec;
        rcnt := rcnt + 1;
        assert Contents() == PutAt(s, 0, hrec);
        return;
      }
      var i := 0;
      while i < rcnt
        invariant 0 <= i <= rcnt && Contents() == s && rcnt == |s|
        invariant forall j :: 0 <= j < i ==> s[j].key <= hrec.key
      {
        if rec[i].key > hrec.key {
          FirstAfterIs(s, hrec.key, i);
          PutRec(i, hrec);
          return;
        }
        i := i + 1;
      }
      FirstAfterIs(s, hrec.key, |s|);
      rcnt := rcnt + 1;
      rec[rcnt - 1] := hrec;
      assert Contents() == PutAt(s, |s|, hrec);
    }
  }
}
