/** Which channels follow which sensor: the per-sensor channel lists (`list_maint.c`) that routines 18 and
    49 of the command machine keep as an inverse of the channels' own sensor numbers. */
module SensorIndex {
  import opened SharedData

  const BYTES_PER_INT := 4
  /** The capacity check is given the array's size in bytes. */
  const LIST_BYTES := NUMBER_OF_CHANNELS * BYTES_PER_INT

  // ----- one list -----

  function Removed(s: seq<int>, v: int): seq<int> {
    if s == [] then [] else if s[0] == v then s[1..] else [s[0]] + Removed(s[1..], v)
  }

  function Added(s: seq<int>, v: int): seq<int> {
    if v in s || (s != [] && |s| + 1 >= LIST_BYTES) then s else s + [v]
  }

  lemma {:induction false} RemovedAt(s: seq<int>, v: int, i: nat)
    requires i <= |s| && (i < |s| ==> s[i] == v) && forall j :: 0 <= j < i ==> s[j] != v
    ensures Removed(s, v) == if i < |s| then s[..i] + s[i + 1..] else s
    decreases i
  {
    if i > 0 {
      RemovedAt(s[1..], v, i - 1);
      assert Removed(s, v) == [s[0]] + Removed(s[1..], v);
      assert s[1..][..i - 1] == s[1..i] && [s[0]] + s[1..i] == s[..i];
      assert i < |s| ==> s[1..][i..] == s[i + 1..];
    }
  }

  predicate Distinct(s: seq<int>) {
    forall i, j :: 0 <= i < j < |s| ==> s[i] != s[j]
  }

  lemma {:induction false} RemovedMembers(s: seq<int>, v: int)
    requires Distinct(s)
    ensures Distinct(Removed(s, v)) && forall x :: x in Removed(s, v) <==> x in s && x != v
  {
    if s != [] {
      var t := s[1..];
      assert s == [s[0]] + t;
      assert s[0] !in t by {
        assert forall i :: 0 <= i < |t| ==> t[i] == s[i + 1];
      }
      RemovedMembers(t, v);
    }
  }

  /** A duplicate-free list of channels fits the array, whatever the capacity check says. */
  lemma {:induction false} Pigeonhole(s: seq<int>, n: nat)
    requires Distinct(s) && forall x :: x in s ==> 0 <= x < n
    ensures |s| <= n
    decreases n
  {
    if s != [] {
      assert s[0] in s;
      RemovedMembers(s, n - 1);
      RemovedLength(s, n - 1);
      Pigeonhole(Removed(s, n - 1), n - 1);
    }
  }

  lemma {:induction false} RemovedLength(s: seq<int>, v: int)
    ensures |Removed(s, v)| == if v in s then |s| - 1 else |s|
  {
    if s != [] && s[0] != v {
      RemovedLength(s[1..], v);
    }
  }

  class SensorList {
    const channel: array<int>
    var index: int

    ghost predicate Valid()
      reads this
    {
      channel.Length == NUMBER_OF_CHANNELS && 0 <= index <= channel.Length
    }

    ghost function View(): seq<int>
      requires Valid()
      reads this, channel
    {
      channel[..index]
    }

    constructor ()
      ensures Valid() && View() == [] && fresh(channel)
    {
      channel := new int[NUMBER_OF_CHANNELS](_ => 0);
      index := 0;
    }

    method DelElm(value: int)
      requires Valid()
      modifies this, channel
      ensures Valid() && View() == Removed(old(View()), value)
    {
      ghost var s := View();
      var i := 0;
      while i < index
        invariant 0 <= i <= index == |s| && View() == s
        invariant forall j :: 0 <= j < i ==> s[j] != value
      {
        if channel[i] == value {
          CloseGap(i);
          RemovedAt(s, value, i);
          return;
        }
        i := i + 1;
      }
      RemovedAt(s, value, i);
    }

    /** Move the elements behind position `i` down over it. */
    method CloseGap(i: int)
      requires Valid() && 0 <= i < index
      modifies this, channel
      ensures Valid() && View() == old(View())[..i] + old(View())[i + 1..]
    {
      ghost var s := View();
      var elm := i;
      while elm < index - 1
        invariant i <= elm <= index - 1 && index == |s|
        invariant forall j :: 0 <= j < i || elm <= j < index ==> channel[j] == s[j]
        invariant forall j :: i <= j < elm ==> channel[j] == s[j + 1]
      {
        channel[elm] := channel[elm + 1];
        elm := elm + 1;
      }
      index := index - 1;
    }

    method AddElm(value: int)
      requires Valid() && (index < channel.Length || value in View())
      modifies this, channel
      ensures Valid() && View() == Added(old(View()), value)
    {
      ghost var s := View();
      if index == 0 {
        channel[0] := value;
        index := index + 1;
        return;
      }
      var i := 0;
      while i < index
        invariant 0 <= i <= index == |s| && View() == s && value !in s[..i]
      {
        if channel[i] == value {
          assert s[i] == value;
          return;
        }
        i := i + 1;
      }
      assert s[..i] == s;
      if index + 1 < LIST_BYTES {
        channel[index] := value;
        index := index + 1;
      }
    }
  }

  // ----- all lists -----

  /** The lists, the assignment they are the inverse of, and the update flag that both routines raise. */
  datatype Index = Index(lists: seq<seq<int>>, hasSensor: seq<bool>, sensorId: seq<int>, force: int)

  function ZeroIndex(): Index {
    Index(seq(NUMBER_OF_SENSORS, _ => []), seq(NUMBER_OF_CHANNELS, _ => false), seq(NUMBER_OF_CHANNELS, _ => 0), 0)
  }

  ghost predicate Shaped(ix: Index) {
    |ix.lists| == NUMBER_OF_SENSORS && |ix.hasSensor| == |ix.sensorId| == NUMBER_OF_CHANNELS
  }

  /** List `s` is duplicate-free and has exactly the channels that are assigned to sensor `s`. */
  ghost predicate ListOk(ix: Index, s: int)
    requires Shaped(ix) && 0 <= s < NUMBER_OF_SENSORS
  {
    Distinct(ix.lists[s]) &&
    forall c :: c in ix.lists[s] <==> IsChannel(c) && ix.hasSensor[c] && ix.sensorId[c] == s
  }

  /** The lists are exactly the inverse of the assignment. */
  ghost predicate Inverse(ix: Index) {
    Shaped(ix) && forall s :: 0 <= s < NUMBER_OF_SENSORS ==> ListOk(ix, s)
  }

  function RemoveEverywhere(lists: seq<seq<int>>, c: int): seq<seq<int>> {
    seq(|lists|, s requires 0 <= s < |lists| => Removed(lists[s], c))
  }

  /** c_18 */
  function Unassign(ix: Index, c: int): Index
    requires 0 <= c < |ix.hasSensor|
  {
    ix.(lists := RemoveEverywhere(ix.lists, c), hasSensor := ix.hasSensor[c := false], force := 1)
  }

  /** c_49 */
  function Assign(ix: Index, c: int, s: int): Index
    requires 0 <= c < |ix.hasSensor| && c < |ix.sensorId| && 0 <= s < |ix.lists|
  {
    var cleared := RemoveEverywhere(ix.lists, c);
    Index(cleared[s := Added(cleared[s], c)], ix.hasSensor[c := true], ix.sensorId[c := s], 1)
  }

  datatype Call = C18(channel: int) | C49(channel: int, sensor: int)

  predicate CallOk(k: Call) {
    IsChannel(k.channel) && (k.C49? ==> 0 <= k.sensor < NUMBER_OF_SENSORS)
  }

  function Perform(k: Call, ix: Index): (after: Index)
    requires Shaped(ix) && CallOk(k)
    ensures Shaped(after)
  {
    match k
    case C18(c) => Unassign(ix, c)
    case C49(c, s) => Assign(ix, c, s)
  }

  lemma RemovedFrom(ix: Index, c: int, s: int)
    requires Inverse(ix) && 0 <= s < NUMBER_OF_SENSORS
    ensures var l := RemoveEverywhere(ix.lists, c)[s];
            Distinct(l) && c !in l && forall x :: x in l <==> x in ix.lists[s] && x != c
  {
    assert ListOk(ix, s);
    RemovedMembers(ix.lists[s], c);
  }

  /** No list outgrows its sixteen cells. */
  lemma ListsFit(ix: Index, s: int)
    requires Inverse(ix) && 0 <= s < NUMBER_OF_SENSORS
    ensures |ix.lists[s]| <= NUMBER_OF_CHANNELS
  {
    assert ListOk(ix, s);
    Pigeonhole(ix.lists[s], NUMBER_OF_CHANNELS);
  }

  /** When a channel is added, a cell is free: the other channels take at most fifteen. */
  lemma RoomForOneMore(l: seq<int>, c: int)
    requires Distinct(l) && c !in l && IsChannel(c) && forall x :: x in l ==> IsChannel(x)
    ensures |l| < NUMBER_OF_CHANNELS
  {
    Pigeonhole(l + [c], NUMBER_OF_CHANNELS);
  }

  lemma UnassignedList(ix: Index, c: int, s: int)
    requires Inverse(ix) && IsChannel(c) && 0 <= s < NUMBER_OF_SENSORS
    ensures ListOk(Unassign(ix, c), s)
  {
    assert ListOk(ix, s);
    RemovedFrom(ix, c, s);
  }

  lemma UnassignKeepsInverse(ix: Index, c: int)
    requires Inverse(ix) && IsChannel(c)
    ensures Inverse(Unassign(ix, c))
  {
    forall s | 0 <= s < NUMBER_OF_SENSORS
      ensures ListOk(Unassign(ix, c), s)
    {
      UnassignedList(ix, c, s);
    }
  }

  lemma AddedMembers(l: seq<int>, c: int)
    requires Distinct(l) && c !in l && |l| < NUMBER_OF_CHANNELS
    ensures Added(l, c) == l + [c] && Distinct(l + [c]) && forall x :: x in l + [c] <==> x in l || x == c
  {
  }

  lemma RoomToAssign(ix: Index, c: int, s: int)
    requires Inverse(ix) && IsChannel(c) && 0 <= s < NUMBER_OF_SENSORS
    ensures |RemoveEverywhere(ix.lists, c)[s]| < NUMBER_OF_CHANNELS
  {
    assert ListOk(ix, s);
    RemovedFrom(ix, c, s);
    RoomForOneMore(RemoveEverywhere(ix.lists, c)[s], c);
  }

  /** The list the channel joins. */
  lemma JoinedList(ix: Index, c: int, s: int)
    requires Inverse(ix) && IsChannel(c) && 0 <= s < NUMBER_OF_SENSORS
    ensures ListOk(Assign(ix, c, s), s)
  {
    assert ListOk(ix, s);
    RemovedFrom(ix, c, s);
    RoomToAssign(ix, c, s);
    AddedMembers(RemoveEverywhere(ix.lists, c)[s], c);
  }

  /** Any other list. */
  lemma LeftList(ix: Index, c: int, s: int, other: int)
    requires Inverse(ix) && IsChannel(c) && 0 <= s < NUMBER_OF_SENSORS && 0 <= other < NUMBER_OF_SENSORS && other != s
    ensures ListOk(Assign(ix, c, s), other)
  {
    assert ListOk(ix, other);
    RemovedFrom(ix, c, other);
  }

  lemma AssignKeepsInverse(ix: Index, c: int, s: int)
    requires Inverse(ix) && IsChannel(c) && 0 <= s < NUMBER_OF_SENSORS
    ensures Inverse(Assign(ix, c, s)) && |RemoveEverywhere(ix.lists, c)[s]| < NUMBER_OF_CHANNELS
  {
    RoomToAssign(ix, c, s);
    forall other | 0 <= other < NUMBER_OF_SENSORS
      ensures ListOk(Assign(ix, c, s), other)
    {
      if other == s {
        JoinedList(ix, c, s);
      } else {
        LeftList(ix, c, s, other);
      }
    }
  }

  /** Routine 49 assigns exactly this channel to exactly this sensor. */
  lemma AssignAssigns(ix: Index, c: int, s: int, other: int, t: int)
    requires Inverse(ix) && IsChannel(c) && IsChannel(other) && 0 <= s < NUMBER_OF_SENSORS && 0 <= t < NUMBER_OF_SENSORS
    ensures var after := Assign(ix, c, s);
            after.hasSensor[c] && after.sensorId[c] == s && after.force == 1 &&
            (other != c ==> after.hasSensor[other] == ix.hasSensor[other] && after.sensorId[other] == ix.sensorId[other]) &&
            (other in after.lists[t] <==> if other == c then t == s else other in ix.lists[t])
  {
    AssignKeepsInverse(ix, c, s);
    assert ListOk(Assign(ix, c, s), t) && ListOk(ix, t);
  }

  /** Routine 18 unassigns exactly this channel. */
  lemma UnassignClears(ix: Index, c: int, other: int, t: int)
    requires Inverse(ix) && IsChannel(c) && IsChannel(other) && 0 <= t < NUMBER_OF_SENSORS
    ensures var after := Unassign(ix, c);
            !after.hasSensor[c] && after.force == 1 &&
            (other != c ==> after.hasSensor[other] == ix.hasSensor[other] && after.sensorId[other] == ix.sensorId[other]) &&
            (other in after.lists[t] <==> other != c && other in ix.lists[t])
  {
    UnassignKeepsInverse(ix, c);
    assert ListOk(Unassign(ix, c), t) && ListOk(ix, t);
  }

  function PerformAll(ks: seq<Call>, ix: Index): Index
    requires Shaped(ix) && forall i :: 0 <= i < |ks| ==> CallOk(ks[i])
    decreases |ks|
  {
    if ks == [] then ix else PerformAll(ks[1..], Perform(ks[0], ix))
  }

  /** After every sequence of calls: channel c is in sensor s's list iff it is assigned to s, lists are
      duplicate-free and pairwise disjoint, and each fits its array. */
  lemma {:induction false} ListsAreTheInverseAfterAnyCalls(ks: seq<Call>, ix: Index)
    requires Inverse(ix) && forall i :: 0 <= i < |ks| ==> CallOk(ks[i])
    ensures var after := PerformAll(ks, ix);
            Inverse(after) &&
            (forall s :: 0 <= s < NUMBER_OF_SENSORS ==> |after.lists[s]| <= NUMBER_OF_CHANNELS) &&
            (forall s, t, c :: 0 <= s < t < NUMBER_OF_SENSORS && c in after.lists[s] ==> c !in after.lists[t])
    decreases |ks|
  {
    if ks == [] {
      forall s | 0 <= s < NUMBER_OF_SENSORS
        ensures |ix.lists[s]| <= NUMBER_OF_CHANNELS
      {
        ListsFit(ix, s);
      }
      forall s, t, c | 0 <= s < t < NUMBER_OF_SENSORS && c in ix.lists[s]
        ensures c !in ix.lists[t]
      {
        assert ListOk(ix, s) && ListOk(ix, t);
      }
    } else {
      match ks[0] {
        case C18(c) => UnassignKeepsInverse(ix, c);
        case C49(c, s) => AssignKeepsInverse(ix, c, s);
      }
      ListsAreTheInverseAfterAnyCalls(ks[1..], Perform(ks[0], ix));
    }
  }

  /** From zeroed memory, whatever routines 18 and 49 are called with: the lists are the inverse of the
      assignment, and the flag is up once one of them has run. */
  lemma ListsAreTheInverseFromZeroedMemory(ks: seq<Call>)
    requires forall i :: 0 <= i < |ks| ==> CallOk(ks[i])
    ensures var after := PerformAll(ks, ZeroIndex());
            Inverse(after) && after.force == (if ks == [] then 0 else 1) &&
            (forall s :: 0 <= s < NUMBER_OF_SENSORS ==> |after.lists[s]| <= NUMBER_OF_CHANNELS) &&
            (forall s, t, c :: 0 <= s < t < NUMBER_OF_SENSORS && c in after.lists[s] ==> c !in after.lists[t])
  {
    ListsAreTheInverseAfterAnyCalls(ks, ZeroIndex());
    CallsRaiseTheFlag(ks, ZeroIndex());
  }

  lemma {:induction false} CallsRaiseTheFlag(ks: seq<Call>, ix: Index)
    requires Shaped(ix) && forall i :: 0 <= i < |ks| ==> CallOk(ks[i])
    ensures PerformAll(ks, ix).force == if ks == [] then ix.force else 1
    decreases |ks|
  {
    if ks != [] {
      CallsRaiseTheFlag(ks[1..], Perform(ks[0], ix));
    }
  }

  class SensorTable {
    var force: int
    const lists: seq<SensorList>
    const hasSensor: array<bool>
    const sensorId: array<int>

    ghost predicate Valid()
      reads this, lists
    {
      && |lists| == NUMBER_OF_SENSORS && hasSensor.Length == sensorId.Length == NUMBER_OF_CHANNELS
      && (forall i :: 0 <= i < |lists| ==> lists[i].Valid() && lists[i].channel != sensorId)
      && (forall i, j :: 0 <= i < j < |lists| ==> lists[i] != lists[j] && lists[i].channel != lists[j].channel)
    }

    ghost function Arrays(): set<array<int>> {
      set l | l in lists :: l.channel
    }

    ghost function View(): Index
      requires Valid()
      reads this, hasSensor, sensorId, lists, Arrays()
    {
      Index(Lists(), hasSensor[..], sensorId[..], force)
    }

    /** Zeroed memory. */
    constructor ()
      ensures Valid() && View() == ZeroIndex() && Inverse(View())
      ensures fresh(hasSensor) && fresh(sensorId) && fresh(Arrays()) && forall l :: l in lists ==> fresh(l)
    {
      var ls: seq<SensorList> := [];
      while |ls| < NUMBER_OF_SENSORS
        invariant |ls| <= NUMBER_OF_SENSORS
        invariant forall i :: 0 <= i < |ls| ==> fresh(ls[i]) && fresh(ls[i].channel)
        invariant forall i :: 0 <= i < |ls| ==> ls[i].Valid() && ls[i].View() == []
        invariant forall i, j :: 0 <= i < j < |ls| ==> ls[i] != ls[j] && ls[i].channel != ls[j].channel
      {
        var l := new SensorList();
        ls := ls + [l];
      }
      lists := ls;
      hasSensor := new bool[NUMBER_OF_CHANNELS](_ => false);
      sensorId := new int[NUMBER_OF_CHANNELS](_ => 0);
      force := 0;
      new;
      assert Lists() == ZeroIndex().lists;
      assert hasSensor[..] == ZeroIndex().hasSensor && sensorId[..] == ZeroIndex().sensorId;
    }

    ghost function Lists(): seq<seq<int>>
      requires Valid()
      reads this, lists, Arrays()
    {
      seq(|lists|, i requires 0 <= i < |lists| reads this, lists, Arrays() requires Valid() => lists[i].View())
    }

    method RemoveFromAll(c: int)
      requires Valid()
      modifies hasSensor, sensorId, lists, Arrays()
      ensures Valid() && Lists() == RemoveEverywhere(old(Lists()), c)
      ensures hasSensor[..] == old(hasSensor[..]) && sensorId[..] == old(sensorId[..])
    {
      ghost var ls := Lists();
      var i := 0;
      while i < NUMBER_OF_SENSORS
        invariant 0 <= i <= NUMBER_OF_SENSORS && Valid()
        invariant forall j :: 0 <= j < NUMBER_OF_SENSORS ==> Lists()[j] == if j < i then Removed(ls[j], c) else ls[j]
        invariant hasSensor[..] == old(hasSensor[..]) && sensorId[..] == old(sensorId[..])
      {
        RemoveFrom(i, c);
        i := i + 1;
      }
    }

    method RemoveFrom(s: int, c: int)
      requires Valid() && 0 <= s < NUMBER_OF_SENSORS
      modifies lists[s], lists[s].channel
      ensures Valid() && Lists() == old(Lists())[s := Removed(old(Lists())[s], c)]
      ensures hasSensor[..] == old(hasSensor[..]) && sensorId[..] == old(sensorId[..])
    {
      lists[s].DelElm(c);
    }

    method ClearSensor(c: int)
      requires Valid() && IsChannel(c)
      modifies this`force, hasSensor, sensorId, lists, Arrays()
      ensures Valid() && View() == Unassign(old(View()), c)
    {
      ghost var a := hasSensor[..];
      hasSensor[c] := false;
      assert hasSensor[..] == a[c := false];
      RemoveFromAll(c);
      force := 1;
    }

    method AddTo(s: int, c: int)
      requires Valid() && 0 <= s < NUMBER_OF_SENSORS && (|Lists()[s]| < NUMBER_OF_CHANNELS || c in Lists()[s])
      modifies lists[s], lists[s].channel
      ensures Valid() && Lists() == old(Lists())[s := Added(old(Lists())[s], c)]
      ensures hasSensor[..] == old(hasSensor[..]) && sensorId[..] == old(sensorId[..])
    {
      lists[s].AddElm(c);
    }

    method SetAssignment(c: int, s: int)
      requires Valid() && IsChannel(c)
      modifies hasSensor, sensorId
      ensures Valid() && Lists() == old(Lists())
      ensures hasSensor[..] == old(hasSensor[..])[c := true] && sensorId[..] == old(sensorId[..])[c := s]
    {
      sensorId[c] := s;
      hasSensor[c] := true;
    }

    method SetSensor(c: int, s: int)
      requires Valid() && Inverse(View()) && IsChannel(c) && 0 <= s < NUMBER_OF_SENSORS
      modifies this`force, hasSensor, sensorId, lists, Arrays()
      ensures Valid() && View() == Assign(old(View()), c, s) && Inverse(View())
    {
      ghost var ix := View();
      AssignKeepsInverse(ix, c, s);
      hide Inverse;
      hide Removed;
      hide Added;
      RemoveFromAll(c);
      SetAssignment(c, s);
      AddTo(s, c);
      force := 1;
    }
  }
}
