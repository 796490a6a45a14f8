/** What one relay update computes (`update_relays` of the daemon), and the update in its own form. */
module Daemon {
  import opened Schedule
  import opened SharedData
  import opened Slab

  datatype Time = Time(wday: int, hour: int, minute: int)

  predicate TimeOk(t: Time) {
    IsDay(t.wday) && 0 <= t.hour <= 23 && 0 <= t.minute <= 59
  }

  function MinuteOfDay(t: Time): int {
    KeyOf(t.hour, t.minute)
  }

  /** The part of the channel data that an update reads and writes. */
  datatype Relay = Relay(mode: int, state: int, sensorId: int)

  function Relays(cs: seq<Chan>): seq<Relay> {
    seq(|cs|, i requires 0 <= i < |cs| => Relay(cs[i].mode, cs[i].state, cs[i].sensorId))
  }

  /** What an update starts from: one reading of shared memory, the time, and what the daemon's own
      variables hold. */
  datatype Snapshot = Snapshot(relays: seq<Relay>, sch: Table, readings: seq<int>, t: Time, hold: int, loc: int)

  ghost predicate SnapshotOk(p: Snapshot) {
    && |p.relays| == NUMBER_OF_CHANNELS && TableOk(p.sch) && |p.readings| == NUMBER_OF_SENSORS && TimeOk(p.t)
    && forall c :: 0 <= c < NUMBER_OF_CHANNELS ==> 0 <= p.relays[c].sensorId < NUMBER_OF_SENSORS
  }

  predicate RelayOk(r: Relay) {
    0 <= r.mode <= 2 && 0 <= r.state <= 1
  }

  /** The target `test_sch_sensor` compares with: the first record's temperature if that record is the
      only one or matches the minute, else the cell behind the last record. */
  function Target(s: Sched, key: int, stale: int): int {
    if s != [] && (|s| == 1 || s[0].key == key) then s[0].temp else stale
  }

  /** The daemon's variables that live across channels: the last reading and the local `state`. */
  datatype Regs = Regs(hold: int, loc: int)

  /** One pass of the channel loop, for channel `c`. */
  function DoChannel(r: Relay, s: Sched, key: int, reading: int, stale: int, g: Regs): (Relay, Regs) {
    match r.mode
    case 0 => (r, g.(loc := r.state))
    case 1 => (r.(state := DayState(s, key)), g.(loc := DayState(s, key)))
    case 2 =>
      if s == [] then (r.(state := 0), g.(loc := 0))
      else
        var d := Decide(g.hold, Target(s, key, stale), reading);
        (r.(state := d), Regs(reading, d))
    case _ => (r.(state := g.loc), g) // not a mode: the local variable keeps what it had
  }

  /** The reading the slab controller saw last before channel `n`: that of the last sensed channel with a
      schedule, or what it held when the update began. */
  function HoldBefore(n: nat, p: Snapshot): int
    requires SnapshotOk(p) && n <= NUMBER_OF_CHANNELS
  {
    if n == 0 then p.hold
    else if p.relays[n - 1].mode == 2 && p.sch[Cell(p.t.wday, n - 1)] != [] then p.readings[p.relays[n - 1].sensorId]
    else HoldBefore(n - 1, p)
  }

  /** What the snapshot says a sensed channel's state is; `x` is the temperature in the cell behind its
      last record. Without records it is off. */
  function SensedState(c: nat, p: Snapshot, x: int): int
    requires SnapshotOk(p) && IsChannel(c)
  {
    var s := p.sch[Cell(p.t.wday, c)];
    if s == [] then 0
    else Decide(HoldBefore(c, p), Target(s, MinuteOfDay(p.t), x), p.readings[p.relays[c].sensorId])
  }

  /** A sensed channel with a schedule is decided by a temperature and by no other field of its records: that
      of the first record if it is the only one or its minute has come, else the one in the cell behind the
      last record. While the reading falls, on below it; else only five or more below it. */
  lemma ATemperatureDecides(c: nat, p: Snapshot, x: int)
    requires SnapshotOk(p) && IsChannel(c)
    ensures var s, hold, reading := p.sch[Cell(p.t.wday, c)], HoldBefore(c, p), p.readings[p.relays[c].sensorId];
            s != [] ==>
              var temp := if |s| == 1 || s[0].key == p.t.hour * 60 + p.t.minute then s[0].temp else x;
              (SensedState(c, p, x) == 1 <==> if hold > reading then reading < temp else reading + 5 <= temp) &&
              (SensedState(c, p, x) == 0 <==> if hold > reading then temp <= reading else temp < reading + 5)
  {
  }

  /** What an update owes channel `c`: a manual channel keeps its state, a timed one gets the state of its
      schedule for the weekday and minute, a sensed one what the controller decides. */
  ghost predicate Settled(r: Relay, p: Snapshot, c: int, x: int)
    requires SnapshotOk(p) && IsChannel(c)
  {
    && (r.mode == 0 ==> r.state == p.relays[c].state)
    && (r.mode == 1 ==> r.state == DayState(p.sch[Cell(p.t.wday, c)], MinuteOfDay(p.t)))
    && (r.mode == 2 ==> r.state == SensedState(c, p, x))
    && (RelayOk(p.relays[c]) ==> RelayOk(r))
  }

  /** The relays and registers after the first `n` channels. `stale` has one temperature per channel done:
      what is left in the cell behind the channel's last record. */
  function DoChannels(n: nat, p: Snapshot, stale: seq<int>): (after: (seq<Relay>, Regs))
    requires SnapshotOk(p) && n <= NUMBER_OF_CHANNELS && n <= |stale|
    ensures |after.0| == NUMBER_OF_CHANNELS
    ensures forall c :: n <= c < NUMBER_OF_CHANNELS ==> after.0[c] == p.relays[c]
    ensures forall c :: 0 <= c < NUMBER_OF_CHANNELS ==>
              after.0[c].mode == p.relays[c].mode && after.0[c].sensorId == p.relays[c].sensorId
    ensures forall c :: 0 <= c < n ==> Settled(after.0[c], p, c, stale[c])
    ensures after.1.hold == HoldBefore(n, p)
  {
    if n == 0 then (p.relays, Regs(p.hold, p.loc))
    else
      var (rs, g) := DoChannels(n - 1, p, stale);
      var c := n - 1;
      DayStateIsBinary(p.sch[Cell(p.t.wday, c)], MinuteOfDay(p.t));
      var (r, g') := DoChannel(rs[c], p.sch[Cell(p.t.wday, c)], MinuteOfDay(p.t),
                               p.readings[rs[c].sensorId], stale[c], g);
      (rs[c := r], g')
  }

  lemma DayStateIsBinary(s: Sched, m: int)
    requires WellFormed(s)
    ensures DayState(s, m) == 0 || DayState(s, m) == 1
  {
    if s != [] {
      assert RecOk(s[Governing(s, m)]);
    }
  }

  lemma {:induction false} DoChannelsExtend(n: nat, p: Snapshot, stale: seq<int>, x: int)
    requires SnapshotOk(p) && n <= NUMBER_OF_CHANNELS && n <= |stale|
    ensures DoChannels(n, p, stale + [x]) == DoChannels(n, p, stale)
  {
    if n > 0 {
      DoChannelsExtend(n - 1, p, stale, x);
      assert (stale + [x])[n - 1] == stale[n - 1];
    }
  }

  /** The local variable `state`, uninitialised at first, cannot show in the result exactly when
      channel 0 has a real mode. */
  lemma UninitialisedStateNeverShowsIff(p: Snapshot, stale: seq<int>)
    requires SnapshotOk(p) && |stale| == NUMBER_OF_CHANNELS
    ensures (forall x, y :: DoChannels(NUMBER_OF_CHANNELS, p.(loc := x), stale).0
                         == DoChannels(NUMBER_OF_CHANNELS, p.(loc := y), stale).0)
            <==> 0 <= p.relays[0].mode <= 2
  {
    if 0 <= p.relays[0].mode <= 2 {
      forall x, y
        ensures DoChannels(NUMBER_OF_CHANNELS, p.(loc := x), stale).0
             == DoChannels(NUMBER_OF_CHANNELS, p.(loc := y), stale).0
      {
        SameAfterFirst(NUMBER_OF_CHANNELS, p, stale, x, y);
      }
    } else {
      FirstKeepsLocal(NUMBER_OF_CHANNELS, p.(loc := 0), stale);
      FirstKeepsLocal(NUMBER_OF_CHANNELS, p.(loc := 1), stale);
      assert DoChannels(NUMBER_OF_CHANNELS, p.(loc := 0), stale).0[0]
          != DoChannels(NUMBER_OF_CHANNELS, p.(loc := 1), stale).0[0];
    }
  }

  lemma {:induction false} SameAfterFirst(n: nat, p: Snapshot, stale: seq<int>, x: int, y: int)
    requires SnapshotOk(p) && 0 < n <= NUMBER_OF_CHANNELS && n <= |stale| && 0 <= p.relays[0].mode <= 2
    ensures DoChannels(n, p.(loc := x), stale) == DoChannels(n, p.(loc := y), stale)
  {
    if n > 1 {
      SameAfterFirst(n - 1, p, stale, x, y);
    } else {
      assert DoChannels(0, p.(loc := x), stale) == (p.relays, Regs(p.hold, x));
      assert DoChannels(0, p.(loc := y), stale) == (p.relays, Regs(p.hold, y));
    }
  }

  lemma {:induction false} FirstKeepsLocal(n: nat, p: Snapshot, stale: seq<int>)
    requires SnapshotOk(p) && 0 < n <= NUMBER_OF_CHANNELS && n <= |stale| && !(0 <= p.relays[0].mode <= 2)
    ensures DoChannels(n, p, stale).0[0].state == p.loc
  {
    if n > 1 {
      FirstKeepsLocal(n - 1, p, stale);
    } else {
      assert DoChannels(0, p, stale) == (p.relays, Regs(p.hold, p.loc));
    }
  }

  // ----- the pins -----

  /** The gpio number of each channel's pin. Channels 0 and 12 share one. */
  function Gpio(c: int): int
    requires IsChannel(c)
  {
    [86, 88, 87, 89, 10, 11, 9, 81, 8, 80, 78, 79, 86, 77, 74, 75][c]
  }

  function Level(r: Relay): int {
    if r.state != 0 then 1 else 0
  }

  /** The pins after the first `n` channels have been written out. */
  function WritePins(n: nat, rs: seq<Relay>, pins: map<int, int>): map<int, int>
    requires n <= NUMBER_OF_CHANNELS == |rs|
  {
    if n == 0 then pins else WritePins(n - 1, rs, pins)[Gpio(n - 1) := Level(rs[n - 1])]
  }

  lemma GpioClash(c: int, d: int)
    requires IsChannel(c) && IsChannel(d)
    ensures Gpio(c) == Gpio(d) <==> c == d || (c == 0 && d == 12) || (c == 12 && d == 0)
  {
  }

  /** A pin shows the last of its channels to have been written: 1 when that one is on, 0 when it is off. */
  lemma {:induction false} PinsShowTheLastWriter(n: nat, rs: seq<Relay>, pins: map<int, int>, c: int)
    requires n <= NUMBER_OF_CHANNELS == |rs| && 0 <= c < n
    ensures Gpio(c) in WritePins(n, rs, pins)
    ensures WritePins(n, rs, pins)[Gpio(c)] == if rs[if c == 0 && 12 < n then 12 else c].state != 0 then 1 else 0
  {
    GpioClash(c, n - 1);
    if c < n - 1 {
      PinsShowTheLastWriter(n - 1, rs, pins, c);
    }
  }

  /** Every pin shows its own channel exactly when channels 0 and 12, which share a pin, agree. */
  lemma PinsFollowChannelsIffTheSharedOnesAgree(rs: seq<Relay>, pins: map<int, int>)
    requires |rs| == NUMBER_OF_CHANNELS
    ensures (forall c :: 0 <= c < NUMBER_OF_CHANNELS ==>
               Drives(WritePins(NUMBER_OF_CHANNELS, rs, pins), Gpio(c), rs[c].state))
            <==> (rs[0].state != 0 <==> rs[12].state != 0)
  {
    PinsShowTheLastWriter(NUMBER_OF_CHANNELS, rs, pins, 0);
    assert Drives(WritePins(NUMBER_OF_CHANNELS, rs, pins), Gpio(0), rs[0].state) <==> (rs[0].state != 0 <==> rs[12].state != 0);
    forall c | 0 < c < NUMBER_OF_CHANNELS
      ensures Drives(WritePins(NUMBER_OF_CHANNELS, rs, pins), Gpio(c), rs[c].state)
    {
      PinsShowTheLastWriter(NUMBER_OF_CHANNELS, rs, pins, c);
    }
  }

  /** Pin `gpio` is driven to 1 for a channel that is on and to 0 for one that is off. */
  predicate Drives(pins: map<int, int>, gpio: int, state: int) {
    gpio in pins && pins[gpio] == if state != 0 then 1 else 0
  }

  /** The fifteen pins, with the channels they show; 86 is the one that channels 0 and 12 share. */
  predicate PinsShow(pins: map<int, int>, rs: seq<Relay>)
    requires |rs| == 16
  {
    && Drives(pins, 88, rs[1].state)
    && Drives(pins, 87, rs[2].state)
    && Drives(pins, 89, rs[3].state)
    && Drives(pins, 10, rs[4].state)
    && Drives(pins, 11, rs[5].state)
    && Drives(pins, 9, rs[6].state)
    && Drives(pins, 81, rs[7].state)
    && Drives(pins, 8, rs[8].state)
    && Drives(pins, 80, rs[9].state)
    && Drives(pins, 78, rs[10].state)
    && Drives(pins, 79, rs[11].state)
    && Drives(pins, 86, rs[12].state)
    && Drives(pins, 77, rs[13].state)
    && Drives(pins, 74, rs[14].state)
    && Drives(pins, 75, rs[15].state)
  }

  lemma WrittenPinsShow(rs: seq<Relay>, pins: map<int, int>)
    requires |rs| == NUMBER_OF_CHANNELS
    ensures PinsShow(WritePins(NUMBER_OF_CHANNELS, rs, pins), rs)
  {
    hide WritePins;
    PinsShowTheLastWriter(NUMBER_OF_CHANNELS, rs, pins, 1);
    PinsShowTheLastWriter(NUMBER_OF_CHANNELS, rs, pins, 2);
    PinsShowTheLastWriter(NUMBER_OF_CHANNELS, rs, pins, 3);
    PinsShowTheLastWriter(NUMBER_OF_CHANNELS, rs, pins, 4);
    PinsShowTheLastWriter(NUMBER_OF_CHANNELS, rs, pins, 5);
    PinsShowTheLastWriter(NUMBER_OF_CHANNELS, rs, pins, 6);
    PinsShowTheLastWriter(NUMBER_OF_CHANNELS, rs, pins, 7);
    PinsShowTheLastWriter(NUMBER_OF_CHANNELS, rs, pins, 8);
    PinsShowTheLastWriter(NUMBER_OF_CHANNELS, rs, pins, 9);
    PinsShowTheLastWriter(NUMBER_OF_CHANNELS, rs, pins, 10);
    PinsShowTheLastWriter(NUMBER_OF_CHANNELS, rs, pins, 11);
    PinsShowTheLastWriter(NUMBER_OF_CHANNELS, rs, pins, 12);
    PinsShowTheLastWriter(NUMBER_OF_CHANNELS, rs, pins, 13);
    PinsShowTheLastWriter(NUMBER_OF_CHANNELS, rs, pins, 14);
    PinsShowTheLastWriter(NUMBER_OF_CHANNELS, rs, pins, 15);
  }
}
