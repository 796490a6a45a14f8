/** The daemon in its own form: the channel loop over shared memory, the pin loop, and one pass of the
    main loop, without the other programs running in between (`Protocol` interleaves them). */
module DaemonMachine {
  import opened CmdMachine
  import opened Daemon
  import opened Schedule
  import opened SharedData
  import opened Slab
  import opened Templates

  /** The snapshot with the first `n` channels done. */
  ghost function AfterChannels(n: nat, p: Snapshot, stale: seq<int>): Snapshot
    requires SnapshotOk(p) && n <= NUMBER_OF_CHANNELS && n <= |stale|
  {
    var (rs, g) := DoChannels(n, p, stale);
    p.(relays := rs, hold := g.hold, loc := g.loc)
  }

  lemma NoChannelsYet(p: Snapshot, stale: seq<int>)
    requires SnapshotOk(p)
    ensures AfterChannels(0, p, stale) == p
  {
  }

  lemma AfterChannelsOk(n: nat, p: Snapshot, stale: seq<int>)
    requires SnapshotOk(p) && n <= NUMBER_OF_CHANNELS && n <= |stale|
    ensures SnapshotOk(AfterChannels(n, p, stale))
  {
  }

  lemma AfterChannelsStep(n: nat, p: Snapshot, stale: seq<int>)
    requires SnapshotOk(p) && n < NUMBER_OF_CHANNELS && n < |stale|
    ensures var q := AfterChannels(n, p, stale);
            |q.relays| == NUMBER_OF_CHANNELS && q.relays[n] == p.relays[n] &&
            var (r, g) := DoChannel(q.relays[n], p.sch[Cell(p.t.wday, n)], MinuteOfDay(p.t),
                                    p.readings[p.relays[n].sensorId], stale[n], Regs(q.hold, q.loc));
            AfterChannels(n + 1, p, stale) == q.(relays := q.relays[n := r], hold := g.hold, loc := g.loc)
  {
    hide DoChannel;
  }

  class Dcon {
    const shm: SharedMemory
    const readings: array<int>
    const slab: SlabController
    var loc: int
    var hMin: int
    var toggle: bool
    var pins: map<int, int>

    ghost function Snap(t: Time): Snapshot
      reads this, shm, shm.chans, readings, slab
    {
      Snapshot(Relays(shm.chans[..]), shm.sch, readings[..], t, slab.hold, loc)
    }

    constructor (shared: SharedMemory, sensors: array<int>)
      requires shared.Valid() && sensors.Length == NUMBER_OF_SENSORS
      ensures shm == shared && readings == sensors && fresh(slab) && slab.hold == 0
    {
      shm := shared;
      readings := sensors;
      slab := new SlabController();
      pins := map[];
    }

    /** `test_sch_sensor`; `stale` is the temperature in the cell behind the last record. */
    method TestSchSensor(key: int, s: Sched, sensor: int, stale: int) returns (on: int)
      modifies slab
      ensures on == if s == [] then 0 else Decide(old(slab.hold), Target(s, key, stale), sensor)
      ensures slab.hold == if s == [] then old(slab.hold) else sensor
    {
      if |s| == 0 {
        return 0;
      }
      if |s| == 1 {
        on := slab.Slabcon(s[0].temp, sensor);
        return;
      }
      // the search loop returns on its first pass
      if s[0].key == key {
        on := slab.Slabcon(s[0].temp, sensor);
        return;
      }
      on := slab.Slabcon(stale, sensor);
    }

    /** The body of the channel loop. */
    method UpdateChannel(c: int, t: Time, key: int, stale: int)
      requires shm.Valid() && SnapshotOk(Snap(t)) && IsChannel(c)
      modifies this`loc, slab, shm.chans
      ensures var (r, g) := DoChannel(old(Snap(t)).relays[c], shm.sch[Cell(t.wday, c)], key,
                                      readings[old(Snap(t)).relays[c].sensorId], stale, Regs(old(slab.hold), old(loc)));
              Snap(t) == old(Snap(t)).(relays := old(Snap(t)).relays[c := r], hold := g.hold, loc := g.loc)
    {
      ghost var p := Snap(t);
      ghost var cs := shm.chans[..];
      var s := shm.sch[t.wday * NUMBER_OF_CHANNELS + c];
      match shm.chans[c].mode {
        case 0 =>
          loc := shm.chans[c].state;
        case 1 =>
          var state, _ := TestSchTime(key, s);
          loc := state;
        case 2 =>
          loc := TestSchSensor(key, s, readings[shm.chans[c].sensorId], stale);
        case _ => // logged as an error
      }
      shm.chans[c] := shm.chans[c].(state := loc);
      assert shm.chans[..] == cs[c := cs[c].(state := loc)];
      assert Relays(shm.chans[..]) == p.relays[c := p.relays[c].(state := loc)];
    }

    /** The first loop of `update_relays`: channel states. */
    method UpdateChannels(t: Time, stale: seq<int>)
      requires shm.Valid() && SnapshotOk(Snap(t)) && |stale| == NUMBER_OF_CHANNELS
      modifies this`loc, slab, shm.chans
      ensures Snap(t) == AfterChannels(NUMBER_OF_CHANNELS, old(Snap(t)), stale)
    {
      hide AfterChannels;
      hide DoChannels;
      hide DoChannel;
      ghost var p := Snap(t);
      var key := t.hour * 60 + t.minute;
      var c := 0;
      NoChannelsYet(p, stale);
      while c < NUMBER_OF_CHANNELS
        invariant 0 <= c <= NUMBER_OF_CHANNELS && Snap(t) == AfterChannels(c, p, stale)
      {
        AfterChannelsStep(c, p, stale);
        AfterChannelsOk(c, p, stale);
        UpdateChannel(c, t, key, stale[c]);
        c := c + 1;
      }
    }

    /** The second loop: pins. */
    method UpdatePins()
      requires shm.Valid()
      modifies this`pins
      ensures pins == WritePins(NUMBER_OF_CHANNELS, Relays(shm.chans[..]), old(pins))
    {
      ghost var rs := Relays(shm.chans[..]);
      var c := 0;
      while c < NUMBER_OF_CHANNELS
        invariant 0 <= c <= NUMBER_OF_CHANNELS && pins == WritePins(c, rs, old(pins))
      {
        assert rs[c].state == shm.chans[c].state;
        if shm.chans[c].state != 0 {
          pins := pins[Gpio(c) := 1];
        } else {
          pins := pins[Gpio(c) := 0];
        }
        c := c + 1;
      }
    }

    /** An update has been made from `p`: states and registers are what `p` determines, and the pins show them. */
    ghost predicate Updated(p: Snapshot, pins0: map<int, int>, t: Time, stale: seq<int>)
      reads this, shm, shm.chans, readings, slab
    {
      && SnapshotOk(p) && |stale| == NUMBER_OF_CHANNELS && Snap(t) == AfterChannels(NUMBER_OF_CHANNELS, p, stale)
      && pins == WritePins(NUMBER_OF_CHANNELS, Snap(t).relays, pins0) && PinsShow(pins, Snap(t).relays)
    }

    method UpdateRelays(t: Time, stale: seq<int>)
      requires shm.Valid() && SnapshotOk(Snap(t)) && |stale| == NUMBER_OF_CHANNELS
      modifies this`loc, this`pins, slab, shm.chans
      ensures Updated(old(Snap(t)), old(pins), t, stale)
    {
      UpdateChannels(t, stale);
      UpdatePins();
      WrittenPinsShow(Relays(shm.chans[..]), old(pins));
      hide AfterChannels;
      hide PinsShow;
      hide WritePins;
    }

    /** One pass of the main loop at time `t`. */
    method LoopPass(t: Time, stale: seq<int>)
      requires shm.Valid() && SnapshotOk(Snap(t)) && |stale| == NUMBER_OF_CHANNELS
      modifies this, slab, shm, shm.chans
      ensures shm.Valid() && shm.sch == old(shm.sch) && shm.tplIndex == old(shm.tplIndex)
      ensures shm.force == if old(shm.force) == 1 then 0 else old(shm.force)
      ensures hMin == if old(shm.force) == 1 then old(hMin) else t.minute
      ensures if old(shm.force) == 1 || old(hMin) != t.minute
              then Updated(old(Snap(t)), old(pins), t, stale) && toggle == old(toggle)
              else Snap(t) == old(Snap(t)) && pins == old(pins) && toggle == !old(toggle)
    {
      hide Updated;
      hide SnapshotOk;
      ghost var p := Snap(t);
      if shm.force == 1 {
        shm.force := 0;
        assert Snap(t) == p;
        UpdateRelays(t, stale);
        return;
      }
      if hMin != t.minute {
        hMin := t.minute;
        assert Snap(t) == p;
        UpdateRelays(t, stale);
        return;
      }
      toggle := !toggle;
    }
  }
}
