/** The three programs around shared memory, as small steps: the operator program, the daemon and the
    sensor posts, with one semaphore and the `force_update` flag. Locked writes are single steps; the
    flag is polled without the lock. `log`, `snap`, `stale`, `seen`, `passes` and `pins0` are history: no
    step's effect on the other parts depends on them. */
module Protocol {
  import opened CmdTables
  import opened CmdSpec
  import opened CmdRuns
  import opened Daemon
  import opened SharedData
  import opened Tokens

  datatype Pid = Pcon | Dcon | Scon(n: nat)

  // ----- the operator program's critical sections -----

  /** A request the operator has committed, in the order of the flag writes. */
  datatype Commit = Manual(c: int, on: int) | Timed(c: int) | Sensed(c: int) | Install(t: Table)

  datatype Write = WMode(c: int, v: int) | WState(c: int, v: int) | WName(c: int, name: string)
                 | WReading(sensor: int, v: int) | WTable(t: Table) | WForce(commit: Commit)

  function Apply(w: Write, y: Sys): Sys {
    match w
    case WMode(c, v) => if 0 <= c < |y.chans| then y.(chans := y.chans[c := y.chans[c].(mode := v)]) else y
    case WState(c, v) => if 0 <= c < |y.chans| then y.(chans := y.chans[c := y.chans[c].(state := v)]) else y
    case WName(c, s) => if 0 <= c < |y.chans| then y.(chans := y.chans[c := y.chans[c].(name := s)]) else y
    case WReading(_, _) => y
    case WTable(t) => y.(sch := t)
    case WForce(_) => y.(force := 1)
  }

  /** The sensor readings are not part of `Sys`. */
  function ApplyReading(w: Write, readings: seq<int>): seq<int> {
    if w.WReading? && 0 <= w.sensor < |readings| then readings[w.sensor := w.v] else readings
  }

  function ApplyAll(ws: seq<Write>, y: Sys): Sys
    decreases |ws|
  {
    if ws == [] then y else ApplyAll(ws[1..], Apply(ws[0], y))
  }

  function Commits(ws: seq<Write>): seq<Commit> {
    if ws == [] then [] else (if ws[0].WForce? then [ws[0].commit] else []) + Commits(ws[1..])
  }

  predicate NeedsLock(a: nat) {
    a == 5 || a == 9 || a == 10 || a == 11 || a == 12 || a == 25 || a == 39 || a == 73
  }

  /** What routine `a` writes between taking and freeing the lock. Routine 73 stores a whole sensor record
      whose reading nothing ever loads, so that the sensor's current reading becomes 0. */
  function Critical(a: nat, tok: Tok, cb: Cb): seq<Write> {
    match a
    case 5 => [WName(cb.channel, Dequote(tok.text))]
    case 9 => [WMode(cb.channel, 0), WState(cb.channel, 1), WForce(Manual(cb.channel, 1))]
    case 10 => [WMode(cb.channel, 0), WState(cb.channel, 0), WForce(Manual(cb.channel, 0))]
    case 11 => [WMode(cb.channel, 1), WState(cb.channel, 0), WForce(Timed(cb.channel))]
    case 12 => [WMode(cb.channel, 2), WState(cb.channel, 0), WForce(Sensed(cb.channel))]
    case 39 => [WTable(cb.work), WForce(Install(cb.work))]
    case 73 => [WReading(cb.sensor, 0)]
    case _ => []
  }

  predicate WriteOk(w: Write) {
    match w
    case WMode(c, v) => IsChannel(c) && 0 <= v <= 2
    case WState(c, v) => IsChannel(c) && 0 <= v <= 1
    case WName(c, _) => IsChannel(c)
    case WReading(i, _) => 0 <= i < NUMBER_OF_SENSORS
    case WTable(_) => true
    case WForce(_) => true
  }

  /** The writes are in range, and the flag is the last thing a critical section writes; one that does
      not end with the flag only writes names or readings. */
  ghost predicate TodoOk(ws: seq<Write>) {
    && (forall i :: 0 <= i < |ws| ==> WriteOk(ws[i]) && (ws[i].WTable? ==> TableOk(ws[i].t)))
    && (forall i :: 0 <= i < |ws| && ws[i].WForce? ==> i == |ws| - 1)
    && (ws != [] && !ws[|ws| - 1].WForce? ==> forall i :: 0 <= i < |ws| ==> ws[i].WName? || ws[i].WReading?)
  }

  // ----- states -----

  /** The operator program: waiting for a token, for the lock, or with writes still to do under the lock. */
  datatype PconPc = Ready | Locking(tok: Tok) | Writing(tok: Tok, todo: seq<Write>) | Gone

  datatype DconPc = Top | Poll | ClearLock | Clear | ClearFree | UpdateLock(forced: bool)
                  | Channel(c: nat) | Pin(c: nat) | UpdateFree

  datatype DconState = DconState(pc: DconPc, t: Time, hMin: int, toggle: bool, regs: Regs, pins: map<int, int>,
                                 snap: Snapshot, stale: seq<int>, pins0: map<int, int>, seen: nat, passes: nat)

  datatype State = State(sem: nat, holders: set<Pid>, sys: Sys, readings: seq<int>,
                         cb: Cb, ppc: PconPc, d: DconState, log: seq<Commit>)

  function AsMach(s: State): Mach {
    Mach(s.cb, s.sys, None)
  }

  /** A token that the operator program accepts here: in range, and not a load from the backup file. Any
      schedule may be shown: the cell that the printers' text overruns is not shared. */
  predicate Admissible(tok: Tok, m: Mach) {
    TokOk(tok) && Reachable(m.cb.state) && ActionOf(tok.index, m.cb.state) != 19 &&
    (Shows(ActionOf(tok.index, m.cb.state)) || StepGuard(tok, m))
  }

  predicate LockedToken(tok: Tok, m: Mach) {
    Admissible(tok, m) && NeedsLock(ActionOf(tok.index, m.cb.state))
  }

  ghost predicate Good(s: State) {
    && Inv(AsMach(s)) && |s.readings| == NUMBER_OF_SENSORS && TimeOk(s.d.t) && s.d.seen <= |s.log|
    && (s.d.pc.Channel? ==> s.d.pc.c < NUMBER_OF_CHANNELS)
    && (s.d.pc.Pin? ==> s.d.pc.c < NUMBER_OF_CHANNELS)
    && (s.ppc.Locking? || s.ppc.Writing? ==> LockedToken(s.ppc.tok, AsMach(s)))
    && (s.ppc.Writing? ==> TodoOk(s.ppc.todo))
  }

  // ----- steps -----

  datatype Event =
    | Init                                                  // some program starts: ipc_sem_init
    | Token(tok: Tok) | Escape | PconLock | PconWrite | PconFree
    | Clock(t: Time) | PollFlag | DconLock | ClearFlag | DoChannel(stale: int) | DoPin | DconFree
    | SconLock(n: nat) | SconWrite(n: nat, sensor: int, value: int) | SconFree(n: nat)

  function Lock(p: Pid, s: State): State
    requires s.sem > 0
  {
    s.(sem := s.sem - 1, holders := s.holders + {p})
  }

  function Free(p: Pid, s: State): State {
    s.(sem := s.sem + 1, holders := s.holders - {p})
  }

  /** A token: a routine that locks starts waiting for the lock, any other runs to its end. */
  function NextToken(tok: Tok, s: State): Option<State> {
    if !s.ppc.Ready? || !Admissible(tok, AsMach(s)) then None
    else if NeedsLock(ActionOf(tok.index, s.cb.state)) then Some(s.(ppc := Locking(tok)))
    else
      match StepOn(tok, AsMach(s))
      case Done(_, m) => Some(s.(cb := m.cb, sys := m.sys))
      case Exited => Some(s.(ppc := Gone))
      case Fault => None
  }

  function NextPconLock(s: State): Option<State> {
    if s.ppc.Locking? && s.sem > 0 && LockedToken(s.ppc.tok, AsMach(s)) then
      Some(Lock(Pcon, s).(ppc := Writing(s.ppc.tok, Critical(ActionOf(s.ppc.tok.index, s.cb.state), s.ppc.tok, s.cb))))
    else None
  }

  /** One write under the lock; the flag write is the moment the request is committed. */
  function NextPconWrite(s: State): Option<State> {
    if s.ppc.Writing? && s.ppc.todo != [] then
      Some(s.(sys := Apply(s.ppc.todo[0], s.sys), readings := ApplyReading(s.ppc.todo[0], s.readings),
              log := s.log + Commits(s.ppc.todo[..1]),
              ppc := s.ppc.(todo := s.ppc.todo[1..])))
    else None
  }

  function NextPconFree(s: State): Option<State> {
    if s.ppc.Writing? && s.ppc.todo == [] && LockedToken(s.ppc.tok, AsMach(s)) then
      Some(Free(Pcon, s).(ppc := Ready, cb := s.cb.(state := NewState(s.ppc.tok.index, s.cb.state))))
    else None
  }

  function NextPcon(e: Event, s: State): Option<State> {
    match e
    case Token(tok) => NextToken(tok, s)
    case Escape => if s.ppc.Ready? then Some(s.(cb := s.cb.(state := 0))) else None
    case PconLock => NextPconLock(s)
    case PconWrite => NextPconWrite(s)
    case PconFree => NextPconFree(s)
    case _ => None
  }

  /** Channel `c` of the daemon's channel loop. */
  function NextChannel(c: nat, stale: int, s: State): State
    requires Good(s) && c < NUMBER_OF_CHANNELS
  {
    var ch := s.sys.chans[c];
    assert ChanOk(ch);
    var (r, g) := Daemon.DoChannel(Relay(ch.mode, ch.state, ch.sensorId), s.sys.sch[Cell(s.d.t.wday, c)],
                                   MinuteOfDay(s.d.t), s.readings[ch.sensorId], stale, s.d.regs);
    s.(sys := s.sys.(chans := s.sys.chans[c := ch.(state := r.state)]),
       d := s.d.(regs := g, stale := s.d.stale + [stale],
                 pc := if c + 1 < NUMBER_OF_CHANNELS then Channel(c + 1) else Pin(0)))
  }

  function NextPin(c: nat, s: State): State
    requires Good(s) && c < NUMBER_OF_CHANNELS
  {
    s.(d := s.d.(pins := s.d.pins[Gpio(c) := Level(Relays(s.sys.chans)[c])],
                 pc := if c + 1 < NUMBER_OF_CHANNELS then Pin(c + 1) else UpdateFree))
  }

  function NextPoll(s: State): State {
    if s.sys.force == 1 then s.(d := s.d.(pc := ClearLock))
    else if s.d.hMin != s.d.t.minute then s.(d := s.d.(pc := UpdateLock(false), hMin := s.d.t.minute))
    else s.(d := s.d.(pc := Top, toggle := !s.d.toggle, passes := s.d.passes + 1))
  }

  function NextDconLock(s: State): Option<State> {
    if s.sem == 0 then None
    else if s.d.pc.ClearLock? then Some(Lock(Dcon, s).(d := s.d.(pc := Clear)))
    else if s.d.pc.UpdateLock? then
      Some(Lock(Dcon, s).(d := s.d.(
        pc := Channel(0), stale := [], pins0 := s.d.pins, seen := |s.log|,
        snap := Snapshot(Relays(s.sys.chans), s.sys.sch, s.readings, s.d.t, s.d.regs.hold, s.d.regs.loc))))
    else None
  }

  function NextDcon(e: Event, s: State): Option<State>
    requires Good(s)
  {
    match e
    case Clock(t) => if s.d.pc.Top? && TimeOk(t) then Some(s.(d := s.d.(pc := Poll, t := t))) else None
    case PollFlag => if s.d.pc.Poll? then Some(NextPoll(s)) else None
    case DconLock => NextDconLock(s)
    case ClearFlag =>
      if s.d.pc.Clear? then Some(s.(sys := s.sys.(force := 0), d := s.d.(pc := ClearFree))) else None
    case DoChannel(stale) => if s.d.pc.Channel? then Some(NextChannel(s.d.pc.c, stale, s)) else None
    case DoPin => if s.d.pc.Pin? then Some(NextPin(s.d.pc.c, s)) else None
    case DconFree =>
      if s.d.pc.ClearFree? then Some(Free(Dcon, s).(d := s.d.(pc := UpdateLock(true))))
      else if s.d.pc.UpdateFree? then Some(Free(Dcon, s).(d := s.d.(pc := Top, passes := s.d.passes + 1)))
      else None
    case _ => None
  }

  function NextScon(e: Event, s: State): Option<State> {
    match e
    case SconLock(n) => if s.sem > 0 && Scon(n) !in s.holders then Some(Lock(Scon(n), s)) else None
    case SconWrite(n, sensor, value) =>
      if Scon(n) in s.holders && 0 <= sensor < |s.readings| then
        Some(s.(readings := s.readings[sensor := value]))
      else None
    case SconFree(n) => if Scon(n) in s.holders then Some(Free(Scon(n), s)) else None
    case _ => None
  }

  predicate PconEvent(e: Event) {
    e.Token? || e.Escape? || e.PconLock? || e.PconWrite? || e.PconFree?
  }

  predicate SconEvent(e: Event) {
    e.SconLock? || e.SconWrite? || e.SconFree?
  }

  /** The state after event `e`, or None when it cannot happen now. */
  function Next(e: Event, s: State): Option<State>
    requires Good(s)
  {
    if e.Init? then Some(s.(sem := 1))
    else if PconEvent(e) then NextPcon(e, s)
    else if SconEvent(e) then NextScon(e, s)
    else NextDcon(e, s)
  }

  /** Zeroed shared memory, both programs at the top of their loops; `hMin` and `loc` start with whatever
      was in memory. */
  function Start(hMin: int, loc: int): State {
    State(1, {}, ZeroSys(), seq(NUMBER_OF_SENSORS, _ => 0), ZeroMach().cb, Ready,
          DconState(Top, Time(0, 0, 0), hMin, false, Regs(0, loc), map[],
                    Snapshot([], [], [], Time(0, 0, 0), 0, loc), [], map[], 0, 0),
          [])
  }

  lemma StartIsGood(hMin: int, loc: int)
    ensures Good(Start(hMin, loc))
  {
  }

  // ----- the critical sections are the routines -----

  lemma ApplyCons(w: Write, ws: seq<Write>, y: Sys)
    ensures ApplyAll([w] + ws, y) == ApplyAll(ws, Apply(w, y))
  {
    assert ([w] + ws)[1..] == ws;
  }

  lemma ApplyOne(w: Write, y: Sys)
    ensures ApplyAll([w], y) == Apply(w, y)
  {
    ApplyCons(w, [], y);
    assert [w] + [] == [w];
  }

  lemma ApplyTwo(a: Write, b: Write, y: Sys)
    ensures ApplyAll([a, b], y) == Apply(b, Apply(a, y))
  {
    hide Apply;
    ApplyCons(a, [b], y);
    assert [a] + [b] == [a, b];
    ApplyOne(b, Apply(a, y));
  }

  lemma ApplyThree(a: Write, b: Write, c: Write, y: Sys)
    ensures ApplyAll([a, b, c], y) == Apply(c, Apply(b, Apply(a, y)))
  {
    hide Apply;
    ApplyCons(a, [b, c], y);
    assert [a] + [b, c] == [a, b, c];
    ApplyTwo(b, c, Apply(a, y));
  }

  lemma ModeWrites(c: int, mode: int, state: int, commit: Commit, y: Sys)
    requires 0 <= c < |y.chans|
    ensures ApplyAll([WMode(c, mode), WState(c, state), WForce(commit)], y) == SetChan(y, c, mode, state).(force := 1)
  {
    ApplyThree(WMode(c, mode), WState(c, state), WForce(commit), y);
  }

  /** Storing a sensor record leaves that sensor with reading 0, and the others with theirs. */
  lemma StoredSensorReadsZero(tok: Tok, cb: Cb, readings: seq<int>)
    requires 0 <= cb.sensor < |readings|
    ensures var ws := Critical(73, tok, cb);
            |ws| == 1 && |ApplyReading(ws[0], readings)| == |readings| &&
            forall i :: 0 <= i < |readings| ==> ApplyReading(ws[0], readings)[i] == if i == cb.sensor then 0 else readings[i]
  {
  }

  /** Without interference, taking the lock, doing the writes one by one and freeing it is exactly what
      the command machine specifies for the token. */
  lemma CriticalSectionIsTheRoutine(a: nat, tok: Tok, m: Mach)
    requires Inv(m) && NeedsLock(a) && Guard(a, tok, m)
    ensures var o := Act(a, tok, m);
            o.Done? && o.rc == 0 && o.m.cb == m.cb && o.m.sys == ApplyAll(Critical(a, tok, m.cb), m.sys)
  {
    var ch, y := m.cb.channel, m.sys;
    match a
    case 5 => ApplyOne(WName(ch, Dequote(tok.text)), y);
    case 9 => ModeWrites(ch, 0, 1, Manual(ch, 1), y);
    case 10 => ModeWrites(ch, 0, 0, Manual(ch, 0), y);
    case 11 => ModeWrites(ch, 1, 0, Timed(ch), y);
    case 12 => ModeWrites(ch, 2, 0, Sensed(ch), y);
    case 39 => ApplyTwo(WTable(m.cb.work), WForce(Install(m.cb.work)), y);
    case 73 => ApplyOne(WReading(m.cb.sensor, 0), y);
    case _ =>
  }
}
