/** The memory-mapped data that the operator program and the daemon share. */
module SharedData {
  import opened Schedule

  const NUMBER_OF_CHANNELS := 16
  const NUMBER_OF_SENSORS := 20
  const DAYS_PER_WEEK := 7
  const MAX_TEMPLATES := 10
  const ALL_CHANNELS := 99
  const ALL_DAYS := 99

  // sizes of the fixed text fields, terminator included
  const CHANNEL_NAME_SIZE := 20
  const TEMPLATE_NAME_SIZE := 40

  datatype Option<T> = None | Some(value: T)

  datatype Chan = Chan(mode: int, state: int, sensorId: int, name: string, hidden: bool)

  datatype Tmpl = Tmpl(name: string, recs: Sched)

  /** One schedule per day and channel, in memory order. */
  type Table = seq<Sched>

  const TABLE_SIZE := DAYS_PER_WEEK * NUMBER_OF_CHANNELS

  function Cell(day: int, channel: int): int {
    day * NUMBER_OF_CHANNELS + channel
  }

  predicate IsDay(d: int) {
    0 <= d < DAYS_PER_WEEK
  }

  predicate IsChannel(c: int) {
    0 <= c < NUMBER_OF_CHANNELS
  }

  datatype Sys = Sys(force: int, chans: seq<Chan>, sch: Table, lib: seq<Tmpl>, tplIndex: int)

  ghost predicate TableOk(t: Table) {
    |t| == TABLE_SIZE && forall i :: 0 <= i < TABLE_SIZE ==> WellFormed(t[i])
  }

  predicate ChanOk(c: Chan) {
    0 <= c.mode <= 2 && (c.state == 0 || c.state == 1) && 0 <= c.sensorId < NUMBER_OF_SENSORS
  }

  ghost predicate ChansOk(cs: seq<Chan>) {
    |cs| == NUMBER_OF_CHANNELS && forall c :: 0 <= c < NUMBER_OF_CHANNELS ==> ChanOk(cs[c])
  }

  /** All ten slots are well formed, used or stale. */
  ghost predicate LibOk(lib: seq<Tmpl>) {
    |lib| == MAX_TEMPLATES && forall i :: 0 <= i < MAX_TEMPLATES ==> WellFormed(lib[i].recs)
  }

  ghost predicate SysOk(y: Sys) {
    && (y.force == 0 || y.force == 1)
    && ChansOk(y.chans)
    && TableOk(y.sch)
    && LibOk(y.lib)
    && 0 <= y.tplIndex <= MAX_TEMPLATES
  }

  function ZeroSys(): Sys {
    Sys(0, seq(NUMBER_OF_CHANNELS, _ => Chan(0, 0, 0, "", false)), seq(TABLE_SIZE, _ => []),
        seq(MAX_TEMPLATES, _ => Tmpl("", [])), 0)
  }
}
