/** The command machine in its own form: a control block whose routines update it, the template buffer
    and shared memory in place. Every method is proved against `CmdSpec` and asks of its caller only that
    the step does not leave an array or a text field. */
module CmdMachine {
  import opened CmdTables
  import opened CmdSpec
  import opened Schedule
  import opened SharedData
  import opened Templates
  import opened TokenQueues
  import opened Tokens

  class SharedMemory {
    var force: int
    var sch: Table
    var tplIndex: int
    const chans: array<Chan>
    const lib: array<Tmpl>

    ghost predicate Valid()
      reads this
    {
      chans.Length == NUMBER_OF_CHANNELS && lib.Length == MAX_TEMPLATES && |sch| == TABLE_SIZE
    }

    ghost function View(): Sys
      reads this, chans, lib
    {
      Sys(force, chans[..], sch, lib[..], tplIndex)
    }

    /** The loop of c_14: later templates move down one; the last used slot keeps its copy. */
    method DropTemplate(v: int)
      requires Valid() && 0 <= v < tplIndex <= MAX_TEMPLATES
      modifies this`tplIndex, lib
      ensures tplIndex == old(tplIndex) - 1
      ensures lib[..] == old(lib[..v]) + old(lib[v + 1..tplIndex]) + old(lib[tplIndex - 1..])
    {
      var i := v;
      while i < tplIndex - 1
        invariant v <= i <= tplIndex - 1 && tplIndex == old(tplIndex)
        invariant forall j :: 0 <= j < v || i <= j < MAX_TEMPLATES ==> lib[j] == old(lib[j])
        invariant forall j :: v <= j < i ==> lib[j] == old(lib[j + 1])
      {
        lib[i] := lib[i + 1];
        i := i + 1;
      }
      tplIndex := tplIndex - 1;
    }

    constructor ()
      ensures Valid() && View() == ZeroSys() && fresh(chans) && fresh(lib)
    {
      chans := new Chan[NUMBER_OF_CHANNELS](_ => Chan(0, 0, 0, "", false));
      lib := new Tmpl[MAX_TEMPLATES](_ => Tmpl("", []));
      sch := ZeroSys().sch;
      force, tplIndex := 0, 0;
      new;
      assert chans[..] == ZeroSys().chans && lib[..] == ZeroSys().lib;
    }
  }

  /** No template holds more records than the structure has room for. */
  ghost predicate Fits(lib: seq<Tmpl>) {
    forall i :: 0 <= i < |lib| ==> |lib[i].recs| <= MAX_SCHEDULE_RECS
  }

  ghost predicate SysFits(y: Sys) {
    |y.chans| == NUMBER_OF_CHANNELS && |y.lib| == MAX_TEMPLATES && |y.sch| == TABLE_SIZE && Fits(y.lib)
  }

  class CommandMachine {
    const shm: SharedMemory
    const buffer: Template
    var bufferName: string
    var state: nat
    var token: string
    var tokenValue: int
    var channel: int
    var hours: int
    var minutes: int
    var day: int
    var sensor: int
    var work: Table
    var backup: Option<Sys>

    ghost predicate Valid()
      reads this, shm, shm.lib, buffer
    {
      && shm.Valid() && buffer.Valid() && |work| == TABLE_SIZE && Reachable(state)
      && Fits(shm.lib[..]) && (backup.Some? ==> SysFits(backup.value))
    }

    ghost function View(): Mach
      requires buffer.Valid()
      reads this, shm, shm.chans, shm.lib, buffer, buffer.rec
    {
      Mach(Cb(state, channel, hours, minutes, day, sensor, Tmpl(bufferName, buffer.Contents()), work),
           shm.View(), backup)
    }

    /** The memory every routine may touch. */
    ghost function Repr(): set<object>
    {
      {this, shm, shm.chans, shm.lib, buffer, buffer.rec}
    }

    /** A routine with outcome `o` answered `rc`. */
    ghost predicate Did(o: Outcome, rc: int)
      reads this, shm, shm.chans, shm.lib, buffer, buffer.rec
    {
      Valid() && o == Done(rc, View())
    }

    constructor (shared: SharedMemory)
      requires shared.Valid() && Fits(shared.lib[..])
      ensures Valid() && shm == shared && fresh(buffer) && fresh(buffer.rec)
      ensures View() == Mach(Cb(0, 0, 0, 0, 0, 0, Tmpl("", []), shared.sch), shared.View(), None)
    {
      shm := shared;
      buffer := new Template();
      bufferName, state, token, tokenValue := "", 0, "", 0;
      channel, hours, minutes, day, sensor := 0, 0, 0, 0, 0;
      work := shared.sch; // the program starts by loading the working table from the system table
      backup := None;
    }

    // ----- routines on the control block -----

    method C4() returns (rc: int)
      requires Valid()
      modifies this
      ensures Did(SetWorkChannel(Tok(0, old(tokenValue), old(token)), old(View())), rc)
      ensures token == old(token) && tokenValue == old(tokenValue)
    {
      if tokenValue < NUMBER_OF_CHANNELS {
        channel := tokenValue;
        minutes := 0;
        hours := 0;
        return 0;
      } else {
        return 1;
      }
    }

    method C20() returns (rc: int)
      requires Valid() && SetHours(Tok(0, tokenValue, token), View()) != Fault
      modifies this
      ensures Did(SetHours(Tok(0, old(tokenValue), old(token)), old(View())), rc)
    {
      if tokenValue > 23 || tokenValue < 0 {
        return 1;
      }
      hours := tokenValue;
      return 0;
    }

    method C21() returns (rc: int)
      requires Valid() && SetMinutes(Tok(0, tokenValue, token), View()) != Fault
      modifies this
      ensures Did(SetMinutes(Tok(0, old(tokenValue), old(token)), old(View())), rc)
    {
      if tokenValue > 59 || tokenValue < 0 {
        return 1;
      }
      minutes := tokenValue;
      return 0;
    }

    method C30() returns (rc: int)
      requires Valid()
      modifies this
      ensures Did(SetDay(Tok(0, old(tokenValue), old(token)), old(View())), rc)
    {
      if tokenValue > 0 && tokenValue < DAYS_PER_WEEK + 1 {
        day := tokenValue - 1;
        return 0;
      }
      return 1;
    }

    method C68() returns (rc: int)
      requires Valid()
      modifies this
      ensures Did(SetWorkSensor(Tok(0, old(tokenValue), old(token)), old(View())), rc)
    {
      if tokenValue > NUMBER_OF_SENSORS - 1 {
        return 2;
      }
      sensor := tokenValue;
      return 0;
    }

    // ----- routines on the template buffer -----

    /** The record that c_22, c_23, c_27 and c_28 start from. */
    method Hold() returns (hold: Rec)
      requires Valid()
      ensures hold == Held(View().cb)
    {
      var i := FindTmplKey(buffer.rec[..buffer.rcnt], hours, minutes);
      if i != -1 {
        hold := buffer.rec[i];
      } else {
        hold := Rec(0, 0, 0, 0);
      }
    }

    method SwitchRec(on: int) returns (rc: int)
      requires Valid()
      modifies Repr()
      ensures Did(SetRecState(on, old(View())), rc)
    {
      var hold := Hold();
      var _ := buffer.AddTmplRec(hours, minutes, on, hold.temp, hold.humid);
      return 0;
    }

    method C27() returns (rc: int)
      requires Valid()
      modifies Repr()
      ensures Did(SetRecTemp(Tok(0, old(tokenValue), old(token)), old(View())), rc)
    {
      var hold := Hold();
      var _ := buffer.AddTmplRec(hours, minutes, hold.state, tokenValue, hold.humid);
      return 0;
    }

    method C28() returns (rc: int)
      requires Valid()
      modifies Repr()
      ensures Did(SetRecHumid(Tok(0, old(tokenValue), old(token)), old(View())), rc)
    {
      var hold := Hold();
      var _ := buffer.AddTmplRec(hours, minutes, hold.state, hold.temp, tokenValue);
      return 0;
    }

    method C24() returns (rc: int)
      requires Valid()
      modifies Repr()
      ensures Did(DeleteRec(old(View())), rc)
    {
      var _ := buffer.DelTmplRec(hours, minutes);
      return 0;
    }

    method C33() returns (rc: int)
      requires Valid()
      modifies buffer
      ensures Did(ClearBuffer(old(View())), rc)
    {
      buffer.rcnt := 0;
      return 0;
    }

    // ----- routines on the template library -----

    method C14() returns (rc: int)
      requires Valid() && DeleteTemplate(Tok(0, tokenValue, token), View()) != Fault
      modifies Repr()
      ensures Did(DeleteTemplate(Tok(0, old(tokenValue), old(token)), old(View())), rc)
    {
      if tokenValue < 0 || tokenValue > shm.tplIndex - 1 {
        return 1;
      }
      ghost var lib, n, v := shm.lib[..], shm.tplIndex, tokenValue;
      shm.DropTemplate(tokenValue);
      assert forall j :: 0 <= j < MAX_TEMPLATES ==> shm.lib[j] in lib;
      return 0;
    }

    method C51() returns (rc: int)
      requires Valid() && SaveTemplate(Tok(0, tokenValue, token), View()) != Fault
      modifies Repr()
      ensures Did(SaveTemplate(Tok(0, old(tokenValue), old(token)), old(View())), rc)
    {
      if shm.tplIndex + 1 > MAX_TEMPLATES {
        return 0;
      }
      shm.lib[shm.tplIndex] := Tmpl(bufferName, buffer.rec[..buffer.rcnt]);
      shm.lib[shm.tplIndex] := shm.lib[shm.tplIndex].(name := Dequote(token));
      shm.tplIndex := shm.tplIndex + 1;
      rc := C33();
    }

    method C61() returns (rc: int)
      requires Valid() && LoadTemplate(Tok(0, tokenValue, token), View()) != Fault
      modifies Repr()
      ensures Did(LoadTemplate(Tok(0, old(tokenValue), old(token)), old(View())), rc)
      ensures 0 <= old(tokenValue) < shm.lib.Length && View().cb.buffer == old(shm.lib[..])[old(tokenValue)]
    {
      var t := shm.lib[tokenValue];
      bufferName := t.name;
      CopyRecords(t.recs);
      return 0;
    }

    /** The record part of a structure copy into the buffer. */
    method CopyRecords(s: Sched)
      requires Valid() && |s| <= MAX_SCHEDULE_RECS
      modifies buffer, buffer.rec
      ensures Valid() && buffer.Contents() == s
    {
      forall i | 0 <= i < |s| {
        buffer.rec[i] := s[i];
      }
      buffer.rcnt := |s|;
    }

    // ----- routines on the schedule tables -----

    /** `sch[d][c] = w_template_buffer` */
    method PutCell(d: int, c: int)
      requires Valid() && IsDay(d) && IsChannel(c)
      modifies this
      ensures Valid() && work == old(work)[Cell(d, c) := buffer.Contents()]
      ensures View() == old(View()).(cb := old(View()).cb.(work := work))
      ensures token == old(token) && tokenValue == old(tokenValue) && channel == old(channel) && day == old(day)
    {
      work := work[d * NUMBER_OF_CHANNELS + c := buffer.rec[..buffer.rcnt]];
    }

    /** One day's row, for one channel or all of them. */
    method PutDay(d: int)
      requires Valid() && IsDay(d) && (channel == ALL_CHANNELS || IsChannel(channel))
      modifies this
      ensures Valid() && work == LoadTable(old(work), d, channel, buffer.Contents())
      ensures View() == old(View()).(cb := old(View()).cb.(work := work))
      ensures token == old(token) && tokenValue == old(tokenValue) && channel == old(channel) && day == old(day)
    {
      ghost var t, s, m := work, buffer.Contents(), View();
      if channel == ALL_CHANNELS {
        var c := 0;
        while c < NUMBER_OF_CHANNELS
          invariant 0 <= c <= NUMBER_OF_CHANNELS && Valid() && View() == m.(cb := m.cb.(work := work))
          invariant token == old(token) && tokenValue == old(tokenValue)
          invariant forall i :: 0 <= i < TABLE_SIZE ==>
                      work[i] == if Cell(d, 0) <= i < Cell(d, c) then s else t[i]
        {
          PutCell(d, c);
          c := c + 1;
        }
        RowCells(t, d, s);
      } else {
        PutCell(d, channel);
        OneCell(t, d, channel, s);
      }
    }

    method LoadWsch() returns (rc: int)
      requires Valid() && LoadWork(View()) != Fault
      modifies this
      ensures Did(LoadWork(old(View())), rc)
    {
      ghost var t, s, m := work, buffer.Contents(), View();
      if day == ALL_DAYS {
        var d := 0;
        while d < DAYS_PER_WEEK
          invariant 0 <= d <= DAYS_PER_WEEK && Valid() && View() == m.(cb := m.cb.(work := work))
          invariant forall i :: 0 <= i < TABLE_SIZE ==>
                      work[i] == if i < Cell(d, 0) && Covers(ALL_DAYS, channel, i / NUMBER_OF_CHANNELS, i % NUMBER_OF_CHANNELS)
                                 then s else t[i]
        {
          ghost var before := work;
          PutDay(d);
          NextRow(t, before, work, d, channel, s);
          d := d + 1;
        }
        assert work == LoadTable(t, ALL_DAYS, channel, s);
      } else {
        PutDay(day);
      }
      return 0;
    }

    method C29() returns (rc: int)
      requires Valid() && LoadWorkChannel(Tok(0, tokenValue, token), View()) != Fault
      modifies this
      ensures Did(LoadWorkChannel(Tok(0, old(tokenValue), old(token)), old(View())), rc)
    {
      channel := tokenValue;
      rc := LoadWsch();
    }

    method C31() returns (rc: int)
      requires Valid() && LoadWorkAllChannels(View()) != Fault
      modifies this
      ensures Did(LoadWorkAllChannels(old(View())), rc)
    {
      channel := ALL_CHANNELS;
      rc := LoadWsch();
    }

    method C39() returns (rc: int)
      requires Valid()
      modifies shm
      ensures Did(ReplaceSchedule(old(View())), rc)
    {
      shm.sch := work;
      shm.force := 1;
      return 0;
    }

    // ----- routines on the channel data -----

    /** c_9 to c_12 */
    method SetChannelMode(mode: int, on: int) returns (rc: int)
      requires Valid() && SetMode(mode, on, View()) != Fault
      modifies shm, shm.chans
      ensures Did(SetMode(mode, on, old(View())), rc)
    {
      ghost var cs := shm.chans[..];
      shm.chans[channel] := shm.chans[channel].(mode := mode);
      shm.chans[channel] := shm.chans[channel].(state := on);
      shm.force := 1;
      assert shm.chans[..] == cs[channel := cs[channel].(mode := mode, state := on)];
      return 0;
    }

    method C5() returns (rc: int)
      requires Valid() && SetName(Tok(0, tokenValue, token), View()) != Fault
      modifies shm.chans
      ensures Did(SetName(Tok(0, old(tokenValue), old(token)), old(View())), rc)
    {
      ghost var cs := shm.chans[..];
      shm.chans[channel] := shm.chans[channel].(name := Dequote(token));
      assert shm.chans[..] == cs[channel := cs[channel].(name := Dequote(token))];
      return 0;
    }

    /** c_75 and c_76 */
    method SetChannelHidden(hidden: bool) returns (rc: int)
      requires Valid() && SetHide(hidden, View()) != Fault
      modifies shm.chans
      ensures Did(SetHide(hidden, old(View())), rc)
    {
      ghost var cs := shm.chans[..];
      shm.chans[channel] := shm.chans[channel].(hidden := hidden);
      assert shm.chans[..] == cs[channel := cs[channel].(hidden := hidden)];
      return 0;
    }

    // ----- backup -----

    method C25() returns (rc: int)
      requires Valid()
      modifies this
      ensures Did(Backup(old(View())), rc)
    {
      backup := Some(Sys(shm.force, shm.chans[..], shm.sch, shm.lib[..], shm.tplIndex));
      return 0;
    }

    method C19() returns (rc: int)
      requires Valid()
      modifies Repr()
      ensures Did(Restore(old(View())), rc)
    {
      if backup.Some? {
        var y := backup.value;
        forall i | 0 <= i < NUMBER_OF_CHANNELS {
          shm.chans[i] := y.chans[i];
        }
        forall i | 0 <= i < MAX_TEMPLATES {
          shm.lib[i] := y.lib[i];
        }
        shm.force, shm.sch, shm.tplIndex := y.force, y.sch, y.tplIndex;
        assert shm.chans[..] == y.chans && shm.lib[..] == y.lib;
      }
      return 0;
    }

    // ----- dispatch -----

    /** The token as the routines see it. */
    ghost function Current(index: nat): Tok
      reads this
    {
      Tok(index, tokenValue, token)
    }

    method DispatchOnBuffer(a: nat) returns (rc: int)
      requires Valid() && ActOnBuffer(a, Current(0), View()) != Fault
      modifies Repr()
      ensures Did(ActOnBuffer(a, old(Current(0)), old(View())), rc)
    {
      match a
      case 22 => rc := SwitchRec(1);
      case 23 => rc := SwitchRec(0);
      case 24 => rc := C24();
      case 27 => rc := C27();
      case 28 => rc := C28();
      case 33 => rc := C33();
      case 51 => rc := C51();
      case 61 => rc := C61();
      case 14 => rc := C14();
      case _ => rc := if a == 7 || a == 8 then 1 else 0;
    }

    method DispatchOnSystem(a: nat) returns (rc: int)
      requires Valid() && ActOnSystem(a, Current(0), View()) != Fault
      modifies Repr()
      ensures Did(ActOnSystem(a, old(Current(0)), old(View())), rc)
    {
      match a
      case 5 => rc := C5();
      case 9 => rc := SetChannelMode(0, 1);
      case 10 => rc := SetChannelMode(0, 0);
      case 11 => rc := SetChannelMode(1, 0);
      case 12 => rc := SetChannelMode(2, 0);
      case 39 => rc := C39();
      case 75 => rc := SetChannelHidden(true);
      case 76 => rc := SetChannelHidden(false);
      case 25 => rc := C25();
      case 19 => rc := C19();
      case _ => rc := DispatchOnBuffer(a);
    }

    /** `cmd_action[index][state](cb)`; only routine 3 ends the program. */
    method Dispatch(a: nat) returns (rc: int)
      requires Valid() && a != 18 && a != 49 && a != 3 && Act(a, Current(0), View()) != Fault
      modifies Repr()
      ensures Did(Act(a, old(Current(0)), old(View())), rc)
    {
      match a
      case 4 => rc := C4();
      case 20 => rc := C20();
      case 21 => rc := C21();
      case 29 => rc := C29();
      case 30 => rc := C30();
      case 31 => rc := C31();
      case 32 =>
        day := ALL_DAYS;
        rc := 0;
      case 68 => rc := C68();
      case 69 => rc := 2; // a name that is not too long overruns the field
      case 70 => rc := if |token| > DESCRIPTION_NAME_SIZE + 2 then 2 else 0;
      case 47 => rc := 0;
      case 57 => rc := 0;
      case 58 => rc := 0;
      case 73 => rc := 0;
      case _ => rc := DispatchOnSystem(a);
    }

    /** The first half of `cmd_fsm`: the token's row, None for an empty token. The word that `token_type`
        lower-cases in place is only printed afterwards, so `token` keeps what was typed. */
    method ReadToken() returns (index: Option<nat>)
      requires Valid()
      modifies this`tokenValue
      ensures Valid() && View() == old(View()) && token == old(token)
      ensures Classify(token) == if index.Some? then Some(Current(index.value)) else None
    {
      hide FindKeyword;
      var tt, _ := TokenType(token);
      FindKeywordRange(LowerAll(token), 0);
      if tt == TT_NULL {
        return None;
      }
      if tt == TT_INT {
        tokenValue := IntValue(token);
        return Some(INT_TOKEN);
      }
      if tt == TT_STR || tt == TT_UNREC {
        tokenValue := -1;
        return Some(if tt == TT_STR then STR_TOKEN else OTHER_TOKEN);
      }
      tokenValue := tt;
      return Some(tt);
    }

    /** `cmd_fsm`, with the token in `token`: `exited` reports that the program ended. */
    method CmdFsm() returns (rc: int, exited: bool)
      requires Valid() && Cycle(token, View()) != Fault
      modifies Repr()
      ensures exited <==> Cycle(old(token), old(View())).Exited?
      ensures !exited ==> Did(Cycle(old(token), old(View())), rc)
    {
      var index := ReadToken();
      if index == None {
        return 0, false;
      }
      rc, exited := FireRow(index.value);
    }

    /** The second half of `cmd_fsm`: fire the routine of the row and take its answer. */
    method FireRow(index: nat) returns (rc: int, exited: bool)
      requires Valid() && index < CMD_TOKENS && Step(Current(index), View()) != Fault
      modifies Repr()
      ensures exited <==> Step(old(Current(index)), old(View())).Exited?
      ensures !exited ==> Did(Step(old(Current(index)), old(View())), rc)
    {
      var a, next := ActionOf(index, state), NewState(index, state);
      TablesStayReachable(index, state);
      rc, exited := FireRoutine(a, next, index);
    }

    method FireRoutine(a: nat, next: nat, ghost index: nat) returns (rc: int, exited: bool)
      requires Valid() && a != 18 && a != 49 && Fire(a, next, Current(index), View()) != Fault
      requires a == 7 || a == 8 || Reachable(next)
      modifies Repr()
      ensures exited <==> Fire(a, next, old(Current(index)), old(View())).Exited?
      ensures !exited ==> Did(Fire(a, next, old(Current(index)), old(View())), rc)
    {
      IndexDoesNotMatter(a, Current(index), Current(0), View());
      if a == 3 {
        return 0, true;
      }
      rc := Dispatch(a);
      if rc == 0 {
        state := next;
      }
      exited := false;
    }

    /** The inner loop of the main loop: feed the queue until it is empty or a token is refused. */
    method DrainQueue(q: TokenQueue) returns (exited: bool)
      requires Valid() && q.Valid() && Drain(q.Tokens(), View()) != Fault
      modifies Repr(), q
      ensures exited <==> Drain(old(q.Tokens()), old(View())).Exited?
      ensures !exited ==> Valid() && q.Valid() && q.Tokens() == []
      ensures !exited ==> View() == Drain(old(q.Tokens()), old(View())).m
    {
      hide Cycle;
      hide Texts;
      ghost var o := Drain(q.Tokens(), View());
      var more;
      more, token := q.PopCmdQ();
      while more
        invariant Valid() && q.Valid() && o != Fault
        invariant more ==> o == Drain([token] + q.Tokens(), View())
        invariant !more ==> q.Tokens() == [] && o.Done? && o.m == View()
        decreases more, |q.Tokens()|
      {
        assert ([token] + q.Tokens())[1..] == q.Tokens();
        label Before:
        more, exited := CycleAndPop(q);
        if exited {
          return;
        }
        assert more ==> [token] + q.Tokens() == old@Before(q.Tokens());
      }
      exited := false;
    }

    /** The machine is where outcome `o` says, and the next token of the queue is in hand if there is one
        and `o` was no refusal. */
    ghost predicate Popped(o: Outcome, before: seq<string>, after: seq<string>, more: bool)
      reads this, shm, shm.chans, shm.lib, buffer, buffer.rec
    {
      && Valid() && o.Done? && View() == o.m && more == (o.rc != 1 && before != [])
      && if more then [token] + after == before else after == []
    }

    /** One pass of that loop: cycle the machine, empty the queue if the token was refused, pop the next. */
    method CycleAndPop(q: TokenQueue) returns (more: bool, exited: bool)
      requires Valid() && q.Valid() && Cycle(token, View()) != Fault
      modifies Repr(), q
      ensures exited <==> old(Cycle(token, View())).Exited?
      ensures !exited ==> Valid() && q.Valid() && Popped(old(Cycle(token, View())), old(q.Tokens()), q.Tokens(), more)
    {
      hide Cycle;
      hide Texts;
      var rc;
      rc, exited := CmdFsm();
      if exited {
        return false, true;
      }
      if rc == 1 {
        q.EmptyQueue();
      }
      more, token := q.PopCmdQ();
    }
  }

  lemma IndexDoesNotMatter(a: nat, t1: Tok, t2: Tok, m: Mach)
    requires a != 18 && a != 49 && t1.value == t2.value && t1.text == t2.text
    ensures Act(a, t1, m) == Act(a, t2, m)
  {
  }

  // ----- the table, cell by cell -----

  lemma CellOf(i: int)
    requires 0 <= i < TABLE_SIZE
    ensures IsDay(i / NUMBER_OF_CHANNELS) && IsChannel(i % NUMBER_OF_CHANNELS)
    ensures Cell(i / NUMBER_OF_CHANNELS, i % NUMBER_OF_CHANNELS) == i
  {
  }

  lemma OneCell(t: Table, d: int, c: int, s: Sched)
    requires |t| == TABLE_SIZE && IsDay(d) && IsChannel(c)
    ensures 0 <= Cell(d, c) < TABLE_SIZE && LoadTable(t, d, c, s) == t[Cell(d, c) := s]
  {
    forall i | 0 <= i < TABLE_SIZE
      ensures LoadTable(t, d, c, s)[i] == t[Cell(d, c) := s][i]
    {
      CellOf(i);
    }
  }

  lemma RowCells(t: Table, d: int, s: Sched)
    requires |t| == TABLE_SIZE && IsDay(d)
    ensures forall i :: 0 <= i < TABLE_SIZE ==>
              LoadTable(t, d, ALL_CHANNELS, s)[i] == if Cell(d, 0) <= i < Cell(d, NUMBER_OF_CHANNELS) then s else t[i]
  {
    forall i | 0 <= i < TABLE_SIZE
      ensures i / NUMBER_OF_CHANNELS == d <==> Cell(d, 0) <= i < Cell(d, NUMBER_OF_CHANNELS)
    {
      CellOf(i);
    }
  }

  lemma NextRow(t: Table, before: Table, after: Table, d: int, channel: int, s: Sched)
    requires |t| == |before| == TABLE_SIZE && IsDay(d) && after == LoadTable(before, d, channel, s)
    requires forall i :: 0 <= i < TABLE_SIZE ==>
               before[i] == if i < Cell(d, 0) && Covers(ALL_DAYS, channel, i / NUMBER_OF_CHANNELS, i % NUMBER_OF_CHANNELS)
                            then s else t[i]
    ensures forall i :: 0 <= i < TABLE_SIZE ==>
              after[i] == if i < Cell(d + 1, 0) && Covers(ALL_DAYS, channel, i / NUMBER_OF_CHANNELS, i % NUMBER_OF_CHANNELS)
                          then s else t[i]
  {
    forall i | 0 <= i < TABLE_SIZE
      ensures i / NUMBER_OF_CHANNELS == d <==> Cell(d, 0) <= i < Cell(d + 1, 0)
    {
      CellOf(i);
    }
  }
}
