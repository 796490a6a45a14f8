/** Laws of single commands, and the concrete runs on which the command machine breaks. */
module CmdFindings {
  import opened Chars
  import opened CmdTables
  import opened CmdSpec
  import opened CmdRuns
  import opened Schedule
  import opened SharedData
  import opened Tokens

  // ----- the token queue -----

  /** Feeding two queues one after the other is feeding their concatenation, unless a token of the
      first is refused: then everything behind it is dropped. */
  lemma {:induction false} DrainConcat(q1: seq<string>, q2: seq<string>, m: Mach)
    requires Reachable(m.cb.state)
    ensures var o := Drain(q1, m);
            Drain(q1 + q2, m) == if o.Done? && o.rc != 1 then Drain(q2, o.m) else o
    decreases |q1|
  {
    if q1 == [] {
      assert q1 + q2 == q2;
    } else {
      assert (q1 + q2)[1..] == q1[1..] + q2;
      var o := Cycle(q1[0], m);
      if o.Done? && o.rc != 1 {
        DrainConcat(q1[1..], q2, o.m);
      }
    }
  }

  lemma DrainCons(text: string, q: seq<string>, m: Mach)
    requires Reachable(m.cb.state)
    ensures var o := Cycle(text, m);
            Drain([text] + q, m) == if o.Done? && o.rc != 1 then Drain(q, o.m) else o
  {
    assert ([text] + q)[1..] == q;
  }

  // ----- editing a record -----

  /** Setting a temperature leaves the record's on/off state alone exactly when it is the first
      record or was off: the search behind it only ever finds the first one. */
  lemma SetTempKeepsStateIff(tok: Tok, m: Mach)
    requires Inv(m) && HasKey(m.cb.buffer.recs, KeyOf(m.cb.hours, m.cb.minutes))
    ensures var recs, i := m.cb.buffer.recs, IndexOf(m.cb.buffer.recs, KeyOf(m.cb.hours, m.cb.minutes));
            var o := SetRecTemp(tok, m);
            o.Done? && i < |recs| == |o.m.cb.buffer.recs| &&
            o.m.cb.buffer.recs[i].temp == tok.value &&
            (o.m.cb.buffer.recs[i].state == recs[i].state <==> i == 0 || recs[i].state == 0)
  {
    var recs, key := m.cb.buffer.recs, KeyOf(m.cb.hours, m.cb.minutes);
    var i := IndexOf(recs, key);
    if i != 0 {
      assert recs[0].key != key;
    }
  }

  /** Switching a record on or off keeps its temperature and humidity under the same condition. */
  lemma SetStateKeepsTargetsIff(on: int, m: Mach)
    requires Inv(m) && HasKey(m.cb.buffer.recs, KeyOf(m.cb.hours, m.cb.minutes))
    ensures var recs, i := m.cb.buffer.recs, IndexOf(m.cb.buffer.recs, KeyOf(m.cb.hours, m.cb.minutes));
            var o := SetRecState(on, m);
            o.Done? && i < |recs| == |o.m.cb.buffer.recs| &&
            o.m.cb.buffer.recs[i].state == on &&
            (o.m.cb.buffer.recs[i].temp == recs[i].temp && o.m.cb.buffer.recs[i].humid == recs[i].humid
             <==> i == 0 || (recs[i].temp == 0 && recs[i].humid == 0))
  {
    var recs, key := m.cb.buffer.recs, KeyOf(m.cb.hours, m.cb.minutes);
    var i := IndexOf(recs, key);
    if i != 0 {
      assert recs[0].key != key;
    }
  }

  // ----- templates, tables and the backup -----

  /** A template that was saved can be loaded back; the buffer is empty in between. */
  lemma SavedTemplateLoadsBack(name: Tok, m: Mach)
    requires Inv(m) && m.sys.tplIndex < MAX_TEMPLATES && TextFits(Dequote(name.text), TEMPLATE_NAME_SIZE)
    ensures var saved := SaveTemplate(name, m);
            saved.Done? && saved.m.cb.buffer.recs == [] && saved.m.sys.tplIndex == m.sys.tplIndex + 1 &&
            LoadTemplate(Tok(INT_TOKEN, m.sys.tplIndex, ""), saved.m).Done? &&
            LoadTemplate(Tok(INT_TOKEN, m.sys.tplIndex, ""), saved.m).m.cb.buffer
              == Tmpl(Dequote(name.text), m.cb.buffer.recs)
  {
  }

  /** Deleting template `v` renumbers the later ones down by one and keeps the earlier ones. */
  lemma DeleteTemplateRenumbers(v: Tok, m: Mach, i: int)
    requires Inv(m) && 0 <= v.value < m.sys.tplIndex && 0 <= i < m.sys.tplIndex - 1
    ensures var o := DeleteTemplate(v, m);
            o.Done? && o.rc == 0 && o.m.sys.tplIndex == m.sys.tplIndex - 1 && |o.m.sys.lib| == MAX_TEMPLATES &&
            o.m.sys.lib[i] == m.sys.lib[if i < v.value then i else i + 1]
  {
  }

  /** Loading the working table changes exactly the cells that the working day and channel cover. */
  lemma LoadWorkIsExact(m: Mach, d: int, c: int)
    requires Inv(m) && IsDay(d) && IsChannel(c)
    ensures LoadWork(m).Done? && |LoadWork(m).m.cb.work| == TABLE_SIZE && 0 <= Cell(d, c) < TABLE_SIZE
    ensures LoadWork(m).m.cb.work[Cell(d, c)] ==
            if Covers(m.cb.day, m.cb.channel, d, c) then m.cb.buffer.recs else m.cb.work[Cell(d, c)]
  {
    assert Cell(d, c) / NUMBER_OF_CHANNELS == d && Cell(d, c) % NUMBER_OF_CHANNELS == c;
  }

  // ----- runs that break -----

  lemma KeywordCycle(t: nat, m: Mach)
    requires IsKeyword(t) && Reachable(m.cb.state)
    ensures Cycle(Keyword(t), m) == Step(Tok(t, t, Keyword(t)), m)
  {
    KeywordsAreLower(t);
    KeywordsAreRecognised(t, Keyword(t));
  }

  lemma SeditOpensTheSensorEditor(m: Mach)
    requires m.cb.state == 0
    ensures Cycle("sedit", m) == Done(0, m.(cb := m.cb.(state := 29)))
  {
    hide Cycle;
    KeywordCycle(9, m);
  }

  lemma OneSelectsSensorOne(m: Mach)
    requires m.cb.state == 29
    ensures Cycle("1", m) == Done(0, m.(cb := m.cb.(state := 30, sensor := 1)))
  {
    assert Decimal("1") == 1;
    assert Classify("1") == Some(Tok(INT_TOKEN, 1, "1"));
  }

  /** In the sensor editor the word "channel" passes for minute 30, and all of it is copied into a
      field for three characters. */
  lemma ChannelWordFaults(m: Mach)
    requires m.cb.state == 30
    ensures Cycle("channel", m) == Fault
  {
    hide Cycle;
    KeywordCycle(30, m);
  }

  /** So "sedit 1 channel" overruns that field from any reset machine. */
  lemma ChannelWordOverrunsTheMinuteField(m: Mach)
    requires m.cb.state == 0
    ensures Drain(["sedit", "1", "channel"], m) == Fault
  {
    DrainCons("sedit", ["1", "channel"], m);
    SeditOpensTheSensorEditor(m);
    var m1 := Cycle("sedit", m).m;
    DrainCons("1", ["channel"], m1);
    OneSelectsSensorOne(m1);
    var m2 := Cycle("1", m1).m;
    DrainCons("channel", [], m2);
    ChannelWordFaults(m2);
  }

  /** Every group name that the sensor editor accepts overruns the group field by one cell. */
  lemma AcceptedGroupNamesOverrun(text: string, m: Mach)
    requires m.cb.state == 31 && text != "" && text[0] == QUOTE
    ensures Cycle(text, m) == Fault <==> |text| <= GROUP_NAME_SIZE + 2
  {
    assert Classify(text) == Some(Tok(STR_TOKEN, -1, text));
  }

  /** Showing the system schedule overruns the printer's cell text exactly when a channel that is not
      hidden has a record in it. */
  lemma ShowingASystemRecordFaults(m: Mach)
    requires Inv(m) && m.cb.state <= 28
    ensures Cycle("ssch", m) == Fault <==> !NothingToShow(m.sys.chans, m.sys.sch)
  {
    hide PrintFits;
    hide NothingToShow;
    hide Cycle;
    KeywordCycle(31, m);
    PrintFitsIff(m.sys.chans, m.sys.sch);
  }

  /** The same for the working schedule. */
  lemma ShowingAWorkingRecordFaults(m: Mach)
    requires Inv(m) && m.cb.state <= 28
    ensures Cycle("wsch", m) == Fault <==> !NothingToShow(m.sys.chans, m.cb.work)
  {
    hide PrintFits;
    hide NothingToShow;
    hide Cycle;
    KeywordCycle(32, m);
    PrintFitsIff(m.sys.chans, m.cb.work);
  }

  lemma MinusFiveIsANumber()
    ensures Classify("-5") == Some(Tok(INT_TOKEN, -5, "-5"))
  {
    assert Unsigned("-5") == "5" && Decimal("5") == 5;
  }

  lemma MinusFiveIsTaken(m: Mach)
    requires m.cb.state == 0
    ensures Cycle("-5", m) == Done(0, m.(cb := m.cb.(state := 1, channel := -5, minutes := 0, hours := 0)))
  {
    MinusFiveIsANumber();
    hide Classify;
  }

  lemma OnFaultsOutside(m: Mach)
    requires m.cb.state == 1 && !(0 <= m.cb.channel < |m.sys.chans|)
    ensures Cycle("on", m) == Fault
  {
    hide Cycle;
    KeywordCycle(12, m);
  }

  /** A negative channel number is accepted, and the next command indexes the channel array with it. */
  lemma NegativeChannelIsAcceptedAndThenFaults(m: Mach)
    requires Inv(m) && m.cb.state == 0
    ensures Drain(["-5", "on"], m) == Fault
  {
    hide Drain;
    hide Cycle;
    assert ["-5"] + ["on"] == ["-5", "on"] && ["on"] + [] == ["on"];
    DrainCons("-5", ["on"], m);
    MinusFiveIsTaken(m);
    var m1 := m.(cb := m.cb.(state := 1, channel := -5, minutes := 0, hours := 0));
    DrainCons("on", [], m1);
    OnFaultsOutside(m1);
  }

  lemma ScheduleOpensTheBuffer(m: Mach)
    requires m.cb.state == 0
    ensures Cycle("schedule", m) == Done(0, m.(cb := m.cb.(state := 4)))
  {
    hide Cycle;
    KeywordCycle(3, m);
  }

  lemma SetAsksForTheDay(m: Mach)
    requires m.cb.state == 4
    ensures Cycle("set", m) == Done(0, m.(cb := m.cb.(state := 5)))
  {
    hide Cycle;
    KeywordCycle(25, m);
  }

  lemma StarTakesAllDays(m: Mach)
    requires m.cb.state == 5
    ensures Cycle("*", m) == Done(0, m.(cb := m.cb.(state := 9, day := ALL_DAYS)))
  {
    hide Cycle;
    KeywordCycle(1, m);
  }

  lemma StarTakesAllChannels(m: Mach)
    requires m.cb.state == 9 && m.cb.day == ALL_DAYS
    ensures var o := Cycle("*", m);
            o.Done? && o.rc == 0 && o.m.cb.state == 4 && o.m.cb.channel == ALL_CHANNELS && o.m.sys == m.sys
  {
    hide Cycle;
    KeywordCycle(1, m);
  }

  lemma DoneLeavesTheBuffer(m: Mach)
    requires m.cb.state == 4
    ensures Cycle("done", m) == Done(0, m.(cb := m.cb.(state := 0)))
  {
    hide Cycle;
    KeywordCycle(27, m);
  }

  lemma SensorOnAllChannelsFaults(m: Mach)
    requires m.cb.state == 0 && m.cb.channel == ALL_CHANNELS && |m.sys.chans| == NUMBER_OF_CHANNELS
    ensures Cycle("sensor", m) == Fault
  {
    hide Cycle;
    KeywordCycle(17, m);
  }

  /** After "all channels" the sensor command, which state 0 accepts, writes to channel 99. */
  lemma SensorModeAfterAllChannelsFaults(m: Mach)
    requires Inv(m) && m.cb.state == 0
    ensures Drain(["schedule", "set", "*", "*", "done", "sensor"], m) == Fault
  {
    DrainCons("schedule", ["set", "*", "*", "done", "sensor"], m);
    ScheduleOpensTheBuffer(m);
    var m1 := Cycle("schedule", m).m;
    DrainCons("set", ["*", "*", "done", "sensor"], m1);
    SetAsksForTheDay(m1);
    var m2 := Cycle("set", m1).m;
    DrainCons("*", ["*", "done", "sensor"], m2);
    StarTakesAllDays(m2);
    var m3 := Cycle("*", m2).m;
    DrainCons("*", ["done", "sensor"], m3);
    StarTakesAllChannels(m3);
    var m4 := Cycle("*", m3).m;
    DrainCons("done", ["sensor"], m4);
    DoneLeavesTheBuffer(m4);
    var m5 := Cycle("done", m4).m;
    DrainCons("sensor", [], m5);
    SensorOnAllChannelsFaults(m5);
  }
}
