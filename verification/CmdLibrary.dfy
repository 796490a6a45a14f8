/** Laws of the template library, the record editor, the name fields and the backup, with the sizes written
    out. */
module CmdLibrary {
  import opened Chars
  import opened CmdRuns
  import opened CmdSpec
  import opened CmdTables
  import opened Schedule
  import opened SharedData
  import opened Tokens

  // ----- names -----

  lemma {:induction false} DequoteConcat(s: string, t: string)
    ensures Dequote(s + t) == Dequote(s) + Dequote(t)
  {
    if s == "" {
      assert s + t == t;
    } else {
      assert (s + t)[1..] == s[1..] + t;
      DequoteConcat(s[1..], t);
      assert [s[0]] + (Dequote(s[1..]) + Dequote(t)) == ([s[0]] + Dequote(s[1..])) + Dequote(t);
    }
  }

  lemma {:induction false} DequotePlain(s: string)
    requires '\"' !in s
    ensures Dequote(s) == s
  {
    if s != "" {
      assert s == [s[0]] + s[1..] && s[0] in s;
      DequotePlain(s[1..]);
    }
  }

  function Quoted(text: string): string {
    "\"" + text + "\""
  }

  /** A name is stored without the quotes it was typed with. */
  lemma QuotesComeOff(text: string)
    requires '\"' !in text
    ensures Dequote(Quoted(text)) == text && |Quoted(text)| == |text| + 2
  {
    DequoteConcat("\"" + text, "\"");
    DequoteConcat("\"", text);
    DequotePlain(text);
    assert Dequote("\"") == "" by {
      assert "\""[1..] == "";
    }
  }

  lemma QuotedIsText(text: string)
    ensures Classify(Quoted(text)) == Some(Tok(STR_TOKEN, -1, Quoted(text)))
  {
    assert Quoted(text)[0] == QUOTE;
  }

  /** A channel name of twenty characters or more overruns its field; a shorter one becomes the name. */
  lemma ChannelNames(text: string, m: Mach)
    requires Inv(m) && m.cb.state == 1 && '\"' !in text
    ensures Cycle(Quoted(text), m) == Fault <==> |text| >= 20
    ensures |text| < 20 ==>
              var o := Cycle(Quoted(text), m);
              o.Done? && o.rc == 0 && o.m.cb == m.cb.(state := 0) &&
              o.m.sys == m.sys.(chans := m.sys.chans[m.cb.channel := m.sys.chans[m.cb.channel].(name := text)])
  {
    QuotesComeOff(text);
    QuotedIsText(text);
    hide Dequote;
    hide Classify;
  }

  /** The other text fields, with their sizes: hours and minutes as typed four cells, template names forty,
      sensor groups nine and descriptions 128. */
  lemma TextFields(tok: Tok, m: Mach)
    requires Inv(m)
    ensures SetHours(tok, m) == Fault <==> 0 <= tok.value <= 23 && |tok.text| >= 4
    ensures SetMinutes(tok, m) == Fault <==> 0 <= tok.value <= 59 && |tok.text| >= 4
    ensures SaveTemplate(tok, m) == Fault <==> m.sys.tplIndex < 10 && |Dequote(tok.text)| >= 40
    ensures SetSensorGroup(tok, m) == Fault <==> |tok.text| <= 11
    ensures SetSensorDescription(tok, m) == Fault <==> |tok.text| <= 130 && |Dequote(tok.text)| >= 128
  {
    hide Dequote;
  }

  // ----- the library as an array of slots -----

  /** Saving puts the buffer into the next slot and keeps the others: whatever is loaded afterwards is the
      saved buffer, or what was there before. */
  lemma SaveThenLoad(name: Tok, v: Tok, m: Mach)
    requires Inv(m) && m.sys.tplIndex < 10 && |Dequote(name.text)| < 40 && 0 <= v.value <= m.sys.tplIndex
    ensures var saved := SaveTemplate(name, m);
            saved.Done? && saved.rc == 0 && saved.m.sys.tplIndex == m.sys.tplIndex + 1 && saved.m.cb.buffer.recs == [] &&
            var loaded := LoadTemplate(v, saved.m);
            loaded.Done? && loaded.rc == 0 && loaded.m.sys == saved.m.sys && |m.sys.lib| == 10 &&
            loaded.m.cb.buffer == if v.value == m.sys.tplIndex then Tmpl(Dequote(name.text), m.cb.buffer.recs)
                                  else m.sys.lib[v.value]
  {
    hide Dequote;
  }

  /** A full library takes nothing more. */
  lemma FullLibraryStays(name: Tok, m: Mach)
    requires Inv(m) && m.sys.tplIndex == 10
    ensures SaveTemplate(name, m) == Done(0, m)
  {
  }

  /** After deleting template `v` each later one is loaded by the number before its own. */
  lemma DeleteThenLoad(v: Tok, i: Tok, m: Mach)
    requires Inv(m) && 0 <= v.value < m.sys.tplIndex && 0 <= i.value < m.sys.tplIndex - 1
    ensures var deleted := DeleteTemplate(v, m);
            deleted.Done? && deleted.rc == 0 && deleted.m.sys.tplIndex == m.sys.tplIndex - 1 &&
            var loaded := LoadTemplate(i, deleted.m);
            loaded.Done? && loaded.rc == 0 && |m.sys.lib| == 10 &&
            loaded.m.cb.buffer == m.sys.lib[if i.value < v.value then i.value else i.value + 1]
  {
    var lib, n := m.sys.lib, m.sys.tplIndex;
    assert (lib[..v.value] + lib[v.value + 1..n] + lib[n - 1..])[i.value]
        == lib[if i.value < v.value then i.value else i.value + 1];
  }

  /** Saving several templates in a row: the buffer is filled, then saved under the name. */
  function SaveAll(ts: seq<Tmpl>, m: Mach): Outcome
    decreases |ts|
  {
    if ts == [] then Done(0, m)
    else
      var o := SaveTemplate(Tok(STR_TOKEN, -1, ts[0].name), m.(cb := m.cb.(buffer := m.cb.buffer.(recs := ts[0].recs))));
      if o.Done? then SaveAll(ts[1..], o.m) else o
  }

  ghost predicate CanSave(ts: seq<Tmpl>, m: Mach) {
    && |m.sys.lib| == 10 && 0 <= m.sys.tplIndex && m.sys.tplIndex + |ts| <= 10
    && forall i :: 0 <= i < |ts| ==> |Dequote(ts[i].name)| < 40
  }

  /** Loading the k-th of them gives back its name and records; the slots before them are as they were. */
  lemma {:induction false} SavesLoadBack(ts: seq<Tmpl>, m: Mach, v: Tok)
    requires CanSave(ts, m) && 0 <= v.value < m.sys.tplIndex + |ts|
    ensures var o := SaveAll(ts, m);
            o.Done? && o.m.sys.tplIndex == m.sys.tplIndex + |ts| &&
            var loaded := LoadTemplate(v, o.m);
            loaded.Done? && loaded.rc == 0 &&
            var k := v.value - m.sys.tplIndex;
            loaded.m.cb.buffer == if k < 0 then m.sys.lib[v.value] else Tmpl(Dequote(ts[k].name), ts[k].recs)
    decreases |ts|
  {
    hide Dequote;
    if ts != [] {
      var o := SaveTemplate(Tok(STR_TOKEN, -1, ts[0].name), m.(cb := m.cb.(buffer := m.cb.buffer.(recs := ts[0].recs))));
      if v.value < o.m.sys.tplIndex + |ts[1..]| {
        assert CanSave(ts[1..], o.m);
        SavesLoadBack(ts[1..], o.m, v);
      }
    }
  }

  // ----- records -----

  /** Setting a humidity keeps the state under the same condition as setting a temperature. */
  lemma SetHumidKeepsStateIff(tok: Tok, m: Mach)
    requires Inv(m) && HasKey(m.cb.buffer.recs, KeyOf(m.cb.hours, m.cb.minutes))
    ensures var recs, i := m.cb.buffer.recs, IndexOf(m.cb.buffer.recs, KeyOf(m.cb.hours, m.cb.minutes));
            var o := SetRecHumid(tok, m);
            o.Done? && i < |recs| == |o.m.cb.buffer.recs| &&
            o.m.cb.buffer.recs[i].humid == tok.value &&
            (o.m.cb.buffer.recs[i].state == recs[i].state <==> i == 0 || recs[i].state == 0)
  {
    var recs, key := m.cb.buffer.recs, KeyOf(m.cb.hours, m.cb.minutes);
    var i := IndexOf(recs, key);
    if i != 0 {
      assert recs[0].key != key;
    }
  }

  /** A new record is refused exactly when there are fifty. */
  lemma FiftyRecordsAreTheLimit(on: int, m: Mach)
    requires Inv(m) && !HasKey(m.cb.buffer.recs, KeyOf(m.cb.hours, m.cb.minutes))
    ensures |m.cb.buffer.recs| <= 50
    ensures SetRecState(on, m).Done? &&
            |SetRecState(on, m).m.cb.buffer.recs| == if |m.cb.buffer.recs| == 50 then 50 else |m.cb.buffer.recs| + 1
  {
    var recs, key := m.cb.buffer.recs, KeyOf(m.cb.hours, m.cb.minutes);
    assert IndexOf(recs, key) == |recs|;
  }

  // ----- the backup -----

  /** Whatever has happened since, loading the backup brings back shared memory as it was when it was saved. */
  lemma BackupComesBack(m: Mach, later: Mach)
    requires later.backup == Backup(m).m.backup
    ensures Restore(later).Done? && Restore(later).m.sys == m.sys && Restore(later).m.cb == later.cb
  {
  }
}
