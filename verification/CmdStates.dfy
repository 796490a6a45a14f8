/** Which states of the command machine occur: exactly the thirty of `Reachable`, each after some line of
    words and numbers typed at a fresh machine. */
module CmdStates {
  import opened CmdFindings
  import opened CmdRuns
  import opened CmdSpec
  import opened CmdTables
  import opened SharedData
  import opened Tokens

  /** The state and the token row from which state `s` is first entered. */
  function EnteredFrom(s: nat): (nat, nat)
    requires Reachable(s) && s != 0
  {
    match s
    case 1 => (0, 35) case 2 => (1, 18) case 3 => (2, 35) case 4 => (0, 3) case 5 => (4, 25)
    case 6 => (4, 21) case 7 => (4, 24) case 8 => (4, 35) case 9 => (5, 1) case 10 => (6, 22)
    case 11 => (6, 3) case 12 => (4, 10) case 13 => (30, 5) case 22 => (7, 22) case 24 => (8, 35)
    case 25 => (12, 22) case 26 => (24, 0) case 27 => (24, 2) case 29 => (0, 9) case 30 => (29, 35)
    case 31 => (30, 20) case 32 => (30, 23)
    case _ => (s - 1, 35)
  }

  /** States 13 to 20 are entered from state 30. */
  function Depth(s: nat): nat {
    if 13 <= s <= 20 then s + 40 else s
  }

  /** Routines that take the number 1 in any well-formed machine. */
  predicate TakesOne(a: nat) {
    a == 4 || a == 16 || a == 20 || a == 21 || 41 <= a <= 47 || a == 68
  }

  /** Routines that take any keyword. */
  predicate TakesWord(a: nat) {
    a == 0 || a == 13 || a == 32 || a == 37 || a == 38 || a == 50 || a == 52 || a == 53 || a == 59 || a == 63 || a == 74
  }

  lemma EnteredFromOk(s: nat)
    requires Reachable(s) && s != 0
    ensures var (from, t) := EnteredFrom(s);
            Reachable(from) && t < CMD_TOKENS && NewState(t, from) == s && Depth(from) < Depth(s) &&
            if t == INT_TOKEN then TakesOne(ActionOf(t, from)) else IsKeyword(t) && TakesWord(ActionOf(t, from))
  {
  }

  function TextOf(t: nat): string
    requires t == INT_TOKEN || IsKeyword(t)
  {
    if t == INT_TOKEN then "1" else Keyword(t)
  }

  lemma TextIsRecognised(t: nat)
    requires t == INT_TOKEN || IsKeyword(t)
    ensures Classify(TextOf(t)) == Some(Tok(t, if t == INT_TOKEN then 1 else t, TextOf(t)))
  {
    if t == INT_TOKEN {
      assert Decimal("1") == 1;
    } else {
      KeywordsAreLower(t);
      KeywordsAreRecognised(t, Keyword(t));
    }
  }

  lemma Accepted(a: nat, tok: Tok, m: Mach)
    requires (TakesOne(a) && tok.value == 1 && tok.text == "1") || TakesWord(a)
    ensures Guard(a, tok, m) && Act(a, tok, m).Done? && Act(a, tok, m).rc == 0
  {
  }

  lemma StepInto(s: nat, m: Mach)
    requires Reachable(s) && s != 0 && Inv(m) && m.cb.state == EnteredFrom(s).0
    ensures EnteredFrom(s).1 == INT_TOKEN || IsKeyword(EnteredFrom(s).1)
    ensures var o := Cycle(TextOf(EnteredFrom(s).1), m);
            o.Done? && o.rc == 0 && Inv(o.m) && o.m.cb.state == s
  {
    var (from, t) := EnteredFrom(s);
    EnteredFromOk(s);
    TextIsRecognised(t);
    var tok := Tok(t, if t == INT_TOKEN then 1 else t, TextOf(t));
    StepAccepted(ActionOf(t, from), tok, m);
  }

  lemma StepAccepted(a: nat, tok: Tok, m: Mach)
    requires Inv(m) && TokOk(tok) && a == ActionOf(tok.index, m.cb.state)
    requires (TakesOne(a) && tok.value == 1 && tok.text == "1") || TakesWord(a)
    ensures var o := Step(tok, m);
            o.Done? && o.rc == 0 && Inv(o.m) && o.m.cb.state == NewState(tok.index, m.cb.state)
  {
    Accepted(a, tok, m);
    StepKeepsInvIffGuarded(tok, m);
  }

  lemma {:induction false} LineInto(s: nat) returns (q: seq<string>)
    requires Reachable(s)
    ensures var o := Drain(q, ZeroMach());
            o.Done? && o.rc == 0 && Inv(o.m) && o.m.cb.state == s
    decreases Depth(s)
  {
    if s == 0 {
      q := [];
      ZeroMachIsWellFormed();
    } else {
      EnteredFromOk(s);
      var before := LineInto(EnteredFrom(s).0);
      var m, text := Drain(before, ZeroMach()).m, TextOf(EnteredFrom(s).1);
      q := before + [text];
      DrainConcat(before, [text], ZeroMach());
      StepInto(s, m);
      DrainCons(text, [], m);
      assert [text] + [] == [text];
    }
  }

  /** The states that a fresh machine is in after some line of which no token is refused are exactly these
      thirty. */
  lemma ReachableIsExact(s: nat)
    ensures Reachable(s) <==>
              exists q: seq<string> :: var o := Drain(q, ZeroMach()); o.Done? && o.rc == 0 && o.m.cb.state == s
  {
    if Reachable(s) {
      var q := LineInto(s);
    }
  }
}
