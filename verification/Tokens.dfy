/** Classification of one operator token (`is_valid_int`, `token_type` and the first half of `cmd_fsm`). */
module Tokens {
  import opened Chars
  import opened CmdTables
  import opened SharedData

  // token types that are not command numbers
  const TT_INT := -1
  const TT_STR := -2
  const TT_NULL := -3
  const TT_UNREC := -4


  /** What the command machine works on: a table row, a number and the token's text. */
  datatype Tok = Tok(index: nat, value: int, text: string)

  predicate IsDigit(c: char) {
    '0' <= c <= '9'
  }

  predicate AllDigits(s: string) {
    forall i :: 0 <= i < |s| ==> IsDigit(s[i])
  }

  /** The text without a leading minus sign. */
  function Unsigned(s: string): string {
    if s != "" && s[0] == '-' then s[1..] else s
  }

  predicate IsInt(s: string) {
    Unsigned(s) != "" && AllDigits(Unsigned(s))
  }

  function Lower(c: char): char {
    if 'A' <= c <= 'Z' then (c as int + 32) as char else c
  }

  function LowerAll(s: string): string {
    seq(|s|, i requires 0 <= i < |s| => Lower(s[i]))
  }

  /** The command number of a lower-case word, searching from row `i`. */
  function FindKeyword(low: string, i: nat): int
    decreases CMD_TOKENS - i
  {
    if i >= CMD_TOKENS then TT_UNREC
    else if IsKeyword(i) && low == Keyword(i) then i
    else FindKeyword(low, i + 1)
  }

  function TypeOf(s: string): int {
    if s == "" || s[0] == ' ' then TT_NULL
    else if s[0] == QUOTE then TT_STR
    else if IsInt(s) then TT_INT
    else FindKeyword(LowerAll(s), 0)
  }

  lemma {:induction false} FindKeywordRange(low: string, i: nat)
    ensures var r := FindKeyword(low, i); r == TT_UNREC || (i <= r < CMD_TOKENS && IsKeyword(r) && low == Keyword(r))
    decreases CMD_TOKENS - i
  {
    if i < CMD_TOKENS && !(IsKeyword(i) && low == Keyword(i)) {
      FindKeywordRange(low, i + 1);
    }
  }

  // ----- the number of an integer token -----

  const U32 := 0x1_0000_0000
  const I32_MAX := 0x7FFF_FFFF

  function DigitValue(c: char): nat
    requires IsDigit(c)
  {
    c as nat - '0' as nat
  }

  function Decimal(s: string): nat
    requires AllDigits(s)
  {
    if s == "" then 0 else Decimal(s[..|s| - 1]) * 10 + DigitValue(s[|s| - 1])
  }

  /** The number the text denotes. */
  function Denoted(s: string): int
    requires IsInt(s)
  {
    if s[0] == '-' then 0 - Decimal(Unsigned(s)) else Decimal(Unsigned(s))
  }

  /** The number the code works with: an unsigned 32-bit conversion, which saturates, negates modulo
      2^32 on a minus sign, and is then stored in a signed int. */
  function IntValue(s: string): int
    requires IsInt(s)
  {
    var d := Decimal(Unsigned(s));
    var u := if d >= U32 then U32 - 1 else if s[0] == '-' then (U32 - d) % U32 else d;
    if u > I32_MAX then u - U32 else u
  }

  /** The conversion is right exactly for the numbers an int can hold. */
  lemma IntValueIsExactIffItFits(s: string)
    requires IsInt(s)
    ensures -I32_MAX - 1 <= IntValue(s) <= I32_MAX
    ensures IntValue(s) == Denoted(s) <==> -I32_MAX - 1 <= Denoted(s) <= I32_MAX
  {
    var d := Decimal(Unsigned(s));
    if s[0] == '-' && 0 < d < U32 {
      assert (U32 - d) % U32 == U32 - d;
    }
  }

  /** The decimal numeral of a number. */
  function Numeral(n: nat): string {
    if n < 10 then ["0123456789"[n]] else Numeral(n / 10) + ["0123456789"[n % 10]]
  }

  lemma {:induction false} NumeralsAreRead(n: nat)
    ensures Numeral(n) != "" && AllDigits(Numeral(n)) && Decimal(Numeral(n)) == n
    ensures n < 100 ==> |Numeral(n)| <= 2
  {
    var c := "0123456789"[if n < 10 then n else n % 10];
    assert IsDigit(c) && DigitValue(c) == if n < 10 then n else n % 10;
    if n < 10 {
      assert Numeral(n) == "" + [c];
      DecimalStep("", c);
    } else {
      NumeralsAreRead(n / 10);
      DecimalStep(Numeral(n / 10), c);
    }
  }

  lemma DecimalStep(s: string, c: char)
    requires AllDigits(s) && IsDigit(c)
    ensures AllDigits(s + [c]) && Decimal(s + [c]) == Decimal(s) * 10 + DigitValue(c)
  {
    assert (s + [c])[..|s|] == s;
  }

  lemma FiveDigits()
    ensures AllDigits("42949") && Decimal("42949") == 42949
  {
    assert AllDigits("") && Decimal("") == 0;
    DecimalStep("", '4');
    DecimalStep("4", '2');
    DecimalStep("42", '9');
    DecimalStep("429", '4');
    DecimalStep("4294", '9');
    hide Decimal;
    assert "" + ['4'] == "4" && "4" + ['2'] == "42" && "42" + ['9'] == "429";
    assert "429" + ['4'] == "4294" && "4294" + ['9'] == "42949";
  }

  lemma TenDigits()
    ensures AllDigits("4294967293") && Decimal("4294967293") == 4294967293
  {
    hide Decimal;
    FiveDigits();
    DecimalStep("42949", '6');
    DecimalStep("429496", '7');
    DecimalStep("4294967", '2');
    DecimalStep("42949672", '9');
    DecimalStep("429496729", '3');
    assert "42949" + ['6'] == "429496" && "429496" + ['7'] == "4294967" && "4294967" + ['2'] == "42949672";
    assert "42949672" + ['9'] == "429496729" && "429496729" + ['3'] == "4294967293";
  }

  lemma TenDigitsCanTurnNegative()
    ensures IsInt("4294967293") && IntValue("4294967293") == -3
  {
    hide Decimal;
    TenDigits();
    assert Unsigned("4294967293") == "4294967293";
  }

  /** The table row, number and text of a token; None for an empty token, which is ignored. */
  function Classify(s: string): (r: Option<Tok>)
    ensures r.Some? ==> r.value.index < CMD_TOKENS && r.value.text == s
    ensures r.Some? && IsKeyword(r.value.index) ==> r.value.value == r.value.index
  {
    FindKeywordRange(LowerAll(s), 0);
    var tt := TypeOf(s);
    if tt == TT_NULL then None
    else if tt == TT_INT then Some(Tok(INT_TOKEN, IntValue(s), s))
    else if tt == TT_STR then Some(Tok(STR_TOKEN, -1, s))
    else if tt == TT_UNREC then Some(Tok(OTHER_TOKEN, -1, s))
    else Some(Tok(tt, tt, s))
  }

  lemma KeywordStart(t: nat)
    requires IsKeyword(t)
    ensures Keyword(t) != "" && var c := Keyword(t)[0]; c != ' ' && c != QUOTE && c != '-' && !IsDigit(c)
  {
  }

  lemma KeywordsDifferFrom(i: nat, j: nat)
    requires i < j < 20 && IsKeyword(i)
    ensures Keyword(i) != Keyword(j)
  {
  }

  lemma LateKeywordsDiffer(i: nat, j: nat)
    requires i < j && 20 <= j && IsKeyword(i) && IsKeyword(j)
    ensures Keyword(i) != Keyword(j)
  {
  }

  lemma KeywordsDiffer(i: nat, j: nat)
    requires IsKeyword(i) && IsKeyword(j) && i < j
    ensures Keyword(i) != Keyword(j)
  {
    if j < 20 {
      KeywordsDifferFrom(i, j);
    } else {
      LateKeywordsDiffer(i, j);
    }
  }

  lemma EarlyKeywordsAreLower(t: nat)
    requires t < 20
    ensures forall i :: 0 <= i < |Keyword(t)| ==> !('A' <= Keyword(t)[i] <= 'Z')
  {
  }

  lemma LateKeywordsAreLower(t: nat)
    requires 20 <= t && IsKeyword(t)
    ensures forall i :: 0 <= i < |Keyword(t)| ==> !('A' <= Keyword(t)[i] <= 'Z')
  {
  }

  lemma KeywordsAreLower(t: nat)
    requires IsKeyword(t)
    ensures LowerAll(Keyword(t)) == Keyword(t)
  {
    if t < 20 {
      EarlyKeywordsAreLower(t);
    } else {
      LateKeywordsAreLower(t);
    }
    hide Keyword;
  }

  /** A numeral is an integer token, and its number the one it denotes as long as an int can hold it. */
  lemma NumeralsAreRecognised(n: nat)
    requires n <= I32_MAX
    ensures Classify(Numeral(n)) == Some(Tok(INT_TOKEN, n, Numeral(n)))
  {
    NumeralsAreRead(n);
    hide Numeral;
    hide Decimal;
    assert IsDigit(Numeral(n)[0]);
    assert Unsigned(Numeral(n)) == Numeral(n);
  }

  /** Whichever of its letters are typed as capitals, a keyword is recognised. */
  lemma CapitalsDoNotMatter(t: nat, s: string)
    requires IsKeyword(t) && |s| == |Keyword(t)|
    requires forall i :: 0 <= i < |s| ==>
               s[i] == Keyword(t)[i] || ('a' <= Keyword(t)[i] <= 'z' && s[i] as int == Keyword(t)[i] as int - 32)
    ensures Classify(s) == Some(Tok(t, t, s))
  {
    KeywordsAreLower(t);
    hide Keyword;
    forall i | 0 <= i < |s|
      ensures Lower(s[i]) == Keyword(t)[i]
    {
      assert LowerAll(Keyword(t))[i] == Lower(Keyword(t)[i]);
    }
    assert LowerAll(s) == Keyword(t);
    KeywordsAreRecognised(t, s);
  }

  /** Every keyword, in whatever case it is typed, is recognised as its own command number. */
  lemma KeywordsAreRecognised(t: nat, s: string)
    requires IsKeyword(t) && LowerAll(s) == Keyword(t)
    ensures Classify(s) == Some(Tok(t, t, s))
  {
    KeywordStart(t);
    assert LowerAll(s)[0] == Lower(s[0]);
    forall j | 0 <= j < t && IsKeyword(j)
      ensures LowerAll(s) != Keyword(j)
    {
      KeywordsDiffer(j, t);
    }
    FindKeywordFirst(LowerAll(s), 0, t);
    assert Unsigned(s) == s;
  }

  // ----- the routines themselves -----

  method IsValidInt(str: string) returns (ok: bool)
    ensures ok == IsInt(str)
  {
    var i := 0;
    if str != "" && str[0] == '-' {
      i := 1;
    }
    ghost var start := i;
    if i == |str| {
      return false;
    }
    while i < |str|
      invariant start <= i <= |str|
      invariant forall j :: start <= j < i ==> IsDigit(str[j])
    {
      if !IsDigit(str[i]) {
        assert Unsigned(str)[i - start] == str[i];
        return false;
      }
      i := i + 1;
    }
    return true;
  }

  method LowerInPlace(c: string) returns (low: string)
    ensures low == LowerAll(c)
  {
    low := c;
    var p := 0;
    while p < |low|
      invariant 0 <= p <= |low| == |c|
      invariant forall i :: 0 <= i < p ==> low[i] == Lower(c[i])
      invariant forall i :: p <= i < |c| ==> low[i] == c[i]
    {
      low := low[p := Lower(low[p])];
      p := p + 1;
    }
  }

  /** The keyword loops: `from`..`to` are the rows searched. A word as long as some keyword on the way
      is lowered in place even when it is not that keyword. */
  method SearchKeywords(c: string, from: nat, to: nat) returns (tt: int, c': string)
    requires from <= to <= CMD_TOKENS && forall i :: from <= i < to ==> IsKeyword(i)
    ensures c' == c || c' == LowerAll(c)
    ensures if tt == TT_UNREC then forall i :: from <= i < to ==> LowerAll(c) != Keyword(i)
            else from <= tt < to && LowerAll(c) == Keyword(tt) && forall i :: from <= i < tt ==> LowerAll(c) != Keyword(i)
  {
    c' := c;
    var i := from;
    while i < to
      invariant from <= i <= to && (c' == c || c' == LowerAll(c))
      invariant forall j :: from <= j < i ==> LowerAll(c) != Keyword(j)
    {
      if |c'| == |Keyword(i)| {
        LowerTwice(c);
        c' := LowerInPlace(c');
        if c' == Keyword(i) {
          return i, c';
        }
      }
      i := i + 1;
    }
    return TT_UNREC, c';
  }

  lemma LowerTwice(c: string)
    ensures LowerAll(LowerAll(c)) == LowerAll(c)
  {
  }

  lemma {:induction false} FindKeywordFirst(low: string, i: nat, t: nat)
    requires i <= t <= CMD_TOKENS && forall j :: i <= j < t && IsKeyword(j) ==> low != Keyword(j)
    requires t < CMD_TOKENS ==> IsKeyword(t) && low == Keyword(t)
    ensures FindKeyword(low, i) == if t < CMD_TOKENS then t else TT_UNREC
    decreases t - i
  {
    if i < t {
      FindKeywordFirst(low, i + 1, t);
    }
  }

  method TokenType(c: string) returns (tt: int, c': string)
    ensures tt == TypeOf(c)
    ensures c' == c || c' == LowerAll(c)
    ensures tt == TT_INT || tt == TT_STR ==> c' == c
  {
    if c == "" || c[0] == ' ' {
      return TT_NULL, c;
    }
    if c[0] == QUOTE {
      return TT_STR, c;
    }
    var isInt := IsValidInt(c);
    if isInt {
      return TT_INT, c;
    }
    tt, c' := SearchKeywords(c, 0, 35);
    if tt != TT_UNREC {
      FindKeywordFirst(LowerAll(c), 0, tt);
      return;
    }
    LowerTwice(c);
    tt, c' := SearchKeywords(c', 38, CMD_TOKENS);
    FindKeywordFirst(LowerAll(c), 0, if tt == TT_UNREC then CMD_TOKENS else tt);
  }
}
