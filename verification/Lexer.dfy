/** What the character machine and the splitter behind it compute, and why that is one-pass lexing.

    The machine turns a line into a buffer in which every token is followed by one delimiter; the splitter
    then cuts the buffer at the delimiters. */
module Lexer {
  import opened Chars
  import opened Sequences

  // rows of the machine's tables
  const DELIM_ROW := 0
  const QUOTE_ROW := 1
  const DEL_ROW := 2
  const CR_ROW := 3
  const OTHER_ROW := 4

  /** `char_type` */
  function CharType(c: char): nat {
    if c == ',' || c == ' ' || c == ':' || c == '/' then DELIM_ROW
    else if c == QUOTE then QUOTE_ROW
    else if c == DEL then DEL_ROW
    else if c == CR then CR_ROW
    else OTHER_ROW
  }

  predicate IsDelim(c: char) {
    CharType(c) == DELIM_ROW
  }

  /** A character of a word outside quotes. */
  predicate IsPlain(c: char) {
    CharType(c) == OTHER_ROW
  }

  /** A character that can be in a line: the editor keeps DEL, CR and NUL out. */
  predicate IsLineChar(c: char) {
    CharType(c) != DEL_ROW && CharType(c) != CR_ROW && c != NUL
  }

  predicate IsLine(s: string) {
    forall i :: 0 <= i < |s| ==> IsLineChar(s[i])
  }

  /** `char_new_state`: 0 start of line, 1 inside quotes, 2 inside a word, 3 after a delimiter. */
  function CharNewState(row: nat, state: nat): nat {
    match row
    case 0 => (if state == 0 then 0 else if state == 1 then 1 else 3)
    case 1 => (if state == 1 then 3 else 1)
    case 2 => state
    case 3 => 0
    case _ => (if state == 1 then 1 else 2)
  }

  datatype CharAction = Nop | Add | Adq | Aqd | Del | Cr | Cr2

  /** `char_action` */
  function CharActionOf(row: nat, state: nat): CharAction {
    match row
    case 0 => (if state == 1 || state == 2 then Add else Nop)
    case 1 => (if state == 1 then Aqd else if state == 2 then Adq else Add)
    case 2 => Del
    case 3 => (if state == 3 then Cr2 else Cr)
    case _ => Add
  }

  /** What an action appends to the buffer for character `c`. */
  function Emitted(a: CharAction, c: char): string {
    match a
    case Add => [c]
    case Adq => [' ', c]
    case Aqd => [c, ' ']
    case Cr => " "
    case _ => ""
  }

  /** Everything the machine appends from `state` on for the rest of a line and its CR. */
  function Normalised(state: nat, s: string): string
    decreases |s|
  {
    if s == "" then Emitted(CharActionOf(CR_ROW, state), CR)
    else
      Emitted(CharActionOf(CharType(s[0]), state), s[0]) + Normalised(CharNewState(CharType(s[0]), state), s[1..])
  }

  /** Where the quote closes: the first quote at or after `p`, or the length. */
  function QuoteEnd(s: string, p: nat): (e: nat)
    requires p <= |s|
    ensures p <= e <= |s| && (e < |s| ==> s[e] == QUOTE)
    ensures forall i :: p <= i < e ==> s[i] != QUOTE
    decreases |s| - p
  {
    if p == |s| || s[p] == QUOTE then p else QuoteEnd(s, p + 1)
  }

  /** The splitter from cell `p`, with the current token starting at `start`. */
  function SplitFrom(b: string, start: nat, p: nat): seq<string>
    requires start <= p
    decreases |b| - p
  {
    if p >= |b| then []
    else if b[p] == QUOTE then
      var e := QuoteEnd(b, p + 1);
      if e + 1 >= |b| then [b[start..]] else [b[start..e + 1]] + SplitFrom(b, e + 2, e + 2)
    else if IsDelim(b[p]) then [b[start..p]] + SplitFrom(b, p + 1, p + 1)
    else SplitFrom(b, start, p + 1)
  }

  function Split(b: string): seq<string> {
    SplitFrom(b, 0, 0)
  }

  /** Every quoted part of the buffer is closed and has a cell behind it, so the splitter stays inside. */
  predicate QuotesClosed(b: string, p: nat)
    decreases |b| - p
  {
    p >= |b| ||
    if b[p] == QUOTE then
      var e := QuoteEnd(b, p + 1);
      e + 1 < |b| && QuotesClosed(b, e + 2)
    else QuotesClosed(b, p + 1)
  }

  // ----- one-pass lexing -----

  function WordEnd(s: string): (n: nat)
    ensures n <= |s| && (n < |s| ==> !IsPlain(s[n]))
    ensures forall i :: 0 <= i < n ==> IsPlain(s[i])
  {
    if s == "" || !IsPlain(s[0]) then 0 else 1 + WordEnd(s[1..])
  }

  /** The tokens of a line: maximal words, and quoted strings with their quotes. */
  function Lex(s: string): seq<string>
    decreases |s|
  {
    if s == "" then []
    else if s[0] == QUOTE then
      var e := QuoteEnd(s, 1);
      if e == |s| then [s] else [s[..e + 1]] + Lex(s[e + 1..])
    else if IsPlain(s[0]) then [s[..WordEnd(s)]] + Lex(s[WordEnd(s)..])
    else Lex(s[1..])
  }

  /** A line without tokens still queues one empty token. */
  function LexLine(s: string): seq<string> {
    if Lex(s) == [] then [""] else Lex(s)
  }

  /** No quote stays open. */
  predicate Balanced(s: string)
    decreases |s|
  {
    s == "" ||
    if s[0] == QUOTE then QuoteEnd(s, 1) < |s| && Balanced(s[QuoteEnd(s, 1) + 1..]) else Balanced(s[1..])
  }

  predicate IsWord(t: string) {
    forall i :: 0 <= i < |t| ==> IsPlain(t[i])
  }

  predicate IsQuoted(t: string) {
    2 <= |t| && t[0] == QUOTE && t[|t| - 1] == QUOTE && forall i :: 0 < i < |t| - 1 ==> t[i] != QUOTE
  }

  /** The buffer holds these tokens, each followed by one delimiter. */
  ghost predicate Encodes(b: string, tokens: seq<string>)
    decreases |tokens|
  {
    if tokens == [] then b == ""
    else
      var t := tokens[0];
      (IsWord(t) || IsQuoted(t)) && |t| < |b| && t <= b && IsDelim(b[|t|]) &&
      Encodes(b[|t| + 1..], tokens[1..])
  }

  // ----- the splitter undoes the encoding -----

  lemma {:induction false} QuoteEndShift(b: string, k: nat, p: nat)
    requires k <= p <= |b|
    ensures QuoteEnd(b, p) == QuoteEnd(b[k..], p - k) + k
    decreases |b| - p
  {
    if p < |b| && b[p] != QUOTE {
      QuoteEndShift(b, k, p + 1);
    }
  }

  lemma {:induction false} SplitWord(b: string, start: nat, n: nat, p: nat)
    requires start <= p <= n < |b| && IsDelim(b[n]) && forall i :: p <= i < n ==> IsPlain(b[i])
    ensures SplitFrom(b, start, p) == [b[start..n]] + SplitFrom(b, n + 1, n + 1)
    ensures QuotesClosed(b, p) <==> QuotesClosed(b, n + 1)
    decreases n - p
  {
    if p < n {
      SplitWord(b, start, n, p + 1);
    }
  }

  lemma SplitQuoted(b: string, p: nat)
    requires p < |b| && b[p] == QUOTE && QuoteEnd(b, p + 1) + 1 < |b|
    ensures var e := QuoteEnd(b, p + 1);
            SplitFrom(b, p, p) == [b[p..e + 1]] + SplitFrom(b, e + 2, e + 2) &&
            (QuotesClosed(b, p) <==> QuotesClosed(b, e + 2))
  {
  }

  lemma QuoteEndIs(s: string, p: nat, e: nat)
    requires p <= e < |s| && s[e] == QUOTE && forall i :: p <= i < e ==> s[i] != QUOTE
    ensures QuoteEnd(s, p) == e
  {
    var q := QuoteEnd(s, p);
    if q < e {
      assert false;
    }
  }

  /** The first token, cut off behind cell `k`. */
  lemma SplitFirst(b: string, k: nat, t: string)
    requires k + |t| < |b| && b[k..k + |t|] == t && (IsWord(t) || IsQuoted(t)) && IsDelim(b[k + |t|])
    ensures SplitFrom(b, k, k) == [t] + SplitFrom(b, k + |t| + 1, k + |t| + 1)
    ensures QuotesClosed(b, k) <==> QuotesClosed(b, k + |t| + 1)
  {
    assert forall i :: 0 <= i < |t| ==> b[k + i] == t[i];
    if IsWord(t) {
      SplitWord(b, k, k + |t|, k);
    } else {
      QuoteEndIs(b, k + 1, k + |t| - 1);
      SplitQuoted(b, k);
    }
  }

  lemma {:induction false} SplitUndoesEncoding(b: string, k: nat, tokens: seq<string>)
    requires k <= |b| && Encodes(b[k..], tokens)
    ensures SplitFrom(b, k, k) == tokens && QuotesClosed(b, k)
    decreases |tokens|
  {
    if tokens != [] {
      var t := tokens[0];
      assert b[k..][|t| + 1..] == b[k + |t| + 1..] && b[k..k + |t|] == b[k..][..|t|];
      SplitFirst(b, k, t);
      SplitUndoesEncoding(b, k + |t| + 1, tokens[1..]);
    }
  }

  // ----- the machine produces the encoding -----

  /** Inside quotes: everything up to the closing quote, the quote and a blank. */
  lemma {:induction false} NormalisedInQuotes(s: string)
    requires IsLine(s) && QuoteEnd(s, 0) < |s|
    ensures var e := QuoteEnd(s, 0);
            Normalised(1, s) == s[..e] + [QUOTE, ' '] + Normalised(3, s[e + 1..])
  {
    if s[0] != QUOTE {
      QuoteEndShift(s, 1, 1);
      var e := QuoteEnd(s, 0);
      NormalisedInQuotes(s[1..]);
      assert Normalised(1, s) == [s[0]] + Normalised(1, s[1..]);
      hide Normalised;
      hide QuoteEnd;
      SliceStep(s, e);
      QuotesStep(s, e, Normalised(3, s[e + 1..]));
    }
  }

  lemma QuotesStep(s: string, e: nat, tail: string)
    requires 1 <= e < |s|
    ensures [s[0]] + (s[1..][..e - 1] + [QUOTE, ' '] + tail) == s[..e] + [QUOTE, ' '] + tail
  {
    var inner := s[1..][..e - 1];
    assert [s[0]] + inner == s[..e];
    Regroup([s[0]], inner + [QUOTE, ' '], tail);
    Regroup([s[0]], inner, [QUOTE, ' ']);
  }

  lemma OpensQuote(s: string)
    requires s != "" && s[0] == QUOTE
    ensures Normalised(3, s) == [QUOTE] + Normalised(1, s[1..])
  {
  }

  /** Inside a word: the rest of the word and a delimiter, then on as after a delimiter. */
  lemma {:induction false} NormalisedInWord(s: string) returns (d: char)
    requires IsLine(s)
    ensures IsDelim(d) && Normalised(2, s) == s[..WordEnd(s)] + [d] + Normalised(3, s[WordEnd(s)..])
    decreases |s|
  {
    if s != "" && IsPlain(s[0]) {
      d := NormalisedInWord(s[1..]);
      InWordStep(s, d);
    } else {
      d := if s != "" && IsDelim(s[0]) then s[0] else ' ';
      WordStops(s, d);
    }
  }

  lemma InWordStep(s: string, d: char)
    requires s != "" && IsPlain(s[0])
    requires Normalised(2, s[1..]) == s[1..][..WordEnd(s[1..])] + [d] + Normalised(3, s[1..][WordEnd(s[1..])..])
    ensures Normalised(2, s) == s[..WordEnd(s)] + [d] + Normalised(3, s[WordEnd(s)..])
  {
    assert Normalised(2, s) == [s[0]] + Normalised(2, s[1..]);
    hide Normalised;
    WordStep(s);
    hide WordEnd;
    var inner, tail := s[1..][..WordEnd(s[1..])], Normalised(3, s[WordEnd(s)..]);
    Regroup([s[0]], inner + [d], tail);
    Regroup([s[0]], inner, [d]);
  }

  lemma WordStops(s: string, d: char)
    requires IsLine(s) && (s == "" || !IsPlain(s[0])) && d == if s != "" && IsDelim(s[0]) then s[0] else ' '
    ensures IsDelim(d) && Normalised(2, s) == s[..WordEnd(s)] + [d] + Normalised(3, s[WordEnd(s)..])
  {
    assert WordEnd(s) == 0;
    if s == "" {
      assert Normalised(3, s) == "" && Normalised(2, s) == " ";
    } else if IsDelim(s[0]) {
      DelimiterEndsWord(s);
    } else {
      QuoteEndsWord(s);
    }
    hide Normalised;
    EmptyWord(s, d, Normalised(3, s));
  }

  lemma DelimiterEndsWord(s: string)
    requires s != "" && IsDelim(s[0])
    ensures Normalised(2, s) == [s[0]] + Normalised(3, s)
  {
    assert Normalised(3, s) == Normalised(3, s[1..]);
  }

  lemma QuoteEndsWord(s: string)
    requires s != "" && s[0] == QUOTE
    ensures Normalised(2, s) == [' '] + Normalised(3, s)
  {
    OpensQuote(s);
    assert Normalised(2, s) == [' ', QUOTE] + Normalised(1, s[1..]);
    hide Normalised;
    assert [' ', QUOTE] == [' '] + [QUOTE];
    Regroup([' '], [QUOTE], Normalised(1, s[1..]));
  }

  lemma EmptyWord(s: string, d: char, tail: string)
    ensures s[..0] + [d] + tail == [d] + tail && s[0..] == s
  {
    assert s[..0] + [d] == [d];
  }

  lemma WordStep(s: string)
    requires s != "" && IsPlain(s[0])
    ensures WordEnd(s) == 1 + WordEnd(s[1..])
    ensures s[..WordEnd(s)] == [s[0]] + s[1..][..WordEnd(s[1..])] && s[WordEnd(s)..] == s[1..][WordEnd(s[1..])..]
  {
    var n := WordEnd(s[1..]);
    assert WordEnd(s) == 1 + n;
    hide WordEnd;
    SliceStep(s, n);
  }

  lemma SliceStep(s: string, n: nat)
    requires n < |s|
    ensures s[..1 + n] == [s[0]] + s[1..][..n] && s[1 + n..] == s[1..][n..]
  {
  }

  /** A quoted string leaves itself and a blank. */
  lemma NormalisedQuoted(s: string)
    requires IsLine(s) && s != "" && s[0] == QUOTE && QuoteEnd(s, 1) < |s|
    ensures var e := QuoteEnd(s, 1);
            Normalised(3, s) == s[..e + 1] + [' '] + Normalised(3, s[e + 1..])
  {
    var e := QuoteEnd(s, 1);
    OpensQuote(s);
    NormalisedBehindQuote(s);
    hide Normalised;
    hide QuoteEnd;
    QuotedStep(s, e);
    Prepend([QUOTE], s[1..][..e - 1] + [QUOTE, ' '], Normalised(3, s[e + 1..]), s[..e + 1] + [' ']);
  }

  lemma NormalisedBehindQuote(s: string)
    requires IsLine(s) && s != "" && s[0] == QUOTE && QuoteEnd(s, 1) < |s|
    ensures var e := QuoteEnd(s, 1);
            1 <= e && Normalised(1, s[1..]) == s[1..][..e - 1] + [QUOTE, ' '] + Normalised(3, s[e + 1..])
  {
    var e, r := QuoteEnd(s, 1), s[1..];
    QuoteEndShift(s, 1, 1);
    NormalisedInQuotes(r);
    hide Normalised;
    hide QuoteEnd;
    assert r[e..] == s[e + 1..];
  }

  lemma Prepend(a: string, b: string, tail: string, whole: string)
    requires a + b == whole
    ensures a + (b + tail) == whole + tail
  {
    Regroup(a, b, tail);
  }

  lemma QuotedStep(s: string, e: nat)
    requires 1 <= e < |s| && s[0] == QUOTE && s[e] == QUOTE
    ensures [QUOTE] + (s[1..][..e - 1] + [QUOTE, ' ']) == s[..e + 1] + [' ']
    ensures s[1..][e..] == s[e + 1..]
  {
    assert [QUOTE, ' '] == [QUOTE] + [' '];
    assert s[..e + 1] == [s[0]] + s[1..e] + [s[e]];
    assert s[1..][..e - 1] == s[1..e];
  }

  /** A word leaves itself and one delimiter. */
  lemma NormalisedWord(s: string) returns (d: char)
    requires IsLine(s) && s != "" && IsPlain(s[0])
    ensures var n := WordEnd(s);
            IsDelim(d) && Normalised(3, s) == s[..n] + [d] + Normalised(3, s[n..])
  {
    d := NormalisedInWord(s[1..]);
    WordStep(s);
  }

  lemma EncodesCons(t: string, d: char, rest: string, tokens: seq<string>)
    requires (IsWord(t) || IsQuoted(t)) && IsDelim(d) && Encodes(rest, tokens)
    ensures Encodes(t + [d] + rest, [t] + tokens)
  {
    var b := t + [d] + rest;
    assert b[|t|] == d && b[|t| + 1..] == rest && ([t] + tokens)[1..] == tokens;
  }

  lemma EncodesQuoted(s: string)
    requires IsLine(s) && s != "" && s[0] == QUOTE && QuoteEnd(s, 1) < |s|
    requires Encodes(Normalised(3, s[QuoteEnd(s, 1) + 1..]), Lex(s[QuoteEnd(s, 1) + 1..]))
    ensures Encodes(Normalised(3, s), Lex(s))
  {
    var e := QuoteEnd(s, 1);
    NormalisedQuoted(s);
    assert IsQuoted(s[..e + 1]);
    assert Lex(s) == [s[..e + 1]] + Lex(s[e + 1..]);
    hide Lex;
    hide Normalised;
    hide Encodes;
    EncodesCons(s[..e + 1], ' ', Normalised(3, s[e + 1..]), Lex(s[e + 1..]));
  }

  lemma EncodesWord(s: string)
    requires IsLine(s) && s != "" && IsPlain(s[0])
    requires Encodes(Normalised(3, s[WordEnd(s)..]), Lex(s[WordEnd(s)..]))
    ensures Encodes(Normalised(3, s), Lex(s))
  {
    var n := WordEnd(s);
    var d := NormalisedWord(s);
    EncodesCons(s[..n], d, Normalised(3, s[n..]), Lex(s[n..]));
  }

  lemma {:induction false} NormalisedEncodes(s: string)
    requires IsLine(s) && Balanced(s)
    ensures Encodes(Normalised(3, s), Lex(s))
    decreases |s|
  {
    if s == "" {
    } else if s[0] == QUOTE {
      NormalisedEncodes(s[QuoteEnd(s, 1) + 1..]);
      EncodesQuoted(s);
    } else if IsPlain(s[0]) {
      BalancedOverWord(s, WordEnd(s));
      NormalisedEncodes(s[WordEnd(s)..]);
      EncodesWord(s);
    } else {
      NormalisedEncodes(s[1..]);
      assert Normalised(3, s) == Normalised(3, s[1..]);
    }
  }

  /** At the start of a line leading delimiters are skipped, and a line without tokens leaves one blank. */
  lemma {:induction false} NormalisedFromStart(s: string)
    requires IsLine(s)
    ensures Normalised(0, s) == if Lex(s) == [] then " " else Normalised(3, s)
    decreases |s|
  {
    if s != "" && IsDelim(s[0]) {
      NormalisedFromStart(s[1..]);
    }
  }

  /** The two phases together are the one-pass lexer, and the splitter stays inside the buffer. */
  lemma TwoPhaseLexingIsCorrect(s: string)
    requires IsLine(s) && Balanced(s)
    ensures Split(Normalised(0, s)) == LexLine(s) && QuotesClosed(Normalised(0, s), 0)
  {
    NormalisedEncodes(s);
    NormalisedFromStart(s);
    if Lex(s) == [] {
      EncodesCons("", ' ', "", []);
      assert "" + [' '] + "" == " ";
    }
    assert Normalised(0, s)[0..] == Normalised(0, s);
    SplitUndoesEncoding(Normalised(0, s), 0, LexLine(s));
  }

  // ----- the room it takes -----

  /** The highest cell that an action writes with the pointer at `ptr`, -1 for none. The two that close a
      line write its terminator. */
  function Touch(a: CharAction, ptr: nat): int {
    match a
    case Nop => -1
    case Add => ptr
    case Adq => ptr + 1
    case Aqd => ptr + 1
    case Del => ptr - 1
    case Cr => ptr + 1
    case Cr2 => ptr
  }

  /** The highest cell of the input buffer that the machine writes for the rest of a line and its CR. */
  function LineReach(ptr: nat, state: nat, s: string): int
    decreases |s|
  {
    if s == "" then Touch(CharActionOf(CR_ROW, state), ptr)
    else
      var row := CharType(s[0]);
      var a := CharActionOf(row, state);
      Max(Touch(a, ptr), LineReach(ptr + |Emitted(a, s[0])|, CharNewState(row, state), s[1..]))
  }

  /** With `cells` cells the machine writes no cell behind the buffer for this line. */
  predicate StaysInside(s: string, cells: nat) {
    LineReach(0, 0, s) < cells
  }

  /** One cell for each character of each token, and one behind each token. */
  function TokenCells(tokens: seq<string>): nat {
    if tokens == [] then 0 else |tokens[0]| + 1 + TokenCells(tokens[1..])
  }

  /** The last cell the machine writes is the terminator's. */
  lemma {:induction false} ReachIsTheTerminator(ptr: nat, state: nat, s: string)
    requires IsLine(s) && state <= 3
    ensures LineReach(ptr, state, s) == ptr + |Normalised(state, s)|
    decreases |s|
  {
    if s != "" {
      var row := CharType(s[0]);
      ReachIsTheTerminator(ptr + |Emitted(CharActionOf(row, state), s[0])|, CharNewState(row, state), s[1..]);
    }
  }

  /** A quote that is never closed takes the rest of the line, and a blank. */
  lemma {:induction false} OpenQuoteLength(s: string)
    requires IsLine(s) && QuoteEnd(s, 0) == |s|
    ensures |Normalised(1, s)| == |s| + 1
  {
    if s != "" {
      QuoteEndShift(s, 1, 1);
      OpenQuoteLength(s[1..]);
    }
  }

  lemma TokenCellsCons(t: string, rest: seq<string>)
    ensures TokenCells([t] + rest) == |t| + 1 + TokenCells(rest)
  {
    assert ([t] + rest)[1..] == rest;
  }

  lemma QuotedCells(s: string)
    requires IsLine(s) && s != "" && s[0] == QUOTE
    ensures var e := QuoteEnd(s, 1);
            if e == |s| then |Normalised(3, s)| == |s| + 1 && Lex(s) == [s]
            else |Normalised(3, s)| == e + 2 + |Normalised(3, s[e + 1..])| && Lex(s) == [s[..e + 1]] + Lex(s[e + 1..])
  {
    if QuoteEnd(s, 1) == |s| {
      QuoteEndShift(s, 1, 1);
      OpenQuoteLength(s[1..]);
    } else {
      NormalisedQuoted(s);
    }
  }

  /** The machine's output is as long as the tokens of the line and a cell behind each of them. */
  lemma {:induction false} NormalisedCells(s: string)
    requires IsLine(s)
    ensures |Normalised(3, s)| == TokenCells(Lex(s))
    decreases |s|
  {
    if s == "" {
    } else if s[0] == QUOTE {
      var e := QuoteEnd(s, 1);
      QuotedCells(s);
      if e == |s| {
        TokenCellsCons(s, []);
        assert [s] + [] == [s];
      } else {
        NormalisedCells(s[e + 1..]);
        TokenCellsCons(s[..e + 1], Lex(s[e + 1..]));
      }
    } else if IsPlain(s[0]) {
      var d := NormalisedWord(s);
      NormalisedCells(s[WordEnd(s)..]);
      TokenCellsCons(s[..WordEnd(s)], Lex(s[WordEnd(s)..]));
    } else {
      NormalisedCells(s[1..]);
      assert |Normalised(3, s)| == |Normalised(3, s[1..])|;
    }
  }

  /** The machine stays inside a buffer exactly when the tokens of the line, with a cell behind each of them,
      leave a cell for the terminator: for every line, quotes closed or not. */
  lemma StaysInsideIffTheTokensFit(s: string, cells: nat)
    requires IsLine(s)
    ensures StaysInside(s, cells) <==> TokenCells(LexLine(s)) < cells
  {
    ReachIsTheTerminator(0, 0, s);
    NormalisedFromStart(s);
    NormalisedCells(s);
    if Lex(s) == [] {
      TokenCellsCons("", []);
      assert [""] + [] == [""];
    }
  }

  function Quotes(s: string): nat {
    if s == "" then 0 else (if s[0] == QUOTE then 1 else 0) + Quotes(s[1..])
  }

  /** A line takes at most one cell per character, one more per quote, and two. */
  lemma BufferCells(s: string)
    requires IsLine(s)
    ensures StaysInside(s, |s| + Quotes(s) + 2)
  {
    ReachIsTheTerminator(0, 0, s);
    NormalisedLength(0, s);
  }

  lemma {:induction false} NormalisedLength(state: nat, s: string)
    requires IsLine(s)
    ensures |Normalised(state, s)| <= |s| + Quotes(s) + 1
    decreases |s|
  {
    if s != "" {
      NormalisedLength(CharNewState(CharType(s[0]), state), s[1..]);
    }
  }

  lemma ExampleTokens()
    ensures Lex("a\"b\"c") == ["a", "\"b\"", "c"] && Quotes("a\"b\"c") == 2
  {
    var s, t := "a\"b\"c", "\"b\"c";
    assert s[1..] == t && t[1..] == "b\"c" && "b\"c"[1..] == "\"c" && "\"c"[1..] == "c" && "c"[1..] == "";
    WordEndIs(s, 1);
    WordEndIs("c", 1);
    QuoteEndIs(t, 1, 2);
    assert s[..1] == "a" && t[..3] == "\"b\"" && t[3..] == "c" && "c"[..1] == "c";
    hide WordEnd;
    hide QuoteEnd;
    assert Lex("c") == ["c"] + Lex("");
    assert Lex(t) == ["\"b\""] + Lex("c");
  }

  /** Every part of that bound is needed: a line that a buffer of one cell less does not hold. */
  lemma BufferCellsBoundIsMet(s: string)
    requires s == "a\"b\"c"
    ensures IsLine(s) && !StaysInside(s, |s| + Quotes(s) + 1)
  {
    ExampleTokens();
    hide Lex;
    hide Quotes;
    hide StaysInside;
    StaysInsideIffTheTokensFit(s, 8);
    TokenCellsCons("a", ["\"b\"", "c"]);
    TokenCellsCons("\"b\"", ["c"]);
    TokenCellsCons("c", []);
    assert ["a"] + ["\"b\"", "c"] == LexLine(s) && ["\"b\""] + ["c"] == ["\"b\"", "c"] && ["c"] + [] == ["c"];
  }

  /** `n` times a letter and an empty quoted string. */
  function Pairs(n: nat): string {
    if n == 0 then "" else "a\"\"" + Pairs(n - 1)
  }

  lemma {:induction false} PairsAreALine(n: nat)
    ensures IsLine(Pairs(n)) && |Pairs(n)| == 3 * n
  {
    if n > 0 {
      PairsAreALine(n - 1);
    }
  }

  lemma {:induction false} PairsCells(n: nat, state: nat)
    requires state == 3 || (state == 0 && n > 0)
    ensures Balanced(Pairs(n)) && |Normalised(state, Pairs(n))| == 5 * n
    decreases n
  {
    if n > 0 {
      PairsCells(n - 1, 3);
      hide Normalised;
      hide Balanced;
      PairCells(state, Pairs(n - 1));
    }
  }

  lemma PairCells(state: nat, rest: string)
    requires state == 0 || state == 3
    ensures var s := "a\"\"" + rest;
            |Normalised(state, s)| == 5 + |Normalised(3, rest)| && (Balanced(s) <==> Balanced(rest))
  {
    var s := "a\"\"" + rest;
    var t, u := "\"\"" + rest, "\"" + rest;
    assert s[1..] == t && t[1..] == u && u[1..] == rest;
    assert Normalised(1, u) == [QUOTE, ' '] + Normalised(3, rest);
    assert Normalised(2, t) == [' ', QUOTE] + Normalised(1, u);
    assert Normalised(state, s) == ['a'] + Normalised(2, t);
    assert QuoteEnd(t, 1) == 1 && t[2..] == rest;
  }

  /** A line of 36 characters, which the line editor takes without trouble, can overrun the input buffer. */
  lemma ThirtySixCharactersCanOverrun() returns (s: string)
    ensures IsLine(s) && Balanced(s) && |s| == 36 && !StaysInside(s, INPUT_BUFFER_SIZE)
  {
    var n: nat :| n == 12;
    s := Pairs(n);
    PairsAreALine(n);
    PairsCells(n, 0);
    ReachIsTheTerminator(0, 0, s);
  }

  // ----- printing and lexing back -----

  /** Tokens separated by single blanks. */
  function Print(tokens: seq<string>): string {
    if |tokens| == 0 then ""
    else if |tokens| == 1 then tokens[0]
    else tokens[0] + " " + Print(tokens[1..])
  }

  predicate Printable(t: string) {
    t != "" && IsLine(t) && (IsWord(t) || IsQuoted(t))
  }

  lemma WordEndIs(s: string, n: nat)
    requires n <= |s| && (forall i :: 0 <= i < n ==> IsPlain(s[i])) && (n < |s| ==> !IsPlain(s[n]))
    ensures WordEnd(s) == n
  {
    var w := WordEnd(s);
    if w < n {
      assert false;
    }
  }

  /** A token in front of anything that ends it is lexed off. */
  lemma LexOff(t: string, rest: string)
    requires Printable(t) && (IsQuoted(t) || rest == "" || !IsPlain(rest[0]))
    ensures Lex(t + rest) == [t] + Lex(rest)
    ensures Balanced(t + rest) <==> Balanced(rest)
  {
    var s, n := t + rest, |t|;
    assert s[..n] == t && s[n..] == rest;
    if IsQuoted(t) {
      QuoteEndIs(s, 1, n - 1);
    } else {
      WordEndIs(s, n);
      BalancedOverWord(s, n);
    }
  }

  lemma {:induction false} BalancedOverWord(s: string, n: nat)
    requires n <= |s| && forall i :: 0 <= i < n ==> s[i] != QUOTE
    ensures Balanced(s) <==> Balanced(s[n..])
    decreases n
  {
    if n > 0 {
      BalancedOverWord(s[1..], n - 1);
      assert s[1..][n - 1..] == s[n..];
    } else {
      assert s[0..] == s;
    }
  }

  lemma {:induction false} LexUndoesPrint(tokens: seq<string>)
    requires forall i :: 0 <= i < |tokens| ==> Printable(tokens[i])
    ensures IsLine(Print(tokens)) && Balanced(Print(tokens)) && Lex(Print(tokens)) == tokens
  {
    if |tokens| > 0 {
      var rest := if |tokens| == 1 then "" else " " + Print(tokens[1..]);
      assert Print(tokens) == tokens[0] + rest;
      if |tokens| > 1 {
        LexUndoesPrint(tokens[1..]);
        assert rest[1..] == Print(tokens[1..]);
      }
      LexOff(tokens[0], rest);
      assert tokens == [tokens[0]] + tokens[1..];
    }
  }

  /** Typing a non-empty list of tokens with single blanks between them queues exactly that list. */
  lemma PrintedLineRoundTrips(tokens: seq<string>)
    requires tokens != [] && forall i :: 0 <= i < |tokens| ==> Printable(tokens[i])
    ensures Split(Normalised(0, Print(tokens))) == tokens
  {
    LexUndoesPrint(tokens);
    TwoPhaseLexingIsCorrect(Print(tokens));
  }

  // ----- which characters separate tokens -----

  predicate Separator(c: char) {
    c == ',' || c == ' ' || c == ':' || c == '/'
  }

  /** Neither a separator nor the quote, nor a carriage return, DEL or NUL. */
  predicate Ordinary(c: char) {
    !Separator(c) && c != '\"' && c as int != 13 && c as int != 127 && c as int != 0
  }

  predicate Separators(s: string) {
    forall i :: 0 <= i < |s| ==> Separator(s[i])
  }

  /** A word as it is typed: ordinary characters, or anything between two quotes. */
  predicate Typable(t: string) {
    (t != "" && forall i :: 0 <= i < |t| ==> Ordinary(t[i])) ||
    (2 <= |t| && t[0] == '\"' && t[|t| - 1] == '\"' && forall i :: 0 < i < |t| - 1 ==> Ordinary(t[i]) || Separator(t[i]))
  }

  /** Words with separators behind each. */
  function Lay(words: seq<string>, seps: seq<string>): string
    requires |words| == |seps|
  {
    if words == [] then "" else words[0] + (seps[0] + Lay(words[1..], seps[1..]))
  }

  /** Separators behind each word but perhaps the last. */
  predicate Separated(seps: seq<string>) {
    forall i :: 0 <= i < |seps| ==> Separators(seps[i]) && (i < |seps| - 1 ==> seps[i] != "")
  }

  lemma TypableIsPrintable(t: string)
    requires Typable(t)
    ensures Printable(t)
  {
    forall i | 0 <= i < |t|
      ensures IsLineChar(t[i]) && (t[0] != '\"' ==> IsPlain(t[i]))
    {
      assert Ordinary(t[i]) || Separator(t[i]) || t[i] == '\"';
    }
  }

  lemma {:induction false} SeparatorsAreSkipped(sep: string, rest: string)
    requires Separators(sep)
    ensures Lex(sep + rest) == Lex(rest) && (Balanced(sep + rest) <==> Balanced(rest)) && IsLine(sep)
    decreases |sep|
  {
    if sep == "" {
      assert sep + rest == rest;
    } else {
      assert (sep + rest)[1..] == sep[1..] + rest && Separator(sep[0]);
      SeparatorsAreSkipped(sep[1..], rest);
      assert sep == [sep[0]] + sep[1..];
    }
  }

  lemma LinesJoin(a: string, b: string)
    requires IsLine(a) && IsLine(b)
    ensures IsLine(a + b)
  {
  }

  /** Words and quoted texts with commas, blanks, colons or slashes between them are lexed into exactly those. */
  lemma {:induction false} LaidWordsAreLexed(words: seq<string>, seps: seq<string>)
    requires |words| == |seps| && Separated(seps) && forall i :: 0 <= i < |words| ==> Typable(words[i])
    ensures var s := Lay(words, seps); IsLine(s) && Balanced(s) && Lex(s) == words
    decreases |words|
  {
    if words != [] {
      var t, sep, rest := words[0], seps[0], Lay(words[1..], seps[1..]);
      assert Separated(seps[1..]) by {
        assert forall i :: 0 <= i < |seps[1..]| ==> seps[1..][i] == seps[i + 1];
      }
      LaidWordsAreLexed(words[1..], seps[1..]);
      TypableIsPrintable(t);
      SeparatorsAreSkipped(sep, rest);
      assert sep + rest == "" || !IsPlain((sep + rest)[0]) by {
        if sep == "" {
          assert |words| == 1 && sep + rest == "";
        } else {
          assert Separator(sep[0]);
        }
      }
      LexOff(t, sep + rest);
      LinesJoin(sep, rest);
      LinesJoin(t, sep + rest);
      assert words == [t] + words[1..];
    }
  }

  /** The same through both phases. */
  lemma LaidWordsAreQueued(words: seq<string>, seps: seq<string>)
    requires words != [] && |words| == |seps| && Separated(seps) && forall i :: 0 <= i < |words| ==> Typable(words[i])
    ensures var s := Lay(words, seps); IsLine(s) && Balanced(s) && LexLine(s) == words && Split(Normalised(0, s)) == words
  {
    LaidWordsAreLexed(words, seps);
    TwoPhaseLexingIsCorrect(Lay(words, seps));
  }

  /** Any run of separators parts two words; "8:30" is 8 and 30. */
  lemma SeparatorsPart(u: string, sep: string, v: string)
    requires u != "" && v != "" && sep != "" && Separators(sep)
    requires (forall i :: 0 <= i < |u| ==> Ordinary(u[i])) && (forall i :: 0 <= i < |v| ==> Ordinary(v[i]))
    ensures LexLine(u + sep + v) == [u, v] && Split(Normalised(0, u + sep + v)) == [u, v]
    ensures LexLine("8:30") == ["8", "30"]
  {
    TwoLaid(u, sep, v);
    TwoLaid("8", ":", "30");
    assert "8" + ":" + "30" == "8:30";
  }

  lemma TwoLaid(u: string, sep: string, v: string)
    requires Typable(u) && Typable(v) && sep != "" && Separators(sep)
    ensures LexLine(u + sep + v) == [u, v] && Split(Normalised(0, u + sep + v)) == [u, v]
  {
    var words, seps := [u, v], [sep, ""];
    assert words[1..] == [v] && seps[1..] == [""] && words[1..][1..] == [] && seps[1..][1..] == [];
    assert Lay([v], [""]) == v + ("" + "") && v + ("" + "") == v;
    assert Lay(words, seps) == u + (sep + v) && u + (sep + v) == u + sep + v;
    LaidWordsAreQueued(words, seps);
  }
}
