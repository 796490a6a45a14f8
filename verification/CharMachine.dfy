/** The character machine in its own form: an input buffer with a moving pointer, filled by the action
    routines and cut into queued tokens in place. */
module CharMachines {
  import opened Chars
  import opened Lexer
  import opened TokenQueues

  class CharMachine {
    const input: array<char>
    var ptr: nat
    var state: nat
    const queue: TokenQueue
    /** The highest cell written so far, apart from clearing the buffer. */
    ghost var reach: int

    /** Cells from the pointer on are cleared. */
    ghost predicate Valid()
      reads this, input
    {
      ptr <= input.Length && state <= 3 && forall i :: ptr <= i < input.Length ==> input[i] == NUL
    }

    ghost function Buffer(): string
      requires ptr <= input.Length
      reads this, input
    {
      input[..ptr]
    }

    constructor (size: nat)
      ensures Valid() && ptr == 0 && state == 0 && input.Length == size && queue.Valid() && queue.Tokens() == []
      ensures fresh(input) && fresh(queue) && queue.repr == {}
    {
      input := new char[size](_ => NUL);
      queue := new TokenQueue();
      ptr, state, reach := 0, 0, -1;
    }

    method CharFsmReset()
      modifies this, input
      ensures Valid() && ptr == 0 && state == 0 && reach == old(reach)
    {
      state := 0;
      ClearInput();
    }

    method ClearInput()
      modifies this, input
      ensures ptr == 0 && state == old(state) && reach == old(reach)
      ensures forall i :: 0 <= i < input.Length ==> input[i] == NUL
    {
      var i := 0;
      while i < input.Length
        invariant 0 <= i <= input.Length && state == old(state) && reach == old(reach)
        invariant forall j :: 0 <= j < i ==> input[j] == NUL
      {
        input[i] := NUL;
        i := i + 1;
      }
      ptr := 0;
    }

    /** The action routines that fill the buffer, and the terminator that two of them close it with. `cr`
        adds a blank because the cell it looks at, past the last character, is clear and so not a delimiter. */
    method Append(a: CharAction, c: char)
      requires Valid() && a != Del && Touch(a, ptr) < input.Length
      modifies this, input
      ensures Valid() && Buffer() == old(Buffer()) + Emitted(a, c) && state == old(state)
      ensures -1 <= old(reach) ==> reach == Max(old(reach), Touch(a, old(ptr)))
    {
      match a
      case Nop =>
      case Add => Put(c);
      case Adq =>
        Put(' ');
        Put(c);
      case Aqd =>
        Put(c);
        Put(' ');
      case Cr =>
        if CharType(input[ptr]) != DELIM_ROW {
          Put(' ');
        }
        Terminate();
      case Cr2 => Terminate();
    }

    method Terminate()
      requires Valid() && ptr < input.Length
      modifies this`reach, input
      ensures Valid() && Buffer() == old(Buffer()) && reach == Max(old(reach), ptr)
    {
      input[ptr], reach := NUL, Max(reach, ptr);
    }

    /** `*input_buffer_ptr++ = c` */
    method Put(c: char)
      requires Valid() && ptr < input.Length
      modifies this, input
      ensures Valid() && Buffer() == old(Buffer()) + [c] && state == old(state)
      ensures reach == Max(old(reach), old(ptr))
    {
      input[ptr], reach := c, Max(reach, ptr);
      ptr := ptr + 1;
    }

    /** One character of a line: act, then move. */
    method Feed(c: char)
      requires Valid() && IsLineChar(c)
      requires -1 <= reach && Touch(CharActionOf(CharType(c), state), ptr) < input.Length
      modifies this, input
      ensures reach == Max(old(reach), Touch(CharActionOf(CharType(c), old(state)), old(ptr)))
      ensures Valid() && Buffer() == old(Buffer()) + Emitted(CharActionOf(CharType(c), old(state)), c)
      ensures state == CharNewState(CharType(c), old(state))
    {
      var row := CharType(c);
      Append(CharActionOf(row, state), c);
      state := CharNewState(row, state);
    }

    /** The carriage return: close the buffer, split it, go back to the start. */
    method FeedCr()
      requires Valid() && queue.Valid() && -1 <= reach && LineReach(ptr, state, "") < input.Length
      requires IsBuffer(Buffer() + Normalised(state, ""))
      modifies this, input, queue
      ensures reach == Max(old(reach), LineReach(old(ptr), old(state), ""))
      ensures Valid() && ptr == 0 && state == 0 && queue.Valid()
      ensures queue.Tokens() == Split(old(Buffer()) + Normalised(old(state), ""))
      ensures fresh(queue.repr)
    {
      Append(CharActionOf(CR_ROW, state), CR);
      assert input[ptr] == NUL;
      ProcessBuffer(ptr);
      state := CharNewState(CR_ROW, state);
    }

    /** What the splitter can be given: no terminator inside, quotes closed. */
    static predicate IsBuffer(b: string) {
      QuotesClosed(b, 0) && forall i :: 0 <= i < |b| ==> b[i] != NUL
    }

    /** Move from an opening quote to the closing one. */
    method SkipQuoted(ghost b: string, n: nat)
      requires ptr < n < input.Length && n == |b| && input[n] == NUL && QuoteEnd(b, ptr + 1) < n
      requires forall i :: 0 <= i < n ==> b[i] != NUL && (ptr < i ==> input[i] == b[i])
      modifies this`ptr
      ensures ptr == QuoteEnd(b, old(ptr) + 1)
    {
      ghost var p := ptr;
      ptr := ptr + 1;
      while input[ptr] != QUOTE && input[ptr] != NUL
        invariant p < ptr <= QuoteEnd(b, p + 1)
        decreases n - ptr
      {
        ptr := ptr + 1;
      }
    }

    /** End the token that began at `start` with a terminator and queue it. */
    method PushToken(start: nat)
      requires start <= ptr < input.Length && queue.Filling()
      modifies input, queue, queue.repr
      ensures queue.Filling() && fresh(queue.repr - old(queue.repr))
      ensures queue.Tokens() == old(queue.Tokens()) + [old(input[start..ptr])]
      ensures forall i :: 0 <= i < input.Length && i != ptr ==> input[i] == old(input[i])
    {
      input[ptr] := NUL;
      assert input[start..ptr] == old(input[start..ptr]);
      queue.Push(input[start..ptr]);
    }

    /** `process_buffer` on the `n` characters in the buffer: each token is ended in place with a
        terminator and queued; afterwards the buffer is clear. The scratch copy that the code also makes
        is never read. */
    method ProcessBuffer(n: nat)
      requires n < input.Length && input[n] == NUL && IsBuffer(input[..n])
      modifies this, input, queue
      ensures queue.Valid() && queue.Tokens() == Split(old(input[..n]))
      ensures ptr == 0 && state == old(state) && reach == old(reach)
      ensures forall i :: 0 <= i < input.Length ==> input[i] == NUL
      ensures fresh(queue.repr)
    {
      ghost var b := input[..n];
      ptr := 0;
      var start: nat := ptr;
      queue.Reset();
      while input[ptr] != NUL
        invariant Splitting(b, n, start) && state == old(state) && reach == old(reach) && fresh(queue.repr)
        decreases n - ptr
      {
        start := Advance(b, n, start);
      }
      ClearInput();
    }

    /** The tokens before `start` are queued; from there on the buffer is still as the machine left it. */
    ghost predicate Splitting(b: string, n: nat, start: nat)
      reads this, input, queue, queue.repr
    {
      && start <= ptr <= n == |b| && n < input.Length && input[n] == NUL && queue.Filling()
      && (forall i :: 0 <= i < n ==> b[i] != NUL) && (forall i :: start <= i < n ==> input[i] == b[i])
      && QuotesClosed(b, ptr) && queue.Tokens() + SplitFrom(b, start, ptr) == Split(b)
    }

    /** One pass of the splitter's loop. After a quoted token the cell under the pointer has been cleared,
        so the code's delimiter test does not fire in the same pass. */
    method Advance(ghost b: string, n: nat, start: nat) returns (start': nat)
      requires Splitting(b, n, start) && ptr < n
      modifies this, input, queue, queue.repr
      ensures Splitting(b, n, start') && ptr > old(ptr) && state == old(state) && reach == old(reach)
      ensures fresh(queue.repr - old(queue.repr))
    {
      if input[ptr] == QUOTE {
        start' := AdvanceQuoted(b, n, start);
      } else if CharType(input[ptr]) == DELIM_ROW {
        assert input[start..ptr] == b[start..ptr];
        PushToken(start);
        start' := ptr + 1;
        assert SplitFrom(b, start, ptr) == [b[start..ptr]] + SplitFrom(b, start', start');
        ptr := ptr + 1;
      } else {
        start' := start;
        ptr := ptr + 1;
      }
    }

    /** The pass that meets an opening quote: copy to the closing one, and queue all of it. */
    method AdvanceQuoted(ghost b: string, n: nat, start: nat) returns (start': nat)
      requires Splitting(b, n, start) && ptr < n && input[ptr] == QUOTE
      modifies this, input, queue, queue.repr
      ensures Splitting(b, n, start') && ptr > old(ptr) && state == old(state) && reach == old(reach)
      ensures fresh(queue.repr - old(queue.repr))
    {
      ghost var p := ptr;
      SkipQuoted(b, n);
      ptr := ptr + 1;
      assert input[start..ptr] == b[start..ptr];
      PushToken(start);
      start' := ptr + 1;
      assert SplitFrom(b, start, p) == [b[start..ptr]] + SplitFrom(b, start', start');
      ptr := ptr + 1;
    }

    /** What the main loop does on a carriage return: reset the machine and send it the line. */
    method EnterLine(line: string)
      requires queue.Valid() && IsLine(line) && Balanced(line) && -1 <= reach && StaysInside(line, input.Length)
      modifies this, input, queue
      ensures Valid() && ptr == 0 && state == 0 && queue.Valid()
      ensures queue.Tokens() == LexLine(line)
      ensures reach == Max(old(reach), LineReach(0, 0, line))
      ensures fresh(queue.repr)
    {
      CharFsmReset();
      FeedLine(line);
      hide LineReach;
      hide Normalised;
      NormalisedHasNoNul(0, line);
      TwoPhaseLexingIsCorrect(line);
      FeedCr();
    }

    /** The characters before the carriage return. */
    method FeedLine(line: string)
      requires Valid() && ptr == 0 && state == 0 && -1 <= reach && IsLine(line) && StaysInside(line, input.Length)
      modifies this, input
      ensures Valid() && Buffer() + Normalised(state, "") == Normalised(0, line)
      ensures -1 <= reach && LineReach(ptr, state, "") < input.Length
      ensures Max(reach, LineReach(ptr, state, "")) == Max(old(reach), LineReach(0, 0, line))
    {
      hide LineReach;
      hide Normalised;
      hide Touch;
      hide CharType;
      hide CharActionOf;
      hide CharNewState;
      hide Emitted;
      var i := 0;
      assert line[0..] == line;
      while i < |line|
        invariant 0 <= i <= |line| && Valid() && -1 <= reach
        invariant Max(reach, LineReach(ptr, state, line[i..])) == Max(old(reach), LineReach(0, 0, line))
        invariant LineReach(ptr, state, line[i..]) < input.Length
        invariant Buffer() + Normalised(state, line[i..]) == Normalised(0, line)
      {
        NormalisedStep(state, line[i..]);
        ReachStep(ptr, state, line[i..]);
        assert line[i..][1..] == line[i + 1..];
        Feed(line[i]);
        i := i + 1;
      }
      assert line[i..] == "";
    }
  }

  lemma ReachStep(ptr: nat, state: nat, s: string)
    requires s != ""
    ensures var a := CharActionOf(CharType(s[0]), state);
            LineReach(ptr, state, s)
              == Max(Touch(a, ptr), LineReach(ptr + |Emitted(a, s[0])|, CharNewState(CharType(s[0]), state), s[1..]))
  {
  }

  lemma NormalisedStep(state: nat, s: string)
    requires s != ""
    ensures var e := Emitted(CharActionOf(CharType(s[0]), state), s[0]);
            forall b: string :: b + Normalised(state, s) == (b + e) + Normalised(CharNewState(CharType(s[0]), state), s[1..])
    ensures |Normalised(state, s)| >= |Emitted(CharActionOf(CharType(s[0]), state), s[0])|
  {
  }

  lemma {:induction false} NormalisedHasNoNul(state: nat, s: string)
    requires IsLine(s)
    ensures forall i :: 0 <= i < |Normalised(state, s)| ==> Normalised(state, s)[i] != NUL
    decreases |s|
  {
    if s != "" {
      NormalisedHasNoNul(CharNewState(CharType(s[0]), state), s[1..]);
    }
  }
}
