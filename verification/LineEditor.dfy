/** The operator's line buffer (`work_buffer` in `Pcon.c`): what the keys mean, and the shifting loops
    that do it in place. The buffer has 60 cells, but its room check lets a line take 63; a key that makes
    the program touch a cell behind the buffer has no defined effect. */
module LineEditor {
  import opened Chars

  /** The room check lets a line grow to 61 characters; the carriage return and terminator follow. */
  const CELLS_NEEDED := INPUT_BUFFER_SIZE + 3

  datatype Line = Line(text: string, cursor: nat)

  /** `Enter` hands the line on; `Reset` is the escape key. */
  datatype Key = Type(c: char) | Delete | Left | Right | Enter | Reset

  predicate LineOk(l: Line) {
    l.cursor <= |l.text| <= INPUT_BUFFER_SIZE + 1
  }

  function Press(l: Line, k: Key): Line
    requires l.cursor <= |l.text|
  {
    match k
    case Type(c) =>
      if |l.text| > INPUT_BUFFER_SIZE then l
      else Line(l.text[..l.cursor] + [c] + l.text[l.cursor..], l.cursor + 1)
    case Delete =>
      if l.cursor == 0 then l else Line(l.text[..l.cursor - 1] + l.text[l.cursor..], l.cursor - 1)
    case Left => if l.cursor == 0 then l else l.(cursor := l.cursor - 1)
    case Right => if l.cursor == |l.text| then l else l.(cursor := l.cursor + 1)
    case Enter => Line("", 0)
    case Reset => Line("", 0)
  }

  function PressAll(l: Line, ks: seq<Key>): (after: Line)
    requires LineOk(l)
    ensures LineOk(after)
    decreases |ks|
  {
    if ks == [] then l else PressAll(Press(l, ks[0]), ks[1..])
  }

  function Typed(w: string): seq<Key> {
    seq(|w|, i requires 0 <= i < |w| => Type(w[i]))
  }

  /** Delete undoes a character that was accepted, anywhere in the line. */
  lemma DeleteUndoesType(l: Line, c: char)
    requires l.cursor <= |l.text|
    ensures Press(Press(l, Type(c)), Delete) == l <==> |l.text| <= INPUT_BUFFER_SIZE || l.cursor == 0
  {
    if |l.text| <= INPUT_BUFFER_SIZE {
      var t := l.text[..l.cursor] + [c] + l.text[l.cursor..];
      assert t[..l.cursor] + t[l.cursor + 1..] == l.text;
    }
  }

  /** Typing a word, wherever the cursor is, puts the word there. */
  lemma {:induction false} TypingInsertsTheWord(l: Line, w: string)
    requires LineOk(l) && |l.text| + |w| <= INPUT_BUFFER_SIZE + 1
    ensures PressAll(l, Typed(w)) == Line(l.text[..l.cursor] + w + l.text[l.cursor..], l.cursor + |w|)
    decreases |w|
  {
    if w == "" {
      assert l.text[..l.cursor] + w + l.text[l.cursor..] == l.text;
    } else {
      var rest := w[1..];
      assert Typed(w)[1..] == Typed(rest);
      var next := Press(l, Typed(w)[0]);
      TypingInsertsTheWord(next, rest);
      assert next.text[..next.cursor] == l.text[..l.cursor] + [w[0]] && next.text[next.cursor..] == l.text[l.cursor..];
      assert [w[0]] + rest == w;
      assert (l.text[..l.cursor] + [w[0]]) + rest == l.text[..l.cursor] + w;
    }
  }

  /** The arrows undo each other, away from the ends of the line. */
  lemma ArrowsUndoEachOther(l: Line)
    requires l.cursor <= |l.text|
    ensures l.cursor > 0 ==> Press(l, Left).cursor == l.cursor - 1 && Press(Press(l, Left), Right) == l
    ensures l.cursor < |l.text| ==> Press(l, Right).cursor == l.cursor + 1 && Press(Press(l, Right), Left) == l
  {
  }

  function Lefts(n: nat): seq<Key> {
    seq(n, _ => Left)
  }

  lemma {:induction false} LeftMovesBack(l: Line, n: nat)
    requires LineOk(l) && n <= l.cursor
    ensures PressAll(l, Lefts(n)) == Line(l.text, l.cursor - n)
    decreases n
  {
    if n > 0 {
      assert Lefts(n)[1..] == Lefts(n - 1);
      LeftMovesBack(Press(l, Left), n - 1);
    }
  }

  lemma {:induction false} PressedInTurn(l: Line, ks: seq<Key>, more: seq<Key>)
    requires LineOk(l)
    ensures PressAll(l, ks + more) == PressAll(PressAll(l, ks), more)
    decreases |ks|
  {
    if ks == [] {
      assert ks + more == more;
    } else {
      assert (ks + more)[1..] == ks[1..] + more;
      PressedInTurn(Press(l, ks[0]), ks[1..], more);
    }
  }

  /** Typing a word, going back, and typing another puts the second inside the first. */
  lemma TypingInsideAWord(w: string, n: nat, v: string)
    requires n <= |w| && |w| + |v| <= INPUT_BUFFER_SIZE + 1
    ensures PressAll(Line("", 0), Typed(w) + Lefts(n) + Typed(v))
         == Line(w[..|w| - n] + v + w[|w| - n..], |w| - n + |v|)
  {
    var l := Line("", 0);
    TypingInsertsTheWord(l, w);
    assert PressAll(l, Typed(w)) == Line(w, |w|) by {
      assert "" + w + "" == w;
    }
    PressedInTurn(l, Typed(w), Lefts(n));
    LeftMovesBack(Line(w, |w|), n);
    PressedInTurn(l, Typed(w) + Lefts(n), Typed(v));
    TypingInsertsTheWord(Line(w, |w| - n), v);
  }

  // ----- the cells a key touches -----

  /** The highest cell that the program reads or writes for a key, -1 for none. */
  function Reach(l: Line, k: Key): int
    requires l.cursor <= |l.text|
  {
    match k
    case Type(_) =>
      if |l.text| > INPUT_BUFFER_SIZE then -1
      else if l.cursor == |l.text| then |l.text| // the character itself
      else |l.text| + 1                          // the terminator behind the shifted text
    case Delete => if l.cursor == 0 then -1 else |l.text|
    case Enter => |l.text| + 1
    case _ => -1
  }

  /** With `cells` cells no key of the run touches a cell behind the buffer. */
  predicate StaysInside(l: Line, ks: seq<Key>, cells: nat)
    requires LineOk(l)
    decreases |ks|
  {
    ks == [] || (Reach(l, ks[0]) < cells && StaysInside(Press(l, ks[0]), ks[1..], cells))
  }

  /** The same for a run of keys that begins with an empty line. */
  predicate SessionStaysInside(ks: seq<Key>, cells: nat) {
    StaysInside(Line("", 0), ks, cells)
  }

  lemma {:induction false} RunsCompose(l: Line, ks: seq<Key>, more: seq<Key>, cells: nat)
    requires LineOk(l)
    ensures StaysInside(l, ks + more, cells) <==>
              StaysInside(l, ks, cells) && StaysInside(PressAll(l, ks), more, cells)
    decreases |ks|
  {
    if ks == [] {
      assert ks + more == more;
    } else {
      assert (ks + more)[1..] == ks[1..] + more;
      RunsCompose(Press(l, ks[0]), ks[1..], more, cells);
    }
  }

  /** The declared buffer is enough for this key: the checks the program would have to make. */
  predicate KeyGuard(l: Line, k: Key) {
    match k
    case Type(_) => |l.text| > 60 || |l.text| <= (if l.cursor == |l.text| then 59 else 58)
    case Delete => l.cursor == 0 || |l.text| <= 59
    case Enter => |l.text| <= 58
    case _ => true
  }

  /** A run of keys stays inside the declared sixty cells exactly when every key meets its guard at its
      turn. */
  lemma {:induction false} RunsStayInsideIffGuarded(l: Line, ks: seq<Key>)
    requires LineOk(l)
    ensures StaysInside(l, ks, INPUT_BUFFER_SIZE) <==>
              forall i :: 0 <= i < |ks| ==> KeyGuard(PressAll(l, ks[..i]), ks[i])
    decreases |ks|
  {
    if ks != [] {
      var n := |ks| - 1;
      assert ks == ks[..n] + [ks[n]];
      RunsStayInsideIffGuarded(l, ks[..n]);
      RunsCompose(l, ks[..n], [ks[n]], INPUT_BUFFER_SIZE);
      OneKeyStaysInside(PressAll(l, ks[..n]), ks[n]);
      assert forall i :: 0 <= i < n ==> ks[..n][..i] == ks[..i];
    }
  }

  lemma OneKeyStaysInside(l: Line, k: Key)
    requires LineOk(l)
    ensures StaysInside(l, [k], INPUT_BUFFER_SIZE) <==> KeyGuard(l, k)
  {
    assert [k][1..] == [];
  }

  /** Typing a word of `n` characters on an empty line and entering it reaches cell `n` + 1. */
  lemma EnteringTheWordReaches(w: string, cells: nat)
    requires |w| <= INPUT_BUFFER_SIZE + 1 && SessionStaysInside(Typed(w) + [Enter], cells)
    ensures |w| + 2 <= cells
  {
    TypingInsertsTheWord(Line("", 0), w);
    RunsCompose(Line("", 0), Typed(w), [Enter], cells);
    assert PressAll(Line("", 0), Typed(w)).text == w;
  }

  /** A line of 59 characters, which the room check accepts, overruns the buffer when it is entered. */
  lemma FiftyNineCharactersOverrun(w: string)
    requires |w| == 59
    ensures !SessionStaysInside(Typed(w) + [Enter], INPUT_BUFFER_SIZE)
  {
    if SessionStaysInside(Typed(w) + [Enter], INPUT_BUFFER_SIZE) {
      EnteringTheWordReaches(w, INPUT_BUFFER_SIZE);
    }
  }

  lemma {:induction false} EnoughCells(l: Line, ks: seq<Key>, cells: nat)
    requires LineOk(l) && cells >= CELLS_NEEDED
    ensures StaysInside(l, ks, cells)
    decreases |ks|
  {
    if ks != [] {
      EnoughCells(Press(l, ks[0]), ks[1..], cells);
    }
  }

  /** The buffer the room check would need: 63 cells make every run safe, and no fewer do. */
  lemma SixtyThreeCellsAreNeeded(cells: nat)
    ensures (forall ks :: SessionStaysInside(ks, cells)) <==> cells >= CELLS_NEEDED
  {
    if cells >= CELLS_NEEDED {
      forall ks
        ensures SessionStaysInside(ks, cells)
      {
        EnoughCells(Line("", 0), ks, cells);
      }
    } else {
      var w := seq(INPUT_BUFFER_SIZE + 1, _ => 'a');
      if SessionStaysInside(Typed(w) + [Enter], cells) {
        EnteringTheWordReaches(w, cells);
      }
    }
  }

  class Editor {
    const work: array<char>
    var workPtr: nat
    var inputPtr: nat
    /** The highest cell touched so far. */
    ghost var reach: int

    /** Behind the text the buffer is clear, so the text is terminated if there is a cell left. */
    ghost predicate Valid()
      reads this, work
    {
      && work.Length == INPUT_BUFFER_SIZE && inputPtr <= workPtr <= work.Length && -1 <= reach
      && forall i :: workPtr <= i < work.Length ==> work[i] == NUL
    }

    ghost function View(): Line
      requires workPtr <= work.Length
      reads this, work
    {
      Line(work[..workPtr], inputPtr)
    }

    /** The key did what it means, and touched the cells it should. */
    ghost predicate Did(l: Line, k: Key, before: int)
      requires l.cursor <= |l.text|
      reads this, work
    {
      Valid() && View() == Press(l, k) && reach == Max(before, Reach(l, k))
    }

    constructor ()
      ensures Valid() && View() == Line("", 0) && reach == -1 && fresh(work)
    {
      work := new char[INPUT_BUFFER_SIZE](_ => NUL);
      workPtr, inputPtr, reach := 0, 0, -1;
    }

    method Put(i: nat, c: char)
      requires i < work.Length
      modifies this`reach, work
      ensures reach == Max(old(reach), i)
      ensures forall j :: 0 <= j < work.Length ==> work[j] == if j == i then c else old(work[j])
    {
      work[i], reach := c, Max(reach, i);
    }

    method Get(i: nat) returns (c: char)
      requires i < work.Length
      modifies this`reach
      ensures c == work[i] && reach == Max(old(reach), i)
    {
      c := work[i];
      reach := Max(reach, i);
    }

    method RightArrow()
      requires Valid()
      modifies this
      ensures Did(old(View()), Right, old(reach))
    {
      if inputPtr < workPtr {
        inputPtr := inputPtr + 1;
      }
    }

    method LeftArrow()
      requires Valid()
      modifies this
      ensures Did(old(View()), Left, old(reach))
    {
      if inputPtr > 0 {
        inputPtr := inputPtr - 1;
      }
    }

    /** ESC: `memset` and both pointers back to the start. */
    method Clear()
      requires work.Length == INPUT_BUFFER_SIZE && -1 <= reach
      modifies this`workPtr, this`inputPtr, work
      ensures Valid() && View() == Line("", 0)
    {
      forall i | 0 <= i < work.Length {
        work[i] := NUL;
      }
      workPtr, inputPtr := 0, 0;
    }

    method TypeChar(c: char)
      requires Valid() && Reach(View(), Type(c)) < work.Length
      modifies this, work
      ensures Did(old(View()), Type(c), old(reach))
    {
      ghost var l := View();
      if workPtr <= INPUT_BUFFER_SIZE {
        if inputPtr == workPtr {
          Put(workPtr, c);
          workPtr := workPtr + 1;
          inputPtr := workPtr;
        } else {
          ShiftRight();
          Put(inputPtr, c);
          inputPtr := inputPtr + 1;
        }
        assert work[..workPtr] == l.text[..l.cursor] + [c] + l.text[l.cursor..];
      }
    }

    /** Make room at the cursor: everything from there on moves up one cell. */
    method ShiftRight()
      requires Valid() && inputPtr < workPtr < work.Length - 1
      modifies this`workPtr, this`reach, work
      ensures workPtr == old(workPtr) + 1 && reach == Max(old(reach), workPtr)
      ensures forall i :: 0 <= i < inputPtr ==> work[i] == old(work[i])
      ensures forall i :: inputPtr < i < workPtr ==> work[i] == old(work[i - 1])
      ensures forall i :: workPtr <= i < work.Length ==> work[i] == NUL
    {
      var move := workPtr;
      workPtr := workPtr + 1;
      move := move + 1;
      Put(move, NUL);
      move := move - 1;
      while move > inputPtr
        invariant inputPtr <= move < workPtr == old(workPtr) + 1 && reach == Max(old(reach), workPtr)
        invariant forall i :: 0 <= i < move ==> work[i] == old(work[i])
        invariant forall i :: move < i < workPtr ==> work[i] == old(work[i - 1])
        invariant forall i :: workPtr <= i < work.Length ==> work[i] == NUL
      {
        var c := Get(move - 1);
        Put(move, c);
        move := move - 1;
      }
    }

    method DeleteChar()
      requires Valid() && Reach(View(), Delete) < work.Length
      modifies this, work
      ensures Did(old(View()), Delete, old(reach))
    {
      ghost var l := View();
      if inputPtr == 0 {
        return;
      }
      if inputPtr == workPtr {
        DropLast();
        inputPtr := workPtr;
        assert work[..workPtr] == l.text[..l.cursor - 1] + l.text[l.cursor..];
      } else {
        DeleteInside();
        assert l.text[..l.cursor - 1] == old(work[..inputPtr - 1]);
        assert l.text[l.cursor..] == old(work[inputPtr..workPtr]);
      }
    }

    /** The cursor is inside the line: the rest of the line moves down over the character before it. */
    method DeleteInside()
      requires Valid() && 0 < inputPtr < workPtr < work.Length
      modifies this, work
      ensures Valid() && workPtr == old(workPtr) - 1 && inputPtr == old(inputPtr) - 1
      ensures reach == Max(old(reach), old(workPtr))
      ensures work[..workPtr] == old(work[..inputPtr - 1]) + old(work[inputPtr..workPtr])
    {
      inputPtr := inputPtr - 1;
      var hold := inputPtr;
      ShiftLeft();
      inputPtr := hold;
      DropLast();
    }

    /** `*work_buffer_ptr-- = 0; *work_buffer_ptr = 0` */
    method DropLast()
      requires 0 < workPtr < work.Length
      modifies this`workPtr, this`reach, work
      ensures workPtr == old(workPtr) - 1 && reach == Max(old(reach), old(workPtr))
      ensures forall i :: 0 <= i < work.Length ==>
                work[i] == if i == workPtr || i == workPtr + 1 then NUL else old(work[i])
    {
      Put(workPtr, NUL);
      workPtr := workPtr - 1;
      Put(workPtr, NUL);
    }

    /** Everything behind the cursor moves down one cell, over the character at it. */
    method ShiftLeft()
      requires Valid() && inputPtr < workPtr < work.Length
      modifies this`inputPtr, this`reach, work
      ensures reach == Max(old(reach), workPtr)
      ensures forall i :: 0 <= i < old(inputPtr) ==> work[i] == old(work[i])
      ensures forall i :: old(inputPtr) <= i < workPtr ==> work[i] == old(work[i + 1])
      ensures forall i :: workPtr <= i < work.Length ==> work[i] == NUL
    {
      while inputPtr < workPtr
        invariant old(inputPtr) <= inputPtr <= workPtr
        invariant reach == if inputPtr == old(inputPtr) then old(reach) else Max(old(reach), inputPtr)
        invariant forall i :: 0 <= i < old(inputPtr) || inputPtr <= i < work.Length ==> work[i] == old(work[i])
        invariant forall i :: old(inputPtr) <= i < inputPtr ==> work[i] == old(work[i + 1])
      {
        var c := Get(inputPtr + 1);
        Put(inputPtr, c);
        inputPtr := inputPtr + 1;
      }
    }

    /** CR: the text is closed with a carriage return and a terminator, handed on, and the buffer cleared. */
    method TakeLine() returns (line: string)
      requires Valid() && NUL !in View().text && Reach(View(), Enter) < work.Length
      modifies this, work
      ensures Did(old(View()), Enter, old(reach)) && line == old(View()).text + [CR]
    {
      ghost var text := work[..workPtr];
      CloseLine();
      line := ReadLine(text);
      Clear();
    }

    method CloseLine()
      requires Valid() && workPtr + 1 < work.Length
      modifies this`workPtr, this`reach, work
      ensures work[..old(workPtr)] == old(work[..workPtr]) && reach == Max(old(reach), old(workPtr) + 1)
      ensures work[old(workPtr)] == CR && work[old(workPtr) + 1] == NUL
    {
      Put(workPtr, CR);
      workPtr := workPtr + 1;
      Put(workPtr, NUL);
      workPtr := workPtr + 1;
    }

    /** Read up to the terminator. */
    method ReadLine(ghost text: string) returns (line: string)
      requires |text| + 1 < work.Length && work[..|text|] == text && NUL !in text
      requires work[|text|] == CR && work[|text| + 1] == NUL && |text| + 1 <= reach
      modifies this`workPtr, this`reach
      ensures line == text + [CR] && reach == old(reach)
    {
      workPtr := 0;
      line := "";
      var c := Get(workPtr);
      while c != NUL
        invariant workPtr <= |text| + 1 && line == (text + [CR])[..workPtr] && reach == old(reach)
        invariant c == work[workPtr] && (workPtr < |text| ==> c == text[workPtr])
        decreases |text| + 1 - workPtr
      {
        line := line + [c];
        workPtr := workPtr + 1;
        c := Get(workPtr);
        assert workPtr < |text| ==> work[..|text|][workPtr] == text[workPtr];
      }
    }
  }
}
