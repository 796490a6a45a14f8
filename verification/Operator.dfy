/** The operator program's main loop around its parts: keys edit a line, a carriage return lexes it, the
    queued tokens drive the command machine. */
module Operator {
  import opened CharMachines
  import opened Chars
  import opened CmdMachine
  import opened CmdSpec
  import Lexer
  import LineEditor

  // ----- staying inside the two buffers -----

  /** A line that ends outside quotes and that both buffers have room for: sixty cells with its carriage
      return and terminator, and sixty as the character machine spaces it out. */
  ghost predicate Enterable(text: string) {
    Lexer.IsLine(text) && Lexer.Balanced(text) && |text| + 2 <= INPUT_BUFFER_SIZE &&
    Lexer.StaysInside(text, INPUT_BUFFER_SIZE)
  }

  /** Enough for that: characters and quotes together are at most 58. */
  lemma ShortLinesAreEnterable(text: string)
    requires Lexer.IsLine(text) && Lexer.Balanced(text) && |text| + Lexer.Quotes(text) <= 58
    ensures Enterable(text)
  {
    Lexer.BufferCells(text);
  }

  predicate KeysOk(ks: seq<LineEditor.Key>) {
    forall i :: 0 <= i < |ks| && ks[i].Type? ==> Lexer.IsLineChar(ks[i].c)
  }

  /** No key makes the program touch a cell behind the line buffer, and no line that is entered makes the
      character machine write one behind its input buffer. */
  predicate SessionInside(l: LineEditor.Line, ks: seq<LineEditor.Key>)
    requires LineEditor.LineOk(l)
    decreases |ks|
  {
    ks == [] ||
    (LineEditor.Reach(l, ks[0]) < INPUT_BUFFER_SIZE &&
     (ks[0].Enter? ==> Lexer.StaysInside(l.text, INPUT_BUFFER_SIZE)) &&
     SessionInside(LineEditor.Press(l, ks[0]), ks[1..]))
  }

  /** The checks the program would have to make: on the length of the line, and on its tokens. */
  predicate KeyGuard(l: LineEditor.Line, k: LineEditor.Key) {
    LineEditor.KeyGuard(l, k) && (k.Enter? ==> Lexer.TokenCells(Lexer.LexLine(l.text)) < INPUT_BUFFER_SIZE)
  }

  ghost predicate Guarded(l: LineEditor.Line, ks: seq<LineEditor.Key>)
    requires LineEditor.LineOk(l)
  {
    forall i :: 0 <= i < |ks| ==> KeyGuard(LineEditor.PressAll(l, ks[..i]), ks[i])
  }

  lemma GuardedStep(l: LineEditor.Line, ks: seq<LineEditor.Key>)
    requires LineEditor.LineOk(l) && ks != []
    ensures Guarded(l, ks) <==> KeyGuard(l, ks[0]) && Guarded(LineEditor.Press(l, ks[0]), ks[1..])
  {
    hide KeyGuard;
    var rest, next := ks[1..], LineEditor.Press(l, ks[0]);
    assert LineEditor.PressAll(l, ks[..0]) == l;
    forall i | 0 <= i < |rest|
      ensures LineEditor.PressAll(next, rest[..i]) == LineEditor.PressAll(l, ks[..i + 1]) && rest[i] == ks[i + 1]
    {
      assert ks[..i + 1][1..] == rest[..i] && ks[..i + 1][0] == ks[0];
    }
    if KeyGuard(l, ks[0]) && Guarded(next, rest) {
      forall i | 0 <= i < |ks|
        ensures KeyGuard(LineEditor.PressAll(l, ks[..i]), ks[i])
      {
        assert i > 0 ==> rest[i - 1] == ks[i];
      }
    }
  }

  lemma PressKeepsLine(l: LineEditor.Line, k: LineEditor.Key)
    requires LineEditor.LineOk(l) && Lexer.IsLine(l.text) && (k.Type? ==> Lexer.IsLineChar(k.c))
    ensures Lexer.IsLine(LineEditor.Press(l, k).text)
  {
  }

  /** A whole session stays inside both buffers exactly when every key meets its guard at its turn. */
  lemma {:induction false} SessionStaysInsideIffGuarded(l: LineEditor.Line, ks: seq<LineEditor.Key>)
    requires LineEditor.LineOk(l) && Lexer.IsLine(l.text) && KeysOk(ks)
    ensures SessionInside(l, ks) <==> Guarded(l, ks)
    decreases |ks|
  {
    if ks != [] {
      PressKeepsLine(l, ks[0]);
      SessionStaysInsideIffGuarded(LineEditor.Press(l, ks[0]), ks[1..]);
      GuardedStep(l, ks);
      hide Guarded;
      Lexer.StaysInsideIffTheTokensFit(l.text, INPUT_BUFFER_SIZE);
    }
  }

  // ----- one command line -----

  /** The editor holds a line that can be entered, and the character machine is there for it. */
  ghost predicate CanEnter(editor: LineEditor.Editor, chars: CharMachine)
    reads editor, editor.work, chars, chars.queue, chars.queue.repr
  {
    && editor.Valid() && chars.queue.Valid() && editor.work != chars.input && Enterable(editor.View().text)
    && chars.input.Length == INPUT_BUFFER_SIZE && -1 <= chars.reach
  }

  /** The carriage return: the edited line is lexed into the queue and both buffers are cleared. */
  method EnterText(editor: LineEditor.Editor, chars: CharMachine)
    requires CanEnter(editor, chars)
    modifies editor, editor.work, chars, chars.input, chars.queue
    ensures editor.Valid() && editor.View() == LineEditor.Line("", 0)
    ensures chars.Valid() && chars.queue.Valid() && chars.queue.Tokens() == Lexer.LexLine(old(editor.View()).text)
  {
    ghost var text := editor.View().text;
    assert forall i :: 0 <= i < |text| ==> Lexer.IsLineChar(text[i]);
    var line := editor.TakeLine();
    assert line[..|line| - 1] == text;
    chars.EnterLine(line[..|line| - 1]);
  }

  /** What the command machine makes of the edited line, lexed in one pass. */
  ghost function LineOutcome(editor: LineEditor.Editor, cmd: CommandMachine): Outcome
    requires editor.Valid() && cmd.Valid()
    reads editor, editor.work, cmd, cmd.shm, cmd.shm.chans, cmd.shm.lib, cmd.buffer, cmd.buffer.rec
  {
    Drain(Lexer.LexLine(editor.View().text), cmd.View())
  }

  /** The program ended if the outcome says so; otherwise the machine is where it says and no token is left. */
  ghost predicate LineDone(o: Outcome, chars: CharMachine, cmd: CommandMachine, exited: bool)
    reads chars.queue, chars.queue.repr, cmd, cmd.shm, cmd.shm.chans, cmd.shm.lib, cmd.buffer, cmd.buffer.rec
  {
    && (exited <==> o.Exited?)
    && (!exited ==> o.Done? && cmd.Valid() && cmd.View() == o.m && chars.queue.Valid() && chars.queue.Tokens() == [])
  }

  /** One command line, from the carriage return to the next prompt. */
  method CommandLine(editor: LineEditor.Editor, chars: CharMachine, cmd: CommandMachine) returns (exited: bool)
    requires CanEnter(editor, chars) && cmd.Valid() && LineOutcome(editor, cmd) != Fault
    modifies editor, editor.work, chars, chars.input, chars.queue, cmd.Repr()
    ensures LineDone(old(LineOutcome(editor, cmd)), chars, cmd, exited)
  {
    EnterText(editor, chars);
    assert cmd.Valid() && cmd.View() == old(cmd.View());
    hide Drain;
    exited := cmd.DrainQueue(chars.queue);
  }
}
