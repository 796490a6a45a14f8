/** The linked list of tokens between the character machine and the command machine (`char_fsm.c`). */
module TokenQueues {
  class Node {
    var next: Node?
    const text: string

    constructor (text: string)
      ensures this.text == text && next == null
    {
      this.text := text;
      next := null;
    }
  }

  ghost function Texts(nodes: seq<Node>): seq<string> {
    seq(|nodes|, i requires 0 <= i < |nodes| => nodes[i].text)
  }

  class TokenQueue {
    var head: Node?
    var tail: Node?
    ghost var nodes: seq<Node>
    ghost var repr: set<Node>

    /** The list from `head` is `nodes`. `tail` may be stale once tokens have been popped. */
    ghost predicate Valid()
      reads this, repr
    {
      && (forall n :: n in nodes ==> n in repr)
      && head == (if nodes == [] then null else nodes[0])
      && (forall i :: 0 <= i < |nodes| - 1 ==> nodes[i].next == nodes[i + 1])
      && (nodes != [] ==> nodes[|nodes| - 1].next == null)
      && (forall i, j :: 0 <= i < j < |nodes| ==> nodes[i] != nodes[j])
    }

    /** A line is being split: `tail` is the last node. */
    ghost predicate Filling()
      reads this, repr
    {
      Valid() && tail == if nodes == [] then null else nodes[|nodes| - 1]
    }

    ghost function Tokens(): seq<string>
      reads this
    {
      Texts(nodes)
    }

    constructor ()
      ensures Filling() && Tokens() == [] && repr == {}
    {
      head, tail, nodes, repr := null, null, [], {};
    }

    /** What `process_buffer` does first; tokens still queued are lost. */
    method Reset()
      modifies this
      ensures Filling() && Tokens() == [] && repr == {}
    {
      head := null;
      tail := head;
      nodes, repr := [], {};
    }

    method Push(text: string)
      requires Filling()
      modifies this, repr
      ensures Filling() && Tokens() == old(Tokens()) + [text]
      ensures fresh(repr - old(repr))
    {
      var node := new Node(text);
      if tail == null {
        tail := node;
        head := tail;
      } else {
        tail.next := node;
        tail := tail.next;
      }
      nodes, repr := nodes + [node], repr + {node};
    }

    /** Move the first token to the caller; false when there is none. */
    method PopCmdQ() returns (more: bool, buf: string)
      requires Valid()
      modifies this
      ensures Valid() && more == (old(Tokens()) != [])
      ensures more ==> buf == old(Tokens())[0] && Tokens() == old(Tokens())[1..]
      ensures !more ==> buf == "" && Tokens() == []
      ensures repr == old(repr)
    {
      if head == null {
        return false, "";
      }
      buf := head.text;
      head := head.next;
      nodes := nodes[1..];
      return true, buf;
    }

    method EmptyQueue()
      requires Valid()
      modifies this
      ensures Valid() && Tokens() == []
    {
      var more, buf := PopCmdQ();
      while more
        invariant Valid() && (!more ==> Tokens() == [])
        decreases more, |Tokens()|
      {
        more, buf := PopCmdQ();
      }
    }
  }
}
