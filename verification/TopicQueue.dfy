/** The linked queue of topic levels (`fifo_q.c`) and the splitter that fills it (`build_token_q.c`). */
module TopicQueues {
  import opened Chars
  import opened Sequences

  const TOKEN_BUFFER_SIZE := 50

  // ----- what splitting means -----

  function SlashPos(s: string): (n: nat)
    ensures n <= |s| && (n < |s| ==> s[n] == '/') && forall i :: 0 <= i < n ==> s[i] != '/'
  {
    if s == "" || s[0] == '/' then 0 else 1 + SlashPos(s[1..])
  }

  /** The levels the code queues: nothing follows a final separator. */
  function Levels(topic: string): seq<string>
    decreases |topic|
  {
    if topic == "" then []
    else
      var n := SlashPos(topic);
      [topic[..n]] + if n == |topic| then [] else Levels(topic[n + 1..])
  }

  /** The levels of section 4.7.1.1 of MQTT Version 3.1.1: every separator starts another level. */
  function StandardLevels(topic: string): seq<string>
    decreases |topic|
  {
    var n := SlashPos(topic);
    if n == |topic| then [topic] else [topic[..n]] + StandardLevels(topic[n + 1..])
  }

  function Join(levels: seq<string>): string {
    if |levels| == 0 then ""
    else if |levels| == 1 then levels[0]
    else levels[0] + "/" + Join(levels[1..])
  }

  predicate EndsInSlash(s: string) {
    s != "" && s[|s| - 1] == '/'
  }

  lemma JoinCons(first: string, rest: seq<string>)
    ensures Join([first] + rest) == if rest == [] then first else first + "/" + Join(rest)
  {
    assert ([first] + rest)[1..] == rest;
  }

  /** A topic is its first level, a separator and the rest; so is the topic without its last character. */
  lemma TopicParts(topic: string, n: nat)
    requires n < |topic| && topic[n] == '/'
    ensures topic == topic[..n] + "/" + topic[n + 1..]
    ensures n + 1 < |topic| ==>
              topic[..|topic| - 1] == topic[..n] + "/" + topic[n + 1..][..|topic| - n - 2]
    ensures EndsInSlash(topic) <==> n + 1 == |topic| || EndsInSlash(topic[n + 1..])
  {
  }

  /** The queued levels joined again give back the topic, minus one final separator. */
  lemma {:induction false} JoinUndoesSplit(topic: string)
    ensures Join(Levels(topic)) == if EndsInSlash(topic) then topic[..|topic| - 1] else topic
    decreases |topic|
  {
    var n := SlashPos(topic);
    if n < |topic| {
      var rest := topic[n + 1..];
      JoinUndoesSplit(rest);
      JoinCons(topic[..n], Levels(rest));
      TopicParts(topic, n);
      assert Levels(topic) == [topic[..n]] + Levels(rest);
      assert Levels(rest) == [] <==> rest == "";
    } else if topic != "" {
      JoinCons(topic, []);
      assert topic[..n] == topic && Levels(topic) == [topic] + [];
    }
  }

  /** The standard's levels are the code's, with an empty one more behind a final separator. */
  lemma {:induction false} StandardAddsTheLastLevel(topic: string)
    ensures StandardLevels(topic) == Levels(topic) + if topic == "" || EndsInSlash(topic) then [""] else []
    decreases |topic|
  {
    var n := SlashPos(topic);
    if n < |topic| {
      var rest := topic[n + 1..];
      StandardAddsTheLastLevel(rest);
      TopicParts(topic, n);
      assert Levels(topic) == [topic[..n]] + Levels(rest) && StandardLevels(topic) == [topic[..n]] + StandardLevels(rest);
      hide Levels;
      hide StandardLevels;
      hide SlashPos;
      Regroup([topic[..n]], Levels(rest), if rest == "" || EndsInSlash(rest) then [""] else []);
    } else {
      assert topic[..n] == topic;
    }
  }

  /** So the code agrees with the standard exactly on non-empty topics without a final separator. */
  lemma StandardIffNoTrailingSlash(topic: string)
    ensures Levels(topic) == StandardLevels(topic) <==> topic != "" && !EndsInSlash(topic)
  {
    StandardAddsTheLastLevel(topic);
  }

  // ----- the queue -----

  class TopicNode {
    var next: TopicNode?
    const token: string

    constructor (token: string)
      ensures this.token == token && next == null
    {
      this.token := token;
      next := null;
    }
  }

  ghost function TokensOf(nodes: seq<TopicNode>): seq<string> {
    seq(|nodes|, i requires 0 <= i < |nodes| => nodes[i].token)
  }

  class TopicQueue {
    var head: TopicNode?
    var tail: TopicNode?
    ghost var nodes: seq<TopicNode>
    ghost var repr: set<TopicNode>

    /** The list from `head` to `tail` is `nodes`; either both ends are null or neither is. */
    ghost predicate Valid()
      reads this, repr
    {
      && (forall n :: n in nodes ==> n in repr)
      && (if nodes == [] then head == null && tail == null else head == nodes[0] && tail == nodes[|nodes| - 1])
      && (forall i :: 0 <= i < |nodes| - 1 ==> nodes[i].next == nodes[i + 1])
      && (nodes != [] ==> nodes[|nodes| - 1].next == null)
      && (forall i, j :: 0 <= i < j < |nodes| ==> nodes[i] != nodes[j])
    }

    ghost function Tokens(): seq<string>
      reads this
    {
      TokensOf(nodes)
    }

    /** list_new */
    constructor ()
      ensures Valid() && Tokens() == [] && repr == {}
    {
      head, tail, nodes, repr := null, null, [], {};
    }
  }

  /** list_add_element: null for no queue or for one with only one end set. */
  method ListAddElement(q: TopicQueue?, token: string) returns (r: TopicQueue?)
    requires q != null && (q.head == null <==> q.tail == null) ==> q.Valid()
    modifies q, if q == null then {} else q.repr
    ensures q == null || (old(q.head) == null) != (old(q.tail) == null) ==> r == null
    ensures q != null && (old(q.head) == null <==> old(q.tail) == null) ==>
              r == q && q.Valid() && q.Tokens() == old(q.Tokens()) + [token] && fresh(q.repr - old(q.repr))
  {
    var newNode := new TopicNode(token);
    if q == null {
      return q;
    }
    if q.head == null && q.tail == null {
      q.head, q.tail := newNode, newNode;
    } else if q.head == null || q.tail == null {
      return null;
    } else {
      q.tail.next := newNode;
      q.tail := newNode;
    }
    q.nodes, q.repr := q.nodes + [newNode], q.repr + {newNode};
    return q;
  }

  /** list_remove_element: always the first element; null when there is none. */
  method ListRemoveElement(q: TopicQueue?) returns (r: TopicQueue?)
    requires q != null && (q.head == null <==> q.tail == null) ==> q.Valid()
    modifies q
    ensures q == null || old(q.head) == null || old(q.tail) == null ==> r == null
    ensures q != null && old(q.head) != null && old(q.tail) != null ==>
              r == q && q.Valid() && q.Tokens() == old(q.Tokens())[1..] && q.repr == old(q.repr)
    ensures q != null && old(q.head) == null && old(q.tail) == null ==> q.Valid() && q.Tokens() == []
  {
    if q == null {
      return null;
    }
    if q.head == null || q.tail == null {
      return null;
    }
    q.head := q.head.next;
    if q.head == null {
      q.tail := q.head;
    }
    q.nodes := q.nodes[1..];
    return q;
  }

  /** The token copied over the front of the caller's buffer, without a terminator. */
  function Overlay(token: string, buffer: string): string
    requires |token| <= |buffer|
  {
    token + buffer[|token|..]
  }

  /** The text a buffer holds: everything before its first terminator. */
  function CString(b: string): string {
    if b == "" || b[0] == NUL then "" else [b[0]] + CString(b[1..])
  }

  /** The caller reads back the token exactly when the buffer was clear behind it. */
  lemma {:induction false} PopNeedsAClearBuffer(token: string, buffer: string)
    requires |token| <= |buffer| && NUL !in token
    ensures CString(Overlay(token, buffer)) == token <==> |token| == |buffer| || buffer[|token|] == NUL
  {
    CStringOver(token, buffer[|token|..]);
  }

  lemma {:induction false} CStringOver(token: string, rest: string)
    requires NUL !in token
    ensures CString(token + rest) == token + CString(rest)
    decreases |token|
  {
    if token == "" {
      assert token + rest == rest;
    } else {
      assert (token + rest)[1..] == token[1..] + rest;
      assert token[0] in token;
      CStringOver(token[1..], rest);
      assert [token[0]] + (token[1..] + CString(rest)) == token + CString(rest);
    }
  }

  /** pop: copy the first token into `buffer` and drop its node; null when the queue is empty. */
  method Pop(q: TopicQueue, buffer: array<char>) returns (r: TopicQueue?)
    requires q.Valid() && (q.Tokens() != [] ==> |q.Tokens()[0]| <= buffer.Length)
    modifies q, buffer
    ensures q.Valid() && q.repr == old(q.repr)
    ensures old(q.Tokens()) == [] ==> r == null && q.Tokens() == [] && buffer[..] == old(buffer[..])
    ensures old(q.Tokens()) != [] ==>
              r == q && q.Tokens() == old(q.Tokens())[1..] && buffer[..] == Overlay(old(q.Tokens())[0], old(buffer[..]))
  {
    if q.head == null {
      return null;
    }
    var token := q.head.token;
    forall i | 0 <= i < |token| {
      buffer[i] := token[i];
    }
    assert buffer[..] == Overlay(token, old(buffer[..]));
    r := ListRemoveElement(q);
  }

  method ListFree(q: TopicQueue) returns (r: TopicQueue)
    requires q.Valid()
    modifies q
    ensures r == q && q.Valid() && q.Tokens() == [] && q.head == null && q.tail == null
  {
    while q.head != null
      invariant q.Valid()
      decreases |q.nodes|
    {
      var _ := ListRemoveElement(q);
    }
    return q;
  }

  // ----- the splitter -----

  method StrLen(b: array<char>) returns (n: nat)
    ensures n <= b.Length && (n < b.Length ==> b[n] == NUL) && forall i :: 0 <= i < n ==> b[i] != NUL
  {
    n := 0;
    while n < b.Length && b[n] != NUL
      invariant n <= b.Length && forall i :: 0 <= i < n ==> b[i] != NUL
    {
      n := n + 1;
    }
  }

  /** Every level leaves room for a terminator in the scratch buffer. */
  predicate AllFit(levels: seq<string>) {
    forall i :: 0 <= i < |levels| ==> |levels[i]| < TOKEN_BUFFER_SIZE
  }

  /** What follows the first level. */
  function AfterLevel(s: string): string {
    if SlashPos(s) < |s| then s[SlashPos(s) + 1..] else ""
  }

  lemma LevelsStep(s: string)
    requires s != ""
    ensures Levels(s) == [s[..SlashPos(s)]] + Levels(AfterLevel(s))
  {
  }

  lemma AllFitStep(first: string, rest: seq<string>)
    ensures AllFit([first] + rest) <==> |first| < TOKEN_BUFFER_SIZE && AllFit(rest)
  {
    var all := [first] + rest;
    assert all[0] == first && forall i :: 0 <= i < |rest| ==> rest[i] == all[i + 1];
  }

  method BuildTokenQ(topic: string) returns (q: TopicQueue)
    requires NUL !in topic && AllFit(Levels(topic))
    ensures fresh(q) && fresh(q.repr) && q.Valid() && q.Tokens() == Levels(topic)
  {
    q := new TopicQueue();
    var buffer := new char[TOKEN_BUFFER_SIZE](_ => NUL);
    var p := 0;
    assert topic[p..] == topic;
    while p < |topic|
      invariant 0 <= p <= |topic| && fresh(q) && fresh(q.repr) && q.Valid() && AllFit(Levels(topic[p..]))
      invariant q.Tokens() + Levels(topic[p..]) == Levels(topic)
    {
      p := QueueLevel(q, topic, p, buffer);
    }
  }

  /** One pass of the outer loop. */
  method QueueLevel(q: TopicQueue, topic: string, start: nat, buffer: array<char>) returns (p: nat)
    requires start < |topic| && NUL !in topic && buffer.Length == TOKEN_BUFFER_SIZE
    requires q.Valid() && AllFit(Levels(topic[start..]))
    modifies q, q.repr, buffer
    ensures start < p <= |topic| && q.Valid() && fresh(q.repr - old(q.repr)) && AllFit(Levels(topic[p..]))
    ensures q.Tokens() + Levels(topic[p..]) == old(q.Tokens()) + Levels(topic[start..])
  {
    ghost var rest := topic[start..];
    LevelsStep(rest);
    AllFitStep(rest[..SlashPos(rest)], Levels(AfterLevel(rest)));
    hide AllFit;
    hide Levels;
    hide SlashPos;
    hide AfterLevel;
    hide TokensOf;
    var token := ReadLevel(topic, start, buffer);
    p := NextLevel(topic, start, token);
    var _ := ListAddElement(q, token);
    Regroup(old(q.Tokens()), [token], Levels(topic[p..]));
  }

  /** Where the next level starts: behind this one and its separator, if there is one. */
  method NextLevel(topic: string, start: nat, token: string) returns (p: nat)
    requires start < |topic| && token == topic[start..][..SlashPos(topic[start..])]
    ensures start < p <= |topic| && topic[p..] == AfterLevel(topic[start..])
  {
    ghost var s := topic[start..];
    p := start + |token|;
    if p < |topic| && topic[p] == '/' {
      p := p + 1;
    }
    assert SlashPos(s) < |s| ==> topic[p - 1] == s[SlashPos(s)];
  }

  /** One level, collected in the cleared scratch buffer, measured and copied out. */
  method ReadLevel(topic: string, start: nat, buffer: array<char>) returns (token: string)
    requires start < |topic| && NUL !in topic && buffer.Length == TOKEN_BUFFER_SIZE
    requires SlashPos(topic[start..]) < TOKEN_BUFFER_SIZE
    modifies buffer
    ensures token == topic[start..][..SlashPos(topic[start..])]
  {
    forall i | 0 <= i < buffer.Length {
      buffer[i] := NUL;
    }
    ghost var s := topic[start..];
    assert forall i :: 0 <= i < |s| ==> s[i] == topic[start + i] && s[i] != NUL;
    var k := 0;
    while start + k < |topic| && topic[start + k] != '/'
      invariant 0 <= k <= SlashPos(s)
      invariant forall i :: 0 <= i < k ==> buffer[i] == s[i]
      invariant forall i :: k <= i < buffer.Length ==> buffer[i] == NUL
    {
      assert s[k] == topic[start + k];
      buffer[k] := topic[start + k];
      k := k + 1;
    }
    assert start + k < |topic| ==> s[k] == topic[start + k];
    assert k < buffer.Length && buffer[k] == NUL;
    assert k == SlashPos(s) && forall i :: 0 <= i < k ==> buffer[i] != NUL;
    var n := StrLen(buffer);
    assert n == k;
    token := buffer[..n];
    assert token == s[..k];
  }
}
