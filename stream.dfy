/** The items the generation thread hands to the consumer of
    `stream_response`, and what the consumer makes of a queue of them, stated
    in closed form. */
module StreamItems {

  /** The token tensor the generation library hands to the streamer for one
      step, flattened. The consumer reads only its first element, so it is
      never empty. */
  type Payload = p: seq<int> | |p| > 0 witness [0]

  /** A queued dict: `{"type": "content", "content": payload}` or
      `{"type": "termination", "content": None}`. */
  datatype Item = Content(payload: Payload) | Termination

  /** What the consumer does with a queue: the texts it yields, in order;
      whether it met a termination item (false: it is left waiting forever
      on an empty queue); and what it leaves in the queue. */
  datatype Outcome = Outcome(texts: seq<string>, ended: bool, rest: seq<Item>)

  /** The position of the first termination item of `q`, or `|q|` if it has
      none. */
  function TermIndex(q: seq<Item>): (n: nat)
    ensures n <= |q|
    ensures n < |q| ==> q[n].Termination?
    ensures forall i :: 0 <= i < n ==> q[i].Content?
  {
    if q == [] || q[0].Termination? then 0 else 1 + TermIndex(q[1..])
  }

  predicate AllContent(items: seq<Item>) {
    forall i :: 0 <= i < |items| ==> items[i].Content?
  }

  /** The token ids the consumer accumulates from a run of content items:
      the first element of each payload, one per item, in queue order. */
  function TokenIds(items: seq<Item>): (ids: seq<int>)
    requires AllContent(items)
    ensures |ids| == |items|
    ensures forall i :: 0 <= i < |items| ==> ids[i] == items[i].payload[0]
  {
    if items == [] then []
    else TokenIds(items[..|items| - 1]) + [items[|items| - 1].payload[0]]
  }

  /** The texts yielded while the ids accumulate: after the `k`-th id has been
      appended, the decoding of the first `k` ids. */
  function Snapshots(ids: seq<int>, decode: seq<int> -> string): (ys: seq<string>)
    ensures |ys| == |ids|
    ensures forall k :: 0 <= k < |ids| ==> ys[k] == decode(ids[..k + 1])
  {
    if ids == [] then []
    else
      var earlier := ids[..|ids| - 1];
      assert forall j :: 0 <= j <= |earlier| ==> earlier[..j] == ids[..j];
      assert ids[..|ids|] == ids;
      Snapshots(earlier, decode) + [decode(ids)]
  }

  /** The consumer loop of `stream_response` over the queue `q`: drop the
      first item, read content items up to the first termination, and yield
      the decoding of all ids read so far after each of them. */
  function Consumed(q: seq<Item>, decode: seq<int> -> string): (o: Outcome)
    ensures q == [] ==> o == Outcome([], false, [])
    ensures q != [] ==> |q| == 1 + |o.texts| + (if o.ended then 1 else 0) + |o.rest|
    ensures |o.rest| <= |q| && o.rest == q[|q| - |o.rest|..]
    ensures o.ended ==> |o.rest| + 2 <= |q| && q[|q| - |o.rest| - 1] == Termination
    ensures !o.ended ==> o.rest == []
  {
    if q == [] then Outcome([], false, [])
    else
      var body := q[1..];
      var n := TermIndex(body);
      Outcome(Snapshots(TokenIds(body[..n]), decode), n < |body|, if n < |body| then body[n + 1..] else [])
  }

  /** The first item has no influence: whatever it is, the consumer yields
      the same texts, ends the same way and leaves the same queue. */
  lemma PrimingIgnored(x: Item, y: Item, q: seq<Item>, decode: seq<int> -> string)
    ensures Consumed([x] + q, decode) == Consumed([y] + q, decode)
  {
    assert ([x] + q)[1..] == q == ([y] + q)[1..];
  }

  lemma {:induction false} TokenIdsPrefix(items: seq<Item>, k: nat)
    requires AllContent(items) && k <= |items|
    ensures TokenIds(items)[..k] == TokenIds(items[..k])
  {
    var ids, pre := TokenIds(items), TokenIds(items[..k]);
    assert |ids[..k]| == |pre|;
    forall i | 0 <= i < k
      ensures ids[..k][i] == pre[i]
    {
      assert items[..k][i] == items[i];
    }
  }

  /** The texts, one per content item strictly between the first item and
      the first termination after it: the `k`-th is the decoding of the ids
      of the first `k` such items. Everything the consumer read was content. */
  lemma YieldsAreDecodedPrefixes(q: seq<Item>, decode: seq<int> -> string)
    requires q != []
    ensures var o := Consumed(q, decode);
            var n := TermIndex(q[1..]);
            && |o.texts| == n
            && AllContent(q[1..n + 1])
            && forall k :: 0 <= k < n ==> o.texts[k] == decode(TokenIds(q[1..k + 2]))
  {
    var body := q[1..];
    var n := TermIndex(body);
    assert q[1..n + 1] == body[..n];
    forall k | 0 <= k < n
      ensures Consumed(q, decode).texts[k] == decode(TokenIds(q[1..k + 2]))
    {
      TokenIdsPrefix(body[..n], k + 1);
      assert body[..n][..k + 1] == q[1..k + 2];
    }
  }

  /** Once the first termination after the first item is in the queue,
      anything queued later is never read: it only stays in the queue. */
  lemma StopsAtFirstTermination(q: seq<Item>, extra: seq<Item>, decode: seq<int> -> string)
    requires q != [] && TermIndex(q[1..]) < |q| - 1
    ensures Consumed(q + extra, decode).ended && Consumed(q, decode).ended
    ensures Consumed(q + extra, decode).texts == Consumed(q, decode).texts
    ensures Consumed(q + extra, decode).rest == Consumed(q, decode).rest + extra
  {
    var body := q[1..];
    var n := TermIndex(body);
    assert (q + extra)[1..] == body + extra;
    TermIndexAppend(body, extra);
    assert (body + extra)[..n] == body[..n];
    assert (body + extra)[n + 1..] == body[n + 1..] + extra;
  }

  lemma {:induction false} TermIndexAppend(q: seq<Item>, extra: seq<Item>)
    requires TermIndex(q) < |q|
    ensures TermIndex(q + extra) == TermIndex(q)
  {
    if q[0].Content? {
      assert (q + extra)[1..] == q[1..] + extra;
      TermIndexAppend(q[1..], extra);
    }
  }

  /** Whatever the decoder, the texts are decodings of one growing id
      sequence: the `k`-th yield decodes its first `k + 1` ids, so each yield
      decodes a prefix of the ids behind every later one. */
  lemma YieldsDecodeGrowingIds(q: seq<Item>, decode: seq<int> -> string)
    ensures var ys := Consumed(q, decode).texts;
            exists ids: seq<int> :: |ids| == |ys| && forall k :: 0 <= k < |ys| ==> ys[k] == decode(ids[..k + 1])
  {
    if q == [] {
      var none: seq<int> := [];
      assert |none| == |Consumed(q, decode).texts|;
    } else {
      var body := q[1..];
      var ids := TokenIds(body[..TermIndex(body)]);
      assert |ids| == |Consumed(q, decode).texts|;
    }
  }

  /** With a decoder that maps longer id sequences to extensions of the text,
      the yielded texts grow by extension too. */
  lemma YieldsGrow(q: seq<Item>, decode: seq<int> -> string)
    requires forall a, b :: a <= b ==> decode(a) <= decode(b)
    ensures var ys := Consumed(q, decode).texts;
            forall i, j :: 0 <= i <= j < |ys| ==> ys[i] <= ys[j]
  {
    if q != [] {
      var body := q[1..];
      var ids := TokenIds(body[..TermIndex(body)]);
      var ys := Consumed(q, decode).texts;
      forall i, j | 0 <= i <= j < |ys|
        ensures ys[i] <= ys[j]
      {
        assert ids[..i + 1] <= ids[..j + 1];
      }
    }
  }

  /** The content items carrying `payloads`, in order. */
  function Contents(payloads: seq<Payload>): (items: seq<Item>)
    ensures |items| == |payloads| && AllContent(items)
    ensures forall i :: 0 <= i < |items| ==> items[i] == Content(payloads[i])
  {
    if payloads == [] then [] else [Content(payloads[0])] + Contents(payloads[1..])
  }

  /** A producer that hands over its first payload, then one payload per
      generated token, then the termination item: the consumer yields once
      per generated token, the `k`-th time the decoding of the first ids of
      the first `k` generated payloads, ends, and leaves the queue empty. */
  lemma WellFormedRun(first: Payload, payloads: seq<Payload>, decode: seq<int> -> string)
    ensures var o := Consumed([Content(first)] + Contents(payloads) + [Termination], decode);
            && o.ended && o.rest == [] && |o.texts| == |payloads|
            && forall k :: 0 <= k < |payloads| ==>
                 o.texts[k] == decode(seq(k + 1, i requires 0 <= i <= k => payloads[i][0]))
  {
    var items := Contents(payloads);
    var q := [Content(first)] + items + [Termination];
    var body := q[1..];
    assert body == items + [Termination];
    TermIndexOfRun(items);
    assert body[..|items|] == items;
    var ids := TokenIds(items);
    var o := Consumed(q, decode);
    forall k | 0 <= k < |payloads|
      ensures o.texts[k] == decode(seq(k + 1, i requires 0 <= i <= k => payloads[i][0]))
    {
      assert ids[..k + 1] == seq(k + 1, i requires 0 <= i <= k => payloads[i][0]);
    }
  }

  lemma {:induction false} TermIndexOfRun(items: seq<Item>)
    requires AllContent(items)
    ensures TermIndex(items + [Termination]) == |items|
  {
    if items != [] {
      assert (items + [Termination])[1..] == items[1..] + [Termination];
      TermIndexOfRun(items[1..]);
    }
  }

  /** A generation that produced nothing after its first payload: the
      termination comes right after it and nothing is yielded. */
  lemma ZeroTokenRun(first: Item, rest: seq<Item>, decode: seq<int> -> string)
    ensures Consumed([first, Termination] + rest, decode) == Outcome([], true, rest)
  {
    assert ([first, Termination] + rest)[1..] == [Termination] + rest;
  }

  /** A generation that fails after three tokens and whose termination is
      still delivered: three growing decodings, then the end. */
  lemma ThreeTokenRun(first: Item, a: int, b: int, c: int, decode: seq<int> -> string)
    ensures Consumed([first, Content([a]), Content([b]), Content([c]), Termination], decode)
         == Outcome([decode([a]), decode([a, b]), decode([a, b, c])], true, [])
  {
    var q := [first, Content([a]), Content([b]), Content([c]), Termination];
    var body := [Content([a]), Content([b]), Content([c]), Termination];
    assert q[1..] == body;
    assert body[1..] == [Content([b]), Content([c]), Termination];
    assert body[1..][1..] == [Content([c]), Termination];
    assert body[1..][1..][1..] == [Termination];
    assert body[0].Content? && body[1].Content? && body[2].Content? && body[3].Termination?;
    assert TermIndex(body) == 3;
    var ids := TokenIds(body[..3]);
    assert ids == [a, b, c];
    assert ids[..1] == [a] && ids[..2] == [a, b] && ids[..3] == [a, b, c];
    var ys := Snapshots(ids, decode);
    assert ys == [decode([a]), decode([a, b]), decode([a, b, c])];
    assert body[4..] == [];
  }

  /** Without a termination item after the first item the consumer never
      ends: it yields once per content item and then waits on the empty
      queue. This is what happens when the producer stops without calling
      `end`. */
  lemma NoTerminationNeverEnds(q: seq<Item>, decode: seq<int> -> string)
    requires q != [] && AllContent(q[1..])
    ensures var o := Consumed(q, decode);
            !o.ended && o.rest == [] && |o.texts| == |q| - 1
  {
    NoTerminationIndex(q[1..]);
  }

  lemma {:induction false} NoTerminationIndex(items: seq<Item>)
    requires AllContent(items)
    ensures TermIndex(items) == |items|
  {
    if items != [] {
      NoTerminationIndex(items[1..]);
    }
  }

  /** A termination item in first position is discarded like any first item:
      the consumer then keeps waiting for another termination. */
  lemma FirstTerminationIsSkipped(items: seq<Item>, decode: seq<int> -> string)
    requires AllContent(items)
    ensures !Consumed([Termination] + items, decode).ended
  {
    assert ([Termination] + items)[1..] == items;
    NoTerminationIndex(items);
  }
}
