/** The streaming bridge of `build_generator`: the `StreamHandler` the
    generation library writes into, the loop of `stream_response` that reads
    from it, and the two put together, run one after the other. */
module Bridge {
  import opened StreamItems
  import Prompt

  datatype Option<T> = None | Some(value: T)

  /** Python's unbounded `queue.Queue` of items. There is no other thread in
      this model, so a blocking `get` on an empty queue would wait forever;
      `Get` reports that as `None` and removes nothing. */
  class Channel {
    var items: seq<Item>

    constructor ()
      ensures items == []
    {
      items := [];
    }

    /** `put(item, block=False)`: never blocks, appends at the back. */
    method Put(item: Item)
      modifies this
      ensures items == old(items) + [item]
    {
      items := items + [item];
    }

    /** `get(block=True)`: takes the item at the front. */
    method Get() returns (r: Option<Item>)
      modifies this
      ensures old(items) == [] ==> r == None && items == []
      ensures old(items) != [] ==> r == Some(old(items)[0]) && items == old(items)[1..]
    {
      if items == [] {
        r := None;
      } else {
        r := Some(items[0]);
        items := items[1..];
      }
    }
  }

  /** The streamer handed to the generation library: it wraps every call it
      receives into a tagged item on its queue. */
  class StreamHandler {
    const queue: Channel

    constructor ()
      ensures fresh(queue) && queue.items == []
    {
      queue := new Channel();
    }

    /** `put(item)`: one content item at the back, nothing else changes. */
    method Put(payload: Payload)
      modifies queue
      ensures queue.items == old(queue.items) + [Content(payload)]
    {
      queue.Put(Content(payload));
    }

    /** `end()`: one termination item at the back, nothing else changes. */
    method End()
      modifies queue
      ensures queue.items == old(queue.items) + [Termination]
    {
      queue.Put(Termination);
    }
  }

  /** The generation thread, `generate_process`, run to its end. The library's
      `generate` is known here only by the calls it makes on the streamer,
      given as `emitted`: a content item for each `put`, a termination item
      for each `end`, in call order. */
  method Generate(handler: StreamHandler, emitted: seq<Item>)
    modifies handler.queue
    ensures handler.queue.items == old(handler.queue.items) + emitted
  {
    for i := 0 to |emitted|
      invariant handler.queue.items == old(handler.queue.items) + emitted[..i]
    {
      match emitted[i] {
        case Content(payload) => handler.Put(payload);
        case Termination => handler.End();
      }
      assert emitted[..i + 1] == emitted[..i] + [emitted[i]];
    }
    assert emitted[..|emitted|] == emitted;
  }

  /** The consumer loop of `stream_response`: drop the first item, then read
      items until the first termination, append the first id of every content
      item to the accumulated ids and yield the decoding of all of them. The
      yields are returned in order; `ended` is false when the loop is left
      waiting on an empty queue. */
  method Consume(handler: StreamHandler, decode: seq<int> -> string) returns (texts: seq<string>, ended: bool)
    modifies handler.queue
    ensures var o := Consumed(old(handler.queue.items), decode);
            texts == o.texts && ended == o.ended && handler.queue.items == o.rest
  {
    ghost var q := handler.queue.items;
    texts, ended := [], false;
    var first := handler.queue.Get();
    if first.None? {
      return;
    }
    ghost var body := q[1..];
    ghost var n := TermIndex(body);
    var tokenIds: seq<int> := [];
    ghost var i := 0;
    while true
      invariant 0 <= i <= n
      invariant handler.queue.items == body[i..]
      invariant tokenIds == TokenIds(body[..i])
      invariant texts == Snapshots(tokenIds, decode)
      decreases |handler.queue.items|
    {
      var item := handler.queue.Get();
      if item.None? {
        assert i == n == |body|;
        assert body[..n] == body[..i];
        return;
      }
      if item.value.Termination? {
        assert i == n;
        ended := true;
        return;
      }
      tokenIds := tokenIds + [item.value.payload[0]];
      texts := texts + [decode(tokenIds)];
      assert body[..i + 1][..i] == body[..i];
      i := i + 1;
    }
  }

  /** `stream_response(message, history)` with the generation thread run to
      completion before the consumer starts. The tokenizer's encoding and the
      library's `generate` are one parameter, the calls `generate` makes on
      the streamer for a given prompt; `decode` is the tokenizer's decoding. */
  method StreamResponse(history: seq<Prompt.Turn>, message: string, systemPrompt: string,
                        generate: string -> seq<Item>, decode: seq<int> -> string)
    returns (texts: seq<string>, ended: bool)
    ensures var o := Consumed(generate(Prompt.FormatPrompt(history, message, systemPrompt)), decode);
            texts == o.texts && ended == o.ended
  {
    var prompt := Prompt.BuildPrompt(history, message, systemPrompt);
    var handler := new StreamHandler();
    Generate(handler, generate(prompt));
    assert handler.queue.items == generate(prompt);
    texts, ended := Consume(handler, decode);
  }
}
