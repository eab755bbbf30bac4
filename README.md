# Llama-2 chat streaming bridge

This project models the core of a small chat front end for a Llama-2 chat model.
The core has two parts:

- `format_prompt` serialises a system prompt, the earlier turns of a conversation and the new user message into one string. It follows the Llama-2 chat template (`[INST]`, `<<SYS>>`, `[/INST]`, ` </s><s> `). Every user and assistant text is stripped of surrounding whitespace first.
- The streaming bridge hands tokens from the generating thread to the consumer. In the source, `StreamHandler` wraps each streamer call into a tagged item on a `queue.Queue`. The loop in `stream_response` throws away the first item, reads content items until a termination item and, after each one, yields the decoding of every token id accumulated so far.

The model has four modules:

- `Text` (`text.dfy`) is Python's argument-less `str.strip()` over the characters `str.isspace` accepts.
- `Prompt` (`prompt.dfy`) contains the template.
  - The functions `Header`, `TurnSegment`, `MessageSegment`, `Opening` and `FormatPrompt` define the template.
  - `BuildPrompt` is the imperative `format_prompt` loop, proved against `FormatPrompt`.
  - The lemmas state what the prompt is made of.
- `StreamItems` (`stream.dfy`) contains the queued items and `Consumed`. `Consumed` is the closed-form specification of the consumer loop on a given queue: the texts it yields, whether it meets a termination, and what it leaves queued.
- `Bridge` (`bridge.dfy`) contains the stateful side.
  - The class `Channel` stands for the queue.
  - The class `StreamHandler` has the same `put`/`end` methods as the source.
  - The producer is `Generate`.
  - The consumer loop is `Consume`, proved against `Consumed`.
  - `StreamResponse` composes them.

The generating thread is modelled as finishing before the consumer starts. A blocking `get` on an empty queue would wait forever. The model reports that case as `ended == false`, and `Channel.Get` returns `None` without removing anything.

The source's `generate_process` does not call `end()` in a `finally` block. The termination item is therefore only queued if the generation library calls `end()` itself. So the model takes the producer's output as an arbitrary sequence of items, not one that always ends with a termination. `NoTerminationNeverEnds` and `FirstTerminationIsSkipped` state what happens when that item is missing or arrives first.

## Model

| member | source | states |
|---|---|---|
| Text.IsSpace | app.py:28-33 | the characters `strip()` removes are exactly Python's whitespace: tab through carriage return, the four information separators, space, U+0085, U+00A0, U+1680, U+2000 through U+200A, U+2028, U+2029, U+202F, U+205F and U+3000 |
| Text.SkipLeading | app.py:28-33 | returns the first index at or after `i` that does not hold whitespace (or the end); everything skipped is whitespace |
| Text.SkipTrailing | app.py:28-33 | returns the smallest `k` not left of `lo` such that `s[k..j]` is all whitespace |
| Text.Strip | app.py:28-29 | `strip()` leaves no whitespace at either end and never lengthens the text |
| Text.StripSplits | app.py:28-29 | any text is its strip with a whitespace-only run on each side |
| Text.StripPadded | app.py:28-29 | stripping a trimmed text padded with whitespace on both sides gives back exactly that text |
| Text.StripIdempotent | app.py:33 | stripping twice is the same as stripping once |
| Text.StripIgnoresPadding | app.py:33 | extra whitespace at either end does not change the strip |
| Text.StripTrimmed | app.py:33 | a text with no whitespace at either end is its own strip |
| Prompt.Header | app.py:22-25 | the header is 27 characters of markers around the system prompt, which sits verbatim at offset 15 |
| Prompt.TurnSegment | app.py:28-31 | a turn's segment is its stripped user text, ` [/INST] `, its stripped answer and ` </s><s> [INST] `, each at its offset |
| Prompt.MessageSegment | app.py:33-34 | the message segment is the stripped message followed by ` [/INST] `, nothing else |
| Prompt.Opening | app.py:25-31 | the prompt built so far, header then one segment per turn, always starts with the header |
| Prompt.FormatPrompt | app.py:21-36 | the prompt begins with `[INST] <<SYS>>\n`, the unstripped system prompt and `\n<</SYS>>\n\n `, and ends with the stripped message followed by ` [/INST] ` |
| Prompt.BuildPrompt | app.py:21-36 | the loop that starts from the header, appends one segment per turn and then the message returns `FormatPrompt` |
| Prompt.OpeningAppend | app.py:27-31 | appending a turn to the history appends exactly that turn's segment to the prompt built so far |
| Prompt.OpeningMonotone | app.py:27-31 | the prompt built from the first `j` turns is a prefix of the prompt built from all of them: later turns rewrite nothing |
| Prompt.OpeningPrefixes | app.py:27-31 | turns are appended in order: the prompt for the first `k` turns, followed by turn `k`'s segment, is a prefix of the prompt for the whole history |
| Prompt.TurnInPlace | app.py:27-31 | every earlier turn appears at its place, as stripped user text, ` [/INST] `, stripped answer, ` </s><s> [INST] ` |
| Prompt.EmptyHistory | app.py:25-34 | with no history the prompt is the header followed by the stripped message and ` [/INST] ` |
| Prompt.AppendTurn | app.py:27-34 | one more turn in the history inserts exactly its segment between the earlier turns and the message |
| Prompt.OpeningUpToStrip | app.py:27-31 | two histories whose texts strip to the same values give the same prompt prefix |
| Prompt.PromptUpToStrip | app.py:27-34 | the prompt depends on the history and message only through their stripped texts |
| Prompt.PaddedMessage | app.py:33 | surrounding the new message with whitespace does not change the prompt |
| Prompt.PaddedTurn | app.py:28-29 | surrounding the user or assistant text of any turn with whitespace does not change the prompt |
| Prompt.StripTurns | app.py:28-29 | each turn's two texts stripped, in the same order |
| Prompt.PromptOfStrippedInputs | app.py:27-34 | pre-stripping every input leaves the prompt unchanged |
| Prompt.OpeningLength | app.py:25 | the system prompt adds exactly its own length to the prompt |
| Prompt.SystemPromptVerbatim | app.py:25 | the system prompt appears unmodified (not stripped) at offset 15 |
| Prompt.SystemPromptInjective | app.py:25 | different system prompts give different prompts for the same conversation |
| Prompt.TwoTurnExample | app.py:21-36 | the concrete prompt for a two-turn history, piece by piece |
| StreamItems.TermIndex | app.py:80-83 | returns the position of the first termination item, and every item before it is content |
| StreamItems.TokenIds | app.py:85-86 | one id per content item, the first element of its payload, in queue order |
| StreamItems.Snapshots | app.py:86-87 | the `k`-th yield is the decoding of the first `k + 1` accumulated ids |
| StreamItems.Consumed | app.py:75-87 | every item is accounted for: the discarded first item, one yield per content item read, the termination if met, and the rest, which is a suffix of the queue; the item before the rest is the termination when the loop ends, and nothing is left when it does not |
| StreamItems.PrimingIgnored | app.py:75-76 | the first item of the queue, whatever it is, has no effect on the outcome |
| StreamItems.TokenIdsPrefix | app.py:85-86 | the ids of a prefix of the items are the prefix of the ids |
| StreamItems.YieldsAreDecodedPrefixes | app.py:79-87 | one yield per content item before the first termination; the `k`-th decodes the ids of the first `k + 1` of them |
| StreamItems.StopsAtFirstTermination | app.py:82-83 | items queued after the first termination are never read and stay queued |
| StreamItems.YieldsDecodeGrowingIds | app.py:79-87 | for any decoder, the yields are the decodings of the first 1, 2, ... ids of one id sequence, so each yield decodes a prefix of the ids behind every later one |
| StreamItems.YieldsGrow | app.py:86-87 | for a decoder that maps longer id sequences to extensions of the text, every yield is a prefix of every later yield |
| StreamItems.Contents | app.py:15 | the content items carrying the given payloads, in order |
| StreamItems.WellFormedRun | app.py:75-87 | with a priming item, `n` payloads and a termination, there are exactly `n` yields, the run ends and the queue is left empty |
| StreamItems.TermIndexOfRun | app.py:80-83 | the termination after a run of content items is found right after that run |
| StreamItems.ZeroTokenRun | app.py:80-83 | a termination right after the priming item ends the loop with no yield |
| StreamItems.ThreeTokenRun | app.py:79-87 | three tokens yield `decode([a])`, `decode([a, b])`, `decode([a, b, c])` |
| StreamItems.NoTerminationNeverEnds | app.py:80-81 | without a termination the consumer yields once per content item and is left waiting |
| StreamItems.FirstTerminationIsSkipped | app.py:75-76 | a termination that arrives as the first item is thrown away, so the loop does not end |
| Bridge.Channel.constructor | app.py:12 | a new queue is empty |
| Bridge.Channel.Put | app.py:15 | a non-blocking put appends the item at the back |
| Bridge.Channel.Get | app.py:76-81 | a get removes and returns the front item; on an empty queue it returns `None` and removes nothing |
| Bridge.StreamHandler.constructor | app.py:11-12 | a new handler owns a fresh, empty queue |
| Bridge.StreamHandler.Put | app.py:14-15 | `put` appends one content item with the payload and nothing else |
| Bridge.StreamHandler.End | app.py:17-18 | `end` appends one termination item and nothing else |
| Bridge.Generate | app.py:58-65 | the producer's calls arrive on the queue as items, in call order, after what was already there |
| Bridge.Consume | app.py:75-87 | the consumer loop yields `Consumed(q).texts`, ends exactly when `Consumed` says, and leaves `Consumed(q).rest` in the queue |
| Bridge.StreamResponse | app.py:67-87 | `stream_response` yields the texts `Consumed` gives for what the producer emits on the formatted prompt |

## Left out

- Threads, `Thread.start` and `t.join()`: the producer runs to completion before the consumer reads. Interleavings are not modelled. A consumer blocking forever on an empty queue is reported as `ended == false`.
- Model and tokenizer loading, tensors, device placement and `.item()`. A payload is a non-empty sequence of integer ids. Tokenizing the prompt and the library's `generate` are one function parameter: it maps a prompt to the items the library emits. `decode` (with `skip_special_tokens=True`) is an uninterpreted parameter.
- The sampling settings `temperature`, `top_p` and `max_new_tokens` affect only the uninterpreted library.
- `SYSTEM_PROMPT` and its `textwrap.dedent(...).strip()` are not modelled. The system prompt is a parameter and is inserted verbatim.
- The `__main__` block, the Gradio interface and environment variables are not modelled.
- `str(...)` applied to non-string history entries is not modelled: history entries and messages are strings.
- `stream_response` is a lazy Python generator. The model returns its yields as one sequence, in order.
- StreamItems.YieldsGrow: text-level growth is stated only for a prefix-monotone decoder. A real tokenizer's `decode` is not required to be one: decoding is not concatenative at token boundaries, so an earlier yield need not be a prefix of a later one. The unconditional statement is the id-level one in `YieldsDecodeGrowingIds`.
- `Text.Strip` covers the characters `str.isspace` accepts, as listed in `Text.Whitespace`. It models no other Unicode behaviour.
- Bridge.StreamResponse: states the yielded texts and whether the loop ends, not the final state of the discarded handler's queue.
