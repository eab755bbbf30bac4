/** The Llama-2 chat prompt template: a system prompt, the earlier turns of
    the conversation and the new user message, serialised into one string. */
module Prompt {
  import opened Text

  // The markers of the template: "[INST]" and "[/INST]" open and close an
  // instruction, "<<SYS>>\n" and "\n<</SYS>>\n\n" enclose the system prompt,
  // and " </s><s> " separates one turn from the next. The functions below
  // spell out the strings that the source's f-strings build from them.

  /** One earlier exchange of the conversation, oldest first in a history. */
  datatype Turn = Turn(user: string, assistant: string)

  /** The opening instruction marker with the system prompt, inserted as it is. */
  function Header(systemPrompt: string): (h: string)
    ensures |h| == |systemPrompt| + 27
    ensures h[15..15 + |systemPrompt|] == systemPrompt
  {
    "[INST] <<SYS>>\n" + systemPrompt + "\n<</SYS>>\n\n "
  }

  /** What one earlier turn adds: the stripped user text, the end-of-instruction
      marker, the stripped answer and the separator that opens the next turn. */
  function TurnSegment(t: Turn): (r: string)
    ensures var u, a := Strip(t.user), Strip(t.assistant);
            && |r| == |u| + |a| + 25
            && r[..|u|] == u
            && r[|u|..|u| + 9] == " [/INST] "
            && r[|u| + 9..|r| - 16] == a
            && r[|r| - 16..] == " </s><s> [INST] "
  {
    Strip(t.user) + " [/INST] " + Strip(t.assistant) + " </s><s> [INST] "
  }

  /** The new message closed by an end-of-instruction marker and no answer. */
  function MessageSegment(message: string): (r: string)
    ensures var m := Strip(message);
            |r| == |m| + 9 && r[..|m|] == m && r[|m|..] == " [/INST] "
  {
    Strip(message) + " [/INST] "
  }

  /** The prompt as it stands once every turn of `history` has been added:
      the header, then one segment per turn, oldest first. */
  function Opening(history: seq<Turn>, systemPrompt: string): (r: string)
    ensures Header(systemPrompt) <= r
  {
    if history == [] then Header(systemPrompt)
    else Opening(history[..|history| - 1], systemPrompt) + TurnSegment(history[|history| - 1])
  }

  /** The prompt `format_prompt` returns: it begins with the header, system
      prompt included and not stripped, and ends with the stripped message and
      an open instruction. */
  function FormatPrompt(history: seq<Turn>, message: string, systemPrompt: string): (p: string)
    ensures "[INST] <<SYS>>\n" + systemPrompt + "\n<</SYS>>\n\n " <= p
    ensures var tail := Strip(message) + " [/INST] ";
            |tail| <= |p| && p[|p| - |tail|..] == tail
  {
    Opening(history, systemPrompt) + MessageSegment(message)
  }

  /** `format_prompt` as written: start from the header and extend the prompt
      turn by turn, then close it with the new message. */
  method BuildPrompt(history: seq<Turn>, message: string, systemPrompt: string) returns (prompt: string)
    ensures prompt == FormatPrompt(history, message, systemPrompt)
  {
    prompt := "[INST] <<SYS>>\n" + systemPrompt + "\n<</SYS>>\n\n ";
    for i := 0 to |history|
      invariant prompt == Opening(history[..i], systemPrompt)
    {
      var userMsg := Strip(history[i].user);
      var asstMsg := Strip(history[i].assistant);
      prompt := prompt + (userMsg + " [/INST] " + asstMsg + " </s><s> [INST] ");
      assert history[..i + 1][..i] == history[..i];
    }
    assert history[..|history|] == history;
    var finalMsg := Strip(message);
    prompt := prompt + (finalMsg + " [/INST] ");
  }

  /** Adding a turn at the end of the history appends its segment to the
      opening and changes nothing before it. */
  lemma OpeningAppend(history: seq<Turn>, t: Turn, systemPrompt: string)
    ensures Opening(history + [t], systemPrompt) == Opening(history, systemPrompt) + TurnSegment(t)
  {
    assert (history + [t])[..|history|] == history;
  }

  /** The opening of a prefix of the history is a prefix of the opening:
      adding later turns rewrites nothing. */
  lemma {:induction false} OpeningMonotone(history: seq<Turn>, j: nat, systemPrompt: string)
    requires j <= |history|
    ensures Opening(history[..j], systemPrompt) <= Opening(history, systemPrompt)
    decreases |history|
  {
    if j < |history| {
      var n := |history| - 1;
      var front := history[..n];
      assert front[..j] == history[..j];
      OpeningMonotone(front, j, systemPrompt);
      PrefixExtend(Opening(history[..j], systemPrompt), Opening(front, systemPrompt), TurnSegment(history[n]));
    } else {
      assert history[..j] == history;
    }
  }

  lemma PrefixExtend(a: string, b: string, c: string)
    requires a <= b
    ensures a <= b + c
  {
    assert (b + c)[..|a|] == b[..|a|];
  }

  /** The segment of turn `k`, placed right after those of the turns before
      it, is a prefix of the opening: the segments come in history order. */
  lemma OpeningPrefixes(history: seq<Turn>, k: nat, systemPrompt: string)
    requires k < |history|
    ensures Opening(history[..k], systemPrompt) + TurnSegment(history[k]) <= Opening(history, systemPrompt)
  {
    assert history[..k + 1][..k] == history[..k];
    OpeningMonotone(history, k + 1, systemPrompt);
  }

  /** Turn `k` contributes its segment right after the segments of the turns
      before it, and that text is the start of the prompt. */
  lemma TurnInPlace(history: seq<Turn>, k: nat, message: string, systemPrompt: string)
    requires k < |history|
    ensures Opening(history[..k], systemPrompt)
            + (Strip(history[k].user) + " [/INST] " + Strip(history[k].assistant) + " </s><s> [INST] ")
         <= FormatPrompt(history, message, systemPrompt)
  {
    OpeningPrefixes(history, k, systemPrompt);
  }

  /** With no earlier turns the prompt is the header, the stripped message and
      the end-of-instruction marker, and nothing else. */
  lemma EmptyHistory(message: string, systemPrompt: string)
    ensures FormatPrompt([], message, systemPrompt)
         == Header(systemPrompt) + (Strip(message) + " [/INST] ")
  {
  }

  /** Adding a turn at the end of the history inserts its segment just before
      the message segment and changes nothing else. */
  lemma AppendTurn(history: seq<Turn>, t: Turn, message: string, systemPrompt: string)
    ensures FormatPrompt(history + [t], message, systemPrompt)
         == Opening(history, systemPrompt) + TurnSegment(t) + MessageSegment(message)
  {
    OpeningAppend(history, t, systemPrompt);
  }

  /** Two turns are alike when they strip to the same texts. */
  predicate SameStripped(t: Turn, u: Turn) {
    Strip(t.user) == Strip(u.user) && Strip(t.assistant) == Strip(u.assistant)
  }

  lemma {:induction false} OpeningUpToStrip(h: seq<Turn>, g: seq<Turn>, systemPrompt: string)
    requires |h| == |g|
    requires forall i :: 0 <= i < |h| ==> SameStripped(h[i], g[i])
    ensures Opening(h, systemPrompt) == Opening(g, systemPrompt)
    decreases |h|
  {
    if h != [] {
      var n := |h| - 1;
      assert SameStripped(h[n], g[n]);
      OpeningUpToStrip(h[..n], g[..n], systemPrompt);
    }
  }

  /** Only the stripped texts of the turns and the message matter: inputs
      that differ in surrounding whitespace give the same prompt. */
  lemma PromptUpToStrip(h: seq<Turn>, g: seq<Turn>, m: string, n: string, systemPrompt: string)
    requires |h| == |g|
    requires forall i :: 0 <= i < |h| ==> SameStripped(h[i], g[i])
    requires Strip(m) == Strip(n)
    ensures FormatPrompt(h, m, systemPrompt) == FormatPrompt(g, n, systemPrompt)
  {
    OpeningUpToStrip(h, g, systemPrompt);
  }

  /** Whitespace padding the new message does not change the prompt. */
  lemma PaddedMessage(history: seq<Turn>, a: string, message: string, b: string, systemPrompt: string)
    requires AllSpace(a) && AllSpace(b)
    ensures FormatPrompt(history, a + message + b, systemPrompt) == FormatPrompt(history, message, systemPrompt)
  {
    StripIgnoresPadding(a, message, b);
  }

  /** Whitespace padding either text of a turn does not change the prompt. */
  lemma PaddedTurn(h: seq<Turn>, k: nat, a: string, b: string, c: string, d: string,
                   message: string, systemPrompt: string)
    requires k < |h|
    requires AllSpace(a) && AllSpace(b) && AllSpace(c) && AllSpace(d)
    ensures FormatPrompt(h[k := Turn(a + h[k].user + b, c + h[k].assistant + d)], message, systemPrompt)
         == FormatPrompt(h, message, systemPrompt)
  {
    var g := h[k := Turn(a + h[k].user + b, c + h[k].assistant + d)];
    StripIgnoresPadding(a, h[k].user, b);
    StripIgnoresPadding(c, h[k].assistant, d);
    assert SameStripped(g[k], h[k]);
    PromptUpToStrip(g, h, message, message, systemPrompt);
  }

  /** The history with both texts of every turn stripped. */
  function StripTurns(history: seq<Turn>): (r: seq<Turn>)
    ensures |r| == |history|
    ensures forall i :: 0 <= i < |r| ==> r[i] == Turn(Strip(history[i].user), Strip(history[i].assistant))
  {
    if history == [] then []
    else [Turn(Strip(history[0].user), Strip(history[0].assistant))] + StripTurns(history[1..])
  }

  /** Stripping the inputs beforehand is a no-op: the prompt strips them
      anyway. */
  lemma PromptOfStrippedInputs(history: seq<Turn>, message: string, systemPrompt: string)
    ensures FormatPrompt(StripTurns(history), Strip(message), systemPrompt)
         == FormatPrompt(history, message, systemPrompt)
  {
    var g := StripTurns(history);
    forall i | 0 <= i < |history|
      ensures SameStripped(g[i], history[i])
    {
      StripIdempotent(history[i].user);
      StripIdempotent(history[i].assistant);
    }
    StripIdempotent(message);
    PromptUpToStrip(g, history, Strip(message), message, systemPrompt);
  }

  /** The opening's length grows with the system prompt's, one for one. */
  lemma {:induction false} OpeningLength(history: seq<Turn>, systemPrompt: string)
    ensures |Opening(history, systemPrompt)| == |Opening(history, "")| + |systemPrompt|
    decreases |history|
  {
    if history != [] {
      OpeningLength(history[..|history| - 1], systemPrompt);
    }
  }

  /** The system prompt is not stripped: it can be read back, character for
      character, right after the opening markers. */
  lemma SystemPromptVerbatim(history: seq<Turn>, message: string, systemPrompt: string)
    ensures var p := FormatPrompt(history, message, systemPrompt);
            15 + |systemPrompt| <= |p| && p[15..15 + |systemPrompt|] == systemPrompt
  {
    var p := FormatPrompt(history, message, systemPrompt);
    var h := Header(systemPrompt);
    assert p[..|h|] == h;
  }

  /** Different system prompts give different prompts for the same
      conversation, even when they differ only in whitespace. */
  lemma SystemPromptInjective(history: seq<Turn>, message: string, s1: string, s2: string)
    requires FormatPrompt(history, message, s1) == FormatPrompt(history, message, s2)
    ensures s1 == s2
  {
    SystemPromptVerbatim(history, message, s1);
    SystemPromptVerbatim(history, message, s2);
    OpeningLength(history, s1);
    OpeningLength(history, s2);
  }

  /** A two-turn conversation, written out in full. */
  lemma TwoTurnExample()
    ensures FormatPrompt([Turn("Hi", "Hello!"), Turn("How are you?", "Good.")], "Bye", "Be nice.")
         == ("[INST] <<SYS>>\n" + "Be nice." + "\n<</SYS>>\n\n ")
            + ("Hi" + " [/INST] " + "Hello!" + " </s><s> [INST] ")
            + ("How are you?" + " [/INST] " + "Good." + " </s><s> [INST] ")
            + ("Bye" + " [/INST] ")
  {
    var h := [Turn("Hi", "Hello!"), Turn("How are you?", "Good.")];
    assert !IsSpace('H') && !IsSpace('i') && !IsSpace('!') && !IsSpace('?');
    assert !IsSpace('G') && !IsSpace('.') && !IsSpace('B') && !IsSpace('e');
    StripTrimmed("Hi");
    StripTrimmed("Hello!");
    StripTrimmed("How are you?");
    StripTrimmed("Good.");
    StripTrimmed("Bye");
    assert h[..1][..0] == [];
    assert h[..1] == [h[0]];
    assert Opening(h[..1], "Be nice.") == Header("Be nice.") + TurnSegment(h[0]);
    assert Opening(h, "Be nice.") == Opening(h[..1], "Be nice.") + TurnSegment(h[1]);
  }
}
