/**
 * The bounded conversation history of the Python backend (backend/python/llm_model.py):
 * class `ChatHistory` and the way `get_llm_response` appends to it, renders it into
 * the prompt and fills in the reply.
 *
 * The text-generation pipeline is the parameter `pipe`: it maps the full prompt to the
 * generated text, or to the text of the exception it raised.
 */
module LlmModel {
  import opened Wrappers
  import opened TextUtil

  /** One entry of the history: (user message, assistant response). */
  type Pair = (string, string)

  /** Python's `xs[k:]` for any integer `k`; a negative `k` counts from the end. */
  function PySliceFrom<T>(xs: seq<T>, k: int): (r: seq<T>)
    ensures k >= 0 ==> r == xs[if k <= |xs| then k else |xs|..]
    ensures k < 0 ==> r == xs[if |xs| + k >= 0 then |xs| + k else 0..]
  {
    var start := if k < 0 then (if |xs| + k < 0 then 0 else |xs| + k) else (if k > |xs| then |xs| else k);
    xs[start..]
  }

  /** The list `add_message` leaves: the new pair appended, then `messages[-window_size:]`
      taken when the list is longer than the window. */
  function Appended(messages: seq<Pair>, pair: Pair, windowSize: int): seq<Pair>
  {
    var grown := messages + [pair];
    if |grown| > windowSize then PySliceFrom(grown, -windowSize) else grown
  }

  /** The list `update_last_response` leaves. */
  function WithLastResponse(messages: seq<Pair>, ai: string): seq<Pair>
  {
    if messages == [] then messages
    else messages[..|messages| - 1] + [(messages[|messages| - 1].0, ai)]
  }

  /** Python's `xs[:-1]`. */
  function AllButLast<T>(xs: seq<T>): seq<T>
  {
    if xs == [] then [] else xs[..|xs| - 1]
  }

  /** An exchange whose assistant part is filled in (truthy). */
  predicate IsComplete(p: Pair) { p.1 != "" }

  /** The complete exchanges of `ps`, in order. */
  function Completed(ps: seq<Pair>): (r: seq<Pair>)
    ensures |r| <= |ps|
    ensures forall k :: 0 <= k < |r| ==> IsComplete(r[k]) && r[k] in ps
    ensures forall k :: 0 <= k < |ps| && IsComplete(ps[k]) ==> ps[k] in r
  {
    if ps == [] then []
    else
      var init, last := ps[..|ps| - 1], ps[|ps| - 1];
      assert ps == init + [last];
      Completed(init) + (if IsComplete(last) then [last] else [])
  }

  /** Collecting from the back gives the same list as filtering from the front: exactly
      the complete exchanges, in their order and with their repetitions. */
  lemma {:induction false} CompletedIsFilter(ps: seq<Pair>)
    ensures Completed(ps) == Filter(IsComplete, ps)
  {
    if ps != [] {
      var init, last := ps[..|ps| - 1], ps[|ps| - 1];
      assert ps == init + [last];
      CompletedIsFilter(init);
      FilterConcat(IsComplete, init, [last]);
      assert [last][1..] == [];
    }
  }

  /** One exchange in the chat markup of the prompt. */
  function Turn(p: Pair): string
  {
    "<|im_start|>user\n" + p.0 + "<|im_end|>\n" + "<|im_start|>assistant\n" + p.1 + "<|im_end|>\n"
  }

  function RenderTurns(ps: seq<Pair>): string
  {
    if ps == [] then "" else RenderTurns(ps[..|ps| - 1]) + Turn(ps[|ps| - 1])
  }

  /** What `get_chat_history_text` should give: every complete exchange before the last
      entry, rendered in order. */
  function HistoryText(messages: seq<Pair>): string
  {
    RenderTurns(Completed(AllButLast(messages)))
  }

  const SystemPrompt := "You are a helpful, friendly AI assistant. Provide clear, concise, and accurate responses to user questions."

  /** The full prompt `get_llm_response` sends to the pipeline. */
  function FullPrompt(historyText: string, message: string): string
  {
    "<|im_start|>system\n" + SystemPrompt + "<|im_end|>\n" + historyText
    + "<|im_start|>user\n" + message + "<|im_end|>\n<|im_start|>assistant\n"
  }

  /** The string `get_llm_response` returns for one pipeline outcome. */
  function LlmReply(generated: Result<string>): string
  {
    match generated
    case Ok(text) => PyStrip(text)
    case Raised(e) => "I'm sorry, I encountered an error: " + e
  }

  // ---------------------------------------------------------------- properties

  function Min(a: int, b: int): int { if a <= b then a else b }

  /** For a window of at least one, `add_message` keeps the newest min(n + 1, window)
      entries in order and the new pair last; a window of 0 keeps everything, and a
      negative window drops entries from the front. */
  lemma AppendedWindow(m: seq<Pair>, p: Pair, ws: int)
    ensures var r := Appended(m, p, ws);
      && (ws >= 1 ==> |r| == Min(|m| + 1, ws) && r == (m + [p])[|m| + 1 - |r|..])
      && (ws >= 0 ==> r != [] && r[|r| - 1] == p)
      && (ws == 0 ==> r == m + [p])
      && (ws < 0 ==> r == (m + [p])[Min(-ws, |m| + 1)..])
  {
  }

  /** `update_last_response` changes only the assistant part of the last entry, and
      nothing on an empty history. */
  lemma WithLastResponseOnlyLast(m: seq<Pair>, ai: string)
    ensures var r := WithLastResponse(m, ai);
      && |r| == |m|
      && (m != [] ==> r[|r| - 1] == (m[|m| - 1].0, ai))
      && forall k :: 0 <= k < |m| - 1 ==> r[k] == m[k]
  {
  }

  lemma {:induction false} RenderTurnsConcat(a: seq<Pair>, b: seq<Pair>)
    ensures RenderTurns(a + b) == RenderTurns(a) + RenderTurns(b)
    decreases |b|
  {
    if b == [] {
      assert a + b == a;
    } else {
      var init, last := b[..|b| - 1], b[|b| - 1];
      var ab := a + b;
      assert ab[..|ab| - 1] == a + init && ab[|ab| - 1] == last;
      assert RenderTurns(ab) == RenderTurns(a + init) + Turn(last);
      RenderTurnsConcat(a, init);
      assert RenderTurns(b) == RenderTurns(init) + Turn(last);
    }
  }

  lemma {:induction false} CompletedConcat(a: seq<Pair>, b: seq<Pair>)
    ensures Completed(a + b) == Completed(a) + Completed(b)
    decreases |b|
  {
    if b == [] {
      assert a + b == a;
    } else {
      var init := b[..|b| - 1];
      assert (a + b)[..|a + b| - 1] == a + init;
      CompletedConcat(a, init);
    }
  }

  /** The rendered history leaves out the last entry and every incomplete exchange. */
  lemma HistoryTextSkips(m: seq<Pair>, last: Pair, user: string)
    ensures HistoryText(m + [last]) == RenderTurns(Completed(m))
    ensures HistoryText(m + [(user, "")] + [last]) == HistoryText(m + [last])
  {
    var withRaw := m + [(user, "")];
    assert AllButLast(m + [last]) == m;
    assert AllButLast(withRaw + [last]) == withRaw;
    assert withRaw[..|withRaw| - 1] == m;
    assert Completed(withRaw) == Completed(m);
  }

  /** Rendering one more entry of a prefix appends its turn exactly when it is complete. */
  lemma RenderStep(xs: seq<Pair>, i: nat)
    requires i < |xs|
    ensures RenderTurns(Completed(xs[..i + 1]))
         == RenderTurns(Completed(xs[..i])) + (if IsComplete(xs[i]) then Turn(xs[i]) else "")
  {
    var done := Completed(xs[..i]);
    assert xs[..i + 1][..i] == xs[..i];
    assert Completed(xs[..i + 1]) == done + (if IsComplete(xs[i]) then [xs[i]] else []);
    if IsComplete(xs[i]) {
      assert (done + [xs[i]])[..|done|] == done;
      assert RenderTurns(done + [xs[i]]) == RenderTurns(done) + Turn(xs[i]);
    } else {
      assert done + [] == done;
      assert RenderTurns(done) + "" == RenderTurns(done);
    }
  }

  /** Two histories that differ only in incomplete entries. */
  ghost predicate SameCompleted(a: seq<Pair>, b: seq<Pair>)
  {
    |a| == |b| && forall k :: 0 <= k < |a| ==> a[k] == b[k] || (!IsComplete(a[k]) && !IsComplete(b[k]))
  }

  lemma {:induction false} SameCompletedRender(a: seq<Pair>, b: seq<Pair>)
    requires SameCompleted(a, b)
    ensures Completed(a) == Completed(b)
    decreases |a|
  {
    if a != [] {
      SameCompletedRender(a[..|a| - 1], b[..|b| - 1]);
    }
  }

  lemma SameCompletedAppended(a: seq<Pair>, b: seq<Pair>, p: Pair, ws: int)
    requires SameCompleted(a, b)
    ensures SameCompleted(Appended(a, p, ws), Appended(b, p, ws))
  {
    var ga, gb := a + [p], b + [p];
    assert SameCompleted(ga, gb);
  }

  // ---------------------------------------------------------------- the class

  /** A sliding window of (user, assistant) pairs. */
  class ChatHistory {
    var messages: seq<Pair>
    var windowSize: int

    /** With a window of at least one entry the list never outgrows it. */
    ghost predicate Valid()
      reads this
    {
      windowSize >= 1 ==> |messages| <= windowSize
    }

    constructor (windowSize: int := 5)
      ensures Valid() && messages == [] && this.windowSize == windowSize
    {
      messages := [];
      this.windowSize := windowSize;
    }

    /** add_message (llm_model.py:65-70). */
    method AddMessage(userMessage: string, aiResponse: string := "")
      requires Valid()
      modifies this
      ensures Valid() && windowSize == old(windowSize)
      ensures messages == Appended(old(messages), (userMessage, aiResponse), windowSize)
    {
      messages := messages + [(userMessage, aiResponse)];
      if |messages| > windowSize {
        messages := PySliceFrom(messages, -windowSize);
      }
    }

    /** update_last_response (llm_model.py:72-76). */
    method UpdateLastResponse(aiResponse: string)
      requires Valid()
      modifies this
      ensures Valid() && windowSize == old(windowSize)
      ensures messages == WithLastResponse(old(messages), aiResponse)
    {
      if messages != [] {
        var userMsg := messages[|messages| - 1].0;
        messages := messages[|messages| - 1 := (userMsg, aiResponse)];
      }
    }

    /** get_chat_history_text (llm_model.py:78-85): one pass over all entries but the last. */
    method GetChatHistoryText() returns (historyText: string)
      ensures historyText == HistoryText(messages)
    {
      historyText := "";
      var prior := AllButLast(messages);
      for i := 0 to |prior|
        invariant historyText == RenderTurns(Completed(prior[..i]))
      {
        var (userMsg, aiMsg) := prior[i];
        RenderStep(prior, i);
        if aiMsg != "" {
          historyText := historyText + Turn((userMsg, aiMsg));
        }
      }
      assert prior[..|prior|] == prior;
    }
  }

  /** get_llm_response (llm_model.py:88-123): append the message, render the earlier
      exchanges into the prompt, run the pipeline, and store the reply (or the error text)
      as the response of the new entry. */
  method GetLlmResponse(message: string, chatHistory: ChatHistory, pipe: string -> Result<string>)
    returns (response: string)
    requires chatHistory.Valid()
    modifies chatHistory
    ensures chatHistory.Valid() && chatHistory.windowSize == old(chatHistory.windowSize)
    ensures var added := Appended(old(chatHistory.messages), (message, ""), chatHistory.windowSize);
      && response == LlmReply(pipe(FullPrompt(HistoryText(added), message)))
      && chatHistory.messages == WithLastResponse(added, response)
  {
    chatHistory.AddMessage(message);
    var historyText := chatHistory.GetChatHistoryText();
    var fullPrompt := FullPrompt(historyText, message);
    var generated := pipe(fullPrompt);
    if generated.Ok? {
      response := PyStrip(generated.value);
    } else {
      response := "I'm sorry, I encountered an error: " + generated.message;
    }
    chatHistory.UpdateLastResponse(response);
  }

  /** Whatever the pipeline does, a non-negative window leaves the new entry last,
      holding the message and the returned string. */
  lemma ReplyIsRecorded(m: seq<Pair>, message: string, ws: int, response: string)
    requires ws >= 0
    ensures var h := WithLastResponse(Appended(m, (message, ""), ws), response);
      h != [] && h[|h| - 1] == (message, response)
  {
    AppendedWindow(m, (message, ""), ws);
  }
}
