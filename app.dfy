/**
 * The two endpoints of the Python backend (backend/python/app.py) that use the chat
 * history: /llm-chat, which shares one process-wide history across requests, and /ocr,
 * which normalises the form fields, falls back to a fixed sentence when no text was
 * read, and asks the model through a history of its own.
 *
 * The prompt templates of prompt.py are parameters (`medicalPrompt`, `nutritionPrompt`);
 * saving the upload, image enhancement and Tesseract are summarised by an `Extraction`.
 */
module App {
  import opened Wrappers
  import opened TextUtil
  import opened LlmModel
  import Ocr

  const NotProvided := "Not provided"
  const NoTextDetected := "No text could be detected in the provided image."

  /** The age and gender rule of /ocr: a missing field or the text "undefined" (what the
      browser sends for an unset variable) becomes "Not provided". */
  function NormalizeField(value: Option<string>): (r: string)
    ensures (value.None? || value.value == "undefined") ==> r == NotProvided
    ensures (value.Some? && value.value != "undefined") ==> r == value.value
  {
    if value.None? || value.value == "undefined" then NotProvided else value.value
  }

  /** Text that strips to nothing is replaced by the fallback sentence. */
  function OcrFallback(text: string): (r: string)
    ensures PyStrip(text) == "" ==> r == NoTextDetected
    ensures PyStrip(text) != "" ==> r == text
  {
    if PyStrip(text) == "" then NoTextDetected else text
  }

  /** What an endpoint sends back: the model's string as the body, or a JSON error. */
  datatype Reply = Text(text: string) | Failure(status: nat, success: Option<bool>, message: string)

  /** The outcome of saving the upload and reading it: an exception (saving the file or
      opening the image), Tesseract failing (ocr.py then returns ""), or the raw text. */
  datatype Extraction = Failed(error: string) | Unreadable | Recognized(raw: string)

  /** The text `extract_text_from_enhanced_image` returns for an outcome that is not an
      exception. */
  function ExtractedText(x: Extraction): string
    requires !x.Failed?
  {
    if x.Unreadable? then "" else Ocr.CleanText(x.raw)
  }

  // ---------------------------------------------------------------- properties

  /** The field rule never yields "undefined", and applying it to its own result changes
      nothing. */
  lemma NormalizeFieldIdempotent(value: Option<string>)
    ensures NormalizeField(value) != "undefined"
    ensures NormalizeField(Some(NormalizeField(value))) == NormalizeField(value)
  {
  }

  /** The text handed to the prompt is never blank: it holds a character that is not
      whitespace. */
  lemma OcrFallbackNeverBlank(text: string)
    ensures var r := OcrFallback(text);
      exists k :: 0 <= k < |r| && !PyIsSpace(r[k])
  {
    var r := OcrFallback(text);
    if PyStrip(text) == "" {
      assert r == NoTextDetected && r[|r| - 1] == '.';
    } else {
      assert !(forall k :: 0 <= k < |text| ==> PyIsSpace(text[k]));
    }
  }

  // ---------------------------------------------------------------- /llm-chat

  /** llm_chat (app.py:42-62): the raw message is recorded, then `get_llm_response` adds the
      medical prompt and fills in its answer. An exception after the message is recorded
      is answered with status 500 and a message. */
  method LlmChat(chatHistory: ChatHistory, message: string, medicalPrompt: string -> Result<string>,
                 pipe: string -> Result<string>) returns (reply: Reply)
    requires chatHistory.Valid()
    modifies chatHistory
    ensures chatHistory.Valid() && chatHistory.windowSize == old(chatHistory.windowSize)
    ensures var ws := chatHistory.windowSize;
      var raw := Appended(old(chatHistory.messages), (message, ""), ws);
      match medicalPrompt(message)
      case Raised(e) =>
        reply == Failure(500, None, "Sorry, I encountered an error: " + e) && chatHistory.messages == raw
      case Ok(prompt) =>
        var added := Appended(raw, (prompt, ""), ws);
        var r := LlmReply(pipe(FullPrompt(HistoryText(added), prompt)));
        reply == Text(r) && chatHistory.messages == WithLastResponse(added, r)
  {
    chatHistory.AddMessage(message);
    var prompt := medicalPrompt(message);
    if prompt.Raised? {
      reply := Failure(500, None, "Sorry, I encountered an error: " + prompt.message);
      return;
    }
    var llmResponse := GetLlmResponse(prompt.value, chatHistory, pipe);
    reply := Text(llmResponse);
  }

  /** The history one /llm-chat call leaves, for a given answer. */
  function AfterChat(m: seq<Pair>, ws: int, message: string, prompt: string, r: string): seq<Pair>
  {
    WithLastResponse(Appended(Appended(m, (message, ""), ws), (prompt, ""), ws), r)
  }

  /** With a window of two or more, one call adds two entries, the raw message with no
      answer and then the prompt with its answer, trimming the oldest beyond the window. */
  lemma LlmChatAppendsTwo(m: seq<Pair>, ws: int, message: string, prompt: string, r: string)
    requires ws >= 2 && |m| <= ws
    ensures var h := AfterChat(m, ws, message, prompt, r);
      && |h| == Min(|m| + 2, ws)
      && h[|h| - 2] == (message, "")
      && h[|h| - 1] == (prompt, r)
  {
    var once := Appended(m, (message, ""), ws);
    var twice := Appended(once, (prompt, ""), ws);
    AppendedWindow(m, (message, ""), ws);
    AppendedWindow(once, (prompt, ""), ws);
    AppendedKeepsPrevious(once, (prompt, ""), ws);
    WithLastResponseOnlyLast(twice, r);
  }

  /** With room for two entries, the entry that was last becomes the one before last. */
  lemma AppendedKeepsPrevious(m: seq<Pair>, p: Pair, ws: int)
    requires ws >= 2 && m != []
    ensures var r := Appended(m, p, ws);
      |r| >= 2 && r[|r| - 2] == m[|m| - 1]
  {
    var grown := m + [p];
    if |grown| > ws {
      var r := grown[|grown| - ws..];
      assert r[|r| - 2] == grown[|grown| - 2];
    }
  }

  /** Only the prompt entry is answered: every answered entry after a call was already in
      the history or is the prompt with its answer. */
  lemma LlmChatAnswersOnlyPrompt(m: seq<Pair>, ws: int, message: string, prompt: string, r: string)
    requires ws >= 0
    ensures var h := AfterChat(m, ws, message, prompt, r);
      forall k :: 0 <= k < |h| && IsComplete(h[k]) ==> h[k] in m || h[k] == (prompt, r)
  {
    var once := Appended(m, (message, ""), ws);
    var twice := Appended(once, (prompt, ""), ws);
    var h := AfterChat(m, ws, message, prompt, r);
    AppendedWindow(m, (message, ""), ws);
    AppendedWindow(once, (prompt, ""), ws);
    assert forall p :: p in once ==> p in m || p == (message, "");
    assert forall p :: p in twice ==> p in once || p == (prompt, "");
    WithLastResponseOnlyLast(twice, r);
    forall k | 0 <= k < |h| && IsComplete(h[k])
      ensures h[k] in m || h[k] == (prompt, r)
    {
      if k < |h| - 1 {
        assert h[k] == twice[k] && twice[k] in twice;
      }
    }
  }

  /** The raw message never reaches the model: the history rendered into the prompt is
      the same whatever the raw message was. */
  lemma RawMessageNotRendered(m: seq<Pair>, ws: int, message1: string, message2: string, prompt: string)
    ensures HistoryText(Appended(Appended(m, (message1, ""), ws), (prompt, ""), ws))
         == HistoryText(Appended(Appended(m, (message2, ""), ws), (prompt, ""), ws))
  {
    assert SameCompleted(m, m);
    SameCompletedAppended(m, m, (message1, ""), ws);
    var a := Appended(m, (message1, ""), ws);
    var b := Appended(m, (message2, ""), ws);
    assert SameCompleted(m + [(message1, "")], m + [(message2, "")]);
    assert SameCompleted(a, b);
    SameCompletedAppended(a, b, (prompt, ""), ws);
    var a2 := Appended(a, (prompt, ""), ws);
    var b2 := Appended(b, (prompt, ""), ws);
    assert SameCompleted(AllButLast(a2), AllButLast(b2));
    SameCompletedRender(AllButLast(a2), AllButLast(b2));
  }

  // ---------------------------------------------------------------- /ocr

  /** A fresh history holding the prompt twice renders as nothing. */
  lemma FreshHistoryRendersNothing(prompt: string)
    ensures HistoryText(Appended(Appended([], (prompt, ""), 5), (prompt, ""), 5)) == ""
  {
    var h := Appended(Appended([], (prompt, ""), 5), (prompt, ""), 5);
    assert h == [(prompt, ""), (prompt, "")];
    assert AllButLast(h) == [(prompt, "")];
    assert [(prompt, "")][..0] == [];
  }

  /** ocr (app.py:64-117). The history is created here, so the process-wide chat history
      is out of reach (the method modifies nothing that existed before the call), and the
      prompt reaches the model with no earlier exchanges. */
  method OcrEndpoint(age: Option<string>, gender: Option<string>, description: string,
                     extraction: Extraction,
                     nutritionPrompt: (string, string, string, string) -> string,
                     pipe: string -> Result<string>) returns (reply: Reply)
    ensures extraction.Failed? ==>
      reply == Failure(500, Some(false), "Error processing request: " + extraction.error)
    ensures !extraction.Failed? ==>
      var prompt := nutritionPrompt(NormalizeField(age), NormalizeField(gender), description,
                                    OcrFallback(ExtractedText(extraction)));
      reply == Text(LlmReply(pipe(FullPrompt("", prompt))))
  {
    var ageValue := NormalizeField(age);
    var genderValue := NormalizeField(gender);
    var ocrChatHistory := new ChatHistory();
    if extraction.Failed? {
      reply := Failure(500, Some(false), "Error processing request: " + extraction.error);
      return;
    }
    var text := ExtractedText(extraction);
    if PyStrip(text) == "" {
      text := NoTextDetected;
    }
    var prompt := nutritionPrompt(ageValue, genderValue, description, text);
    ocrChatHistory.AddMessage(prompt);
    FreshHistoryRendersNothing(prompt);
    var llmResponse := GetLlmResponse(prompt, ocrChatHistory, pipe);
    reply := Text(llmResponse);
  }
}
