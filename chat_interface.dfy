/**
 * The food-analysis chat panel (frontend/src/components/food-analyzer/ChatInterface.jsx).
 *
 * The panel keeps a list of messages that starts with a greeting. Sending posts either a
 * chat message or, when an image is selected, the image with the user's age and gender;
 * the answer of the server, or the error thrown, is a parameter of the send. Each
 * handler is one atomic step; React's batching is not modelled.
 *
 * The transition `Send` is shared with the health-insights panel, which differs only in
 * how it formats a successful analysis and in its `hasInteracted` flag.
 */
module ChatInterface {
  import opened Wrappers
  import opened TextUtil

  datatype Sender = User | System

  /** The flag a message carries (`isError`, `isWarning`, `isProcessing`, `isAnalysisResult`). */
  datatype Tag = Plain | IsError | IsWarning | IsProcessing | IsAnalysisResult

  datatype Message = Message(sender: Sender, content: string, image: Option<string>, tag: Tag)

  const Greeting := Message(System, "Hello! I'm your Food Analysis Assistant. How can I help you today?", None, Plain)
  const AgeGenderWarning := Message(System, "Please provide your age and gender to analyze this food.", None, IsWarning)
  const Processing := Message(System, "Analyzing your food image...", None, IsProcessing)
  const SendFailed := Message(System, "Sorry, there was an error processing your request. Please try again.", None, IsError)

  datatype UserInfo = UserInfo(age: string, gender: string)

  /** What the chat request gives: a response whose `data` is present (truthy) or not,
      with its `message` field ("" when missing), or a thrown error. */
  datatype ChatOutcome = ChatAnswered(hasData: bool, message: string) | ChatThrown

  /** The fields of an analysis response that the panels read ("" when missing or when
      the body is not an object): `success`, `message`, `text`, `age`, `gender`,
      `description` at the top level, and `resultText` for `result.text`. */
  datatype AnalysisData = AnalysisData(
    success: bool, message: string, text: string, age: string, gender: string, description: string,
    resultText: string)

  /** What the analysis request gives: a response, or a thrown error with its message. */
  datatype AnalysisOutcome = AnalysisAnswered(data: AnalysisData) | AnalysisThrown(errorMessage: string)

  datatype ChatState = ChatState(
    messages: seq<Message>,
    input: string,
    selectedImage: Option<string>,
    previewUrl: Option<string>,
    userInfo: UserInfo,
    isTyping: bool,
    isUploading: bool,
    showUploadForm: bool)

  predicate NotProcessing(m: Message) { m.tag != IsProcessing }

  /** `a || b` on strings. */

  /** The messages the analysis request leaves after the guard: a processing placeholder
      is added; a response removes every placeholder and adds the result or the failure;
      a thrown error leaves the placeholder and adds the error. */
  function AnalysisMessages(prev: seq<Message>, outcome: AnalysisOutcome, format: AnalysisData -> string): seq<Message>
  {
    var waiting := prev + [Processing];
    match outcome
    case AnalysisThrown(e) => waiting + [Message(System, "Error analyzing image: " + e, None, IsError)]
    case AnalysisAnswered(d) =>
      Filter(NotProcessing, waiting)
      + [if d.success then Message(System, format(d), None, IsAnalysisResult)
         else Message(System, "Could not analyze the image: " + OrElse(d.message, "Unknown error"), None, IsError)]
  }

  /** Input that trims to nothing with no image selected: sending does nothing. */
  predicate NothingToSend(s: ChatState)
  {
    JsBlank(s.input) && s.selectedImage.None?
  }

  predicate MissingAgeOrGender(u: UserInfo)
  {
    u.age == "" || u.gender == ""
  }

  /** The messages the chat request leaves: the reply when the response has data (its
      `message`, or a fixed sentence), nothing when it has none, and an apology when the
      request throws. */
  function ChatMessages(prev: seq<Message>, chat: ChatOutcome): seq<Message>
  {
    match chat
    case ChatThrown => prev + [SendFailed]
    case ChatAnswered(hasData, message) =>
      prev + (if hasData then [Message(System, OrElse(message, "No response received"), None, Plain)] else [])
  }

  /** resetImageUpload (ChatInterface.jsx:180-184): no image, no preview, form closed. */
  function ImageCleared(s: ChatState): ChatState
  {
    s.(selectedImage := None, previewUrl := None, showUploadForm := false)
  }

  /** The image step: without an image, age or gender it only warns; otherwise it runs
      the analysis and then clears the image, the preview and the form. */
  function FoodAnalysis(s: ChatState, analysis: AnalysisOutcome, format: AnalysisData -> string): ChatState
  {
    if s.selectedImage.None? || MissingAgeOrGender(s.userInfo) then
      s.(messages := s.messages + [AgeGenderWarning])
    else
      ImageCleared(s.(messages := AnalysisMessages(s.messages, analysis, format), isUploading := false))
  }

  /** handleSendMessage and the request it makes, as one step: post the user's message,
      then the image step when an image is selected and the chat step otherwise. */
  function Send(s: ChatState, chat: ChatOutcome, analysis: AnalysisOutcome, format: AnalysisData -> string): ChatState
  {
    if NothingToSend(s) then s
    else
      var posted := s.(messages := s.messages + [Message(User, s.input, s.previewUrl, Plain)],
                       input := "", isTyping := true);
      var answered := if s.selectedImage.Some? then FoodAnalysis(posted, analysis, format)
                      else posted.(messages := ChatMessages(posted.messages, chat));
      answered.(isTyping := false)
  }

  /** formatAnalysisResult of this panel (ChatInterface.jsx:174-178): the text of the
      response's `result` after a fixed opening, or a fixed sentence when it is empty. */
  function FormatAnalysisResult(d: AnalysisData): (r: string)
    ensures StartsWith(r, "Analysis complete! ")
    ensures d.resultText != "" ==> r[|"Analysis complete! "|..] == d.resultText
    ensures d.resultText == "" ==> r[|"Analysis complete! "|..] == "No text detected in image."
  {
    "Analysis complete! " + OrElse(d.resultText, "No text detected in image.")
  }

  /** handleUserInfoSubmit: the form closes only when both fields are filled in. */
  function SubmitUserInfo(s: ChatState): (t: ChatState)
  {
    if MissingAgeOrGender(s.userInfo) then s else s.(showUploadForm := false)
  }

  // ---------------------------------------------------------------- properties

  /** A send that passes the guard adds the user's message, carrying the input and the
      preview, and clears the input. */
  lemma SendPostsUserMessage(s: ChatState, chat: ChatOutcome, analysis: AnalysisOutcome, format: AnalysisData -> string)
    requires !NothingToSend(s)
    ensures var t := Send(s, chat, analysis, format);
      && t.input == "" && !t.isTyping
      && Message(User, s.input, s.previewUrl, Plain) in t.messages
  {
    var user := Message(User, s.input, s.previewUrl, Plain);
    var posted := s.messages + [user];
    assert posted[|posted| - 1] == user;
    if s.selectedImage.Some? && !MissingAgeOrGender(s.userInfo) {
      AnalysisKeepsPosted(s.messages, user, analysis, format);
    }
  }

  /** The analysis keeps a message that is not a placeholder posted just before it. */
  lemma AnalysisKeepsPosted(prev: seq<Message>, user: Message, analysis: AnalysisOutcome, format: AnalysisData -> string)
    requires NotProcessing(user)
    ensures user in AnalysisMessages(prev + [user], analysis, format)
  {
    var posted := prev + [user];
    var waiting := posted + [Processing];
    match analysis
    case AnalysisThrown(_) =>
      assert waiting[|posted| - 1] == user;
    case AnalysisAnswered(_) =>
      assert waiting == prev + ([user] + [Processing]);
      FilterConcat(NotProcessing, prev, [user] + [Processing]);
      FilterConcat(NotProcessing, [user], [Processing]);
      assert Filter(NotProcessing, [user]) == [user];
      assert Filter(NotProcessing, [Processing]) == [];
      var kept := Filter(NotProcessing, waiting);
      assert kept[|kept| - 1] == user;
  }

  /** Appending never changes what filtering kept before. */
  lemma FilterPrefix(a: seq<Message>, b: seq<Message>)
    ensures IsPrefix(Filter(NotProcessing, a), Filter(NotProcessing, a + b))
  {
    FilterConcat(NotProcessing, a, b);
  }

  /** The analysis step keeps the earlier messages that are not placeholders, in order. */
  lemma AnalysisOnlyAppends(prev: seq<Message>, outcome: AnalysisOutcome, format: AnalysisData -> string)
    ensures IsPrefix(Filter(NotProcessing, prev), Filter(NotProcessing, AnalysisMessages(prev, outcome, format)))
  {
    var r := AnalysisMessages(prev, outcome, format);
    match outcome
    case AnalysisThrown(e) =>
      var tail := [Processing, Message(System, "Error analyzing image: " + e, None, IsError)];
      assert r == prev + tail;
      FilterPrefix(prev, tail);
    case AnalysisAnswered(d) =>
      var waiting := prev + [Processing];
      var kept := Filter(NotProcessing, waiting);
      var last := r[|r| - 1];
      assert r == kept + [last];
      FilterConcat(NotProcessing, kept, [last]);
      FilterIdempotent(NotProcessing, waiting);
      FilterConcat(NotProcessing, prev, [Processing]);
      assert Filter(NotProcessing, r) == Filter(NotProcessing, prev) + (Filter(NotProcessing, [Processing]) + Filter(NotProcessing, [last]));
  }

  /** The messages a send past the guard leaves, by case. */
  lemma SendMessages(s: ChatState, chat: ChatOutcome, analysis: AnalysisOutcome, format: AnalysisData -> string)
    requires !NothingToSend(s)
    ensures var posted := s.messages + [Message(User, s.input, s.previewUrl, Plain)];
      Send(s, chat, analysis, format).messages
        == if s.selectedImage.None? then ChatMessages(posted, chat)
           else if MissingAgeOrGender(s.userInfo) then posted + [AgeGenderWarning]
           else AnalysisMessages(posted, analysis, format)
  {
  }

  /** Messages are only appended to or cleared of placeholders: leaving placeholders
      aside, the list before a send is a prefix of the list after it. */
  lemma SendOnlyAppends(s: ChatState, chat: ChatOutcome, analysis: AnalysisOutcome, format: AnalysisData -> string)
    ensures IsPrefix(Filter(NotProcessing, s.messages),
                     Filter(NotProcessing, Send(s, chat, analysis, format).messages))
  {
    var t := Send(s, chat, analysis, format);
    if NothingToSend(s) {
      return;
    }
    var posted := s.messages + [Message(User, s.input, s.previewUrl, Plain)];
    SendMessages(s, chat, analysis, format);
    FilterPrefix(s.messages, [Message(User, s.input, s.previewUrl, Plain)]);
    var tail: seq<Message>;
    if s.selectedImage.Some? && !MissingAgeOrGender(s.userInfo) {
      AnalysisOnlyAppends(posted, analysis, format);
    } else {
      tail := t.messages[|posted|..];
      assert t.messages == posted + tail;
      FilterPrefix(posted, tail);
    }
  }

  /** The greeting stays first through every send. */
  lemma SendKeepsGreeting(s: ChatState, chat: ChatOutcome, analysis: AnalysisOutcome, format: AnalysisData -> string)
    requires s.messages != [] && s.messages[0] == Greeting
    ensures var t := Send(s, chat, analysis, format);
      t.messages != [] && t.messages[0] == Greeting
  {
    if !NothingToSend(s) {
      SendMessages(s, chat, analysis, format);
      if s.selectedImage.Some? && !MissingAgeOrGender(s.userInfo) && analysis.AnalysisAnswered? {
        var waiting := s.messages + [Message(User, s.input, s.previewUrl, Plain)] + [Processing];
        FilterKeepsHead(NotProcessing, waiting);
      }
    }
  }

  /** A send that passes the guard leaves at least the greeting and the user's message. */
  lemma SendLeavesTwo(s: ChatState, chat: ChatOutcome, analysis: AnalysisOutcome, format: AnalysisData -> string)
    requires s.messages != [] && s.messages[0] == Greeting && !NothingToSend(s)
    ensures |Send(s, chat, analysis, format).messages| >= 2
  {
    var t := Send(s, chat, analysis, format);
    SendKeepsGreeting(s, chat, analysis, format);
    SendPostsUserMessage(s, chat, analysis, format);
    var k :| 0 <= k < |t.messages| && t.messages[k] == Message(User, s.input, s.previewUrl, Plain);
    assert k != 0;
  }

  /** With an image but no age or gender, a warning is added, the image stays selected and
      no request is made: the outcome of the analysis does not matter. */
  lemma WarningKeepsImage(s: ChatState, chat: ChatOutcome, a1: AnalysisOutcome, a2: AnalysisOutcome, format: AnalysisData -> string)
    requires s.selectedImage.Some? && MissingAgeOrGender(s.userInfo)
    ensures var t := Send(s, chat, a1, format);
      && t == Send(s, chat, a2, format)
      && t.messages == s.messages + [Message(User, s.input, s.previewUrl, Plain), AgeGenderWarning]
      && t.selectedImage == s.selectedImage && t.previewUrl == s.previewUrl
      && t.showUploadForm == s.showUploadForm
  {
  }

  /** A thrown analysis error leaves the placeholder in the list, followed by the error. */
  lemma ThrownKeepsPlaceholder(s: ChatState, chat: ChatOutcome, e: string, format: AnalysisData -> string)
    requires s.selectedImage.Some? && !MissingAgeOrGender(s.userInfo)
    ensures Send(s, chat, AnalysisThrown(e), format).messages
         == s.messages + [Message(User, s.input, s.previewUrl, Plain), Processing,
                          Message(System, "Error analyzing image: " + e, None, IsError)]
  {
  }

  /** A response removes every placeholder; the list then ends with the result. */
  lemma AnsweredDropsPlaceholders(s: ChatState, chat: ChatOutcome, d: AnalysisData, format: AnalysisData -> string)
    requires s.selectedImage.Some? && !MissingAgeOrGender(s.userInfo)
    ensures var t := Send(s, chat, AnalysisAnswered(d), format);
      && (forall k :: 0 <= k < |t.messages| ==> NotProcessing(t.messages[k]))
      && t.messages[|t.messages| - 1].content
         == (if d.success then format(d) else "Could not analyze the image: " + OrElse(d.message, "Unknown error"))
  {
  }

  /** After an analysis that passed the guard the image, preview and form are cleared and
      the upload is over, whatever the outcome. */
  lemma AnalysisClearsImage(s: ChatState, chat: ChatOutcome, analysis: AnalysisOutcome, format: AnalysisData -> string)
    requires s.selectedImage.Some? && !MissingAgeOrGender(s.userInfo)
    ensures var t := Send(s, chat, analysis, format);
      t.selectedImage.None? && t.previewUrl.None? && !t.showUploadForm && !t.isUploading
  {
  }

  /** The form closes exactly when both age and gender are filled in; nothing else changes. */
  lemma SubmitUserInfoCloses(s: ChatState)
    ensures !SubmitUserInfo(s).showUploadForm <==> (!s.showUploadForm || !MissingAgeOrGender(s.userInfo))
    ensures SubmitUserInfo(s).(showUploadForm := s.showUploadForm) == s
  {
  }

  /** Removing the image touches nothing but the upload: the conversation, the input and
      the user information stay, and removing it twice is removing it once. */
  lemma ImageClearedKeepsConversation(s: ChatState)
    ensures var t := ImageCleared(s);
      && t.selectedImage.None? && t.previewUrl.None? && !t.showUploadForm
      && t.messages == s.messages && t.input == s.input && t.userInfo == s.userInfo
      && t.isTyping == s.isTyping && t.isUploading == s.isUploading
      && ImageCleared(t) == t
  {
  }

  /** After the image is removed, a send is a plain chat send: nothing for blank input,
      otherwise the user's message without a preview and then the chat answer. No
      analysis is requested and no placeholder appears. */
  lemma RemovedImageSendsChat(s: ChatState, chat: ChatOutcome, analysis: AnalysisOutcome, format: AnalysisData -> string)
    ensures Send(ImageCleared(s), chat, analysis, format).messages
         == if JsBlank(s.input) then s.messages
            else ChatMessages(s.messages + [Message(User, s.input, None, Plain)], chat)
  {
  }

  // ---------------------------------------------------------------- the component

  class Panel {
    var messages: seq<Message>
    var input: string
    var selectedImage: Option<string>
    var previewUrl: Option<string>
    var userInfo: UserInfo
    var isTyping: bool
    var isUploading: bool
    var showUploadForm: bool

    function State(): ChatState
      reads this
    {
      ChatState(messages, input, selectedImage, previewUrl, userInfo, isTyping, isUploading, showUploadForm)
    }

    /** The greeting is always the first message. */
    ghost predicate Valid()
      reads this
    {
      messages != [] && messages[0] == Greeting
    }

    constructor ()
      ensures Valid()
      ensures State() == ChatState([Greeting], "", None, None, UserInfo("", ""), false, false, false)
    {
      messages := [Greeting];
      input := "";
      selectedImage := None;
      previewUrl := None;
      userInfo := UserInfo("", "");
      isTyping := false;
      isUploading := false;
      showUploadForm := false;
    }

    /** handleSendMessage (ChatInterface.jsx:29-67); `format` is the panel's
        formatAnalysisResult (`FormatAnalysisResult` here). */
    method HandleSendMessage(chat: ChatOutcome, analysis: AnalysisOutcome, format: AnalysisData -> string)
      requires Valid()
      modifies this
      ensures Valid()
      ensures State() == Send(old(State()), chat, analysis, format)
    {
      ghost var before := State();
      if JsBlank(input) && selectedImage.None? {
        return;
      }
      messages := messages + [Message(User, input, previewUrl, Plain)];
      input := "";
      isTyping := true;
      ghost var posted := State();
      if selectedImage.Some? {
        HandleFoodAnalysis(analysis, format);
        assert State() == FoodAnalysis(posted, analysis, format);
      } else {
        HandleChatMessage(chat);
        assert State() == posted.(messages := ChatMessages(posted.messages, chat));
      }
      ghost var answered := State();
      isTyping := false;
      assert State() == answered.(isTyping := false);
      SendKeepsGreeting(before, chat, analysis, format);
    }

    /** handleChatMessage (ChatInterface.jsx:69-88) with the catch of handleSendMessage
        (52-62), which is where its rethrown error lands. */
    method HandleChatMessage(chat: ChatOutcome)
      modifies this
      ensures State() == old(State()).(messages := ChatMessages(old(messages), chat))
    {
      match chat {
        case ChatAnswered(hasData, message) =>
          if hasData {
            messages := messages + [Message(System, OrElse(message, "No response received"), None, Plain)];
          }
        case ChatThrown =>
          messages := messages + [SendFailed];
      }
    }

    /** handleFoodAnalysis (ChatInterface.jsx:90-172) with resetImageUpload (180-184). */
    method HandleFoodAnalysis(analysis: AnalysisOutcome, format: AnalysisData -> string)
      modifies this
      ensures State() == FoodAnalysis(old(State()), analysis, format)
    {
      if selectedImage.None? || userInfo.age == "" || userInfo.gender == "" {
        messages := messages + [AgeGenderWarning];
        return;
      }
      isUploading := true;
      messages := messages + [Processing];
      match analysis {
        case AnalysisAnswered(d) =>
          messages := Filter(NotProcessing, messages);
          if d.success {
            messages := messages + [Message(System, format(d), None, IsAnalysisResult)];
          } else {
            messages := messages + [Message(System, "Could not analyze the image: " + OrElse(d.message, "Unknown error"), None, IsError)];
          }
        case AnalysisThrown(e) =>
          messages := messages + [Message(System, "Error analyzing image: " + e, None, IsError)];
      }
      isUploading := false;
      ResetImageUpload();
    }

    /** resetImageUpload, also wired to the form's remove-image button
        (ChatInterface.jsx:248): the upload is dropped without sending anything. */
    method ResetImageUpload()
      modifies this
      ensures State() == ImageCleared(old(State()))
    {
      selectedImage := None;
      previewUrl := None;
      showUploadForm := false;
    }

    /** handleImageUpload: select the file, show its preview and open the form. */
    method HandleImageUpload(file: string, preview: string)
      modifies this
      ensures State() == old(State()).(selectedImage := Some(file), previewUrl := Some(preview), showUploadForm := true)
    {
      selectedImage := Some(file);
      previewUrl := Some(preview);
      showUploadForm := true;
    }

    /** handleUserInfoChange (ChatInterface.jsx:199-201). */
    method HandleUserInfoChange(info: UserInfo)
      modifies this
      ensures State() == old(State()).(userInfo := info)
    {
      userInfo := info;
    }

    /** handleUserInfoSubmit (ChatInterface.jsx:203-212). */
    method HandleUserInfoSubmit()
      modifies this
      ensures State() == SubmitUserInfo(old(State()))
    {
      if userInfo.age == "" || userInfo.gender == "" {
        return;
      }
      showUploadForm := false;
    }
  }
}
