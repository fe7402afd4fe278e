/**
 * The health-insights panel (frontend/src/components/food-analyzer/HealthInsights.jsx).
 *
 * It is the food-analysis chat panel with two differences: a successful analysis is
 * shown through a longer report built from the fields of the response, and the panel
 * remembers whether the user has interacted, which hides the large uploader shown on an
 * untouched panel. The send itself is `ChatInterface.Send`.
 */
module HealthInsights {
  import opened Wrappers
  import opened TextUtil
  import opened ChatInterface

  const Unanalysed := "Could not analyze the image."
  const NoTextInImage := "No text detected in image."

  /** The description paragraph of the report: present only for a non-empty description. */
  function DescriptionBlock(description: string): string
  {
    if description != "" then "Description: " + description + "\n\n" else ""
  }

  /** What the report shows as the detected text. */
  function DetectedText(text: string): string
  {
    if text != "" then JsTrim(text) else NoTextInImage
  }

  const ReportOpening := "\n    Analysis complete!\n    \n    User Profile:\n    \U{2022} "
  const BulletBreak := "\n    \U{2022} "
  const SectionBreak := "\n    \n    "
  const TextHeading := "\n    \n    Text detected in image:\n    "
  const ReportClosing := "\n    "

  function AgeLine(age: string): string { "Age: " + age }
  function GenderLine(gender: string): string { "Gender: " + gender }

  function ProfileSection(age: string, gender: string): string
  {
    ReportOpening + AgeLine(age) + BulletBreak + GenderLine(gender) + SectionBreak
  }

  function TextSection(text: string): string
  {
    TextHeading + DetectedText(text) + ReportClosing
  }

  /** formatAnalysisResult (HealthInsights.jsx:186-204), over the top-level fields of the
      response; `None` is a missing result. */
  function FormatReport(result: Option<AnalysisData>): string
  {
    if result.None? || !result.value.success then Unanalysed
    else
      var d := result.value;
      ProfileSection(d.age, d.gender) + DescriptionBlock(d.description) + TextSection(d.text)
  }

  /** The formatter as the send calls it, on the response's data (HealthInsights.jsx:154). */
  function ReportOf(d: AnalysisData): string
  {
    FormatReport(Some(d))
  }

  // ---------------------------------------------------------------- properties

  lemma ContainsLeft(x: string, y: string, p: string)
    requires Contains(x, p)
    ensures Contains(x + y, p)
  {
    var i :| 0 <= i <= |x| - |p| && OccursAt(x, p, i);
    assert (x + y)[i..i + |p|] == x[i..i + |p|];
    assert OccursAt(x + y, p, i);
  }

  lemma ContainsRight(x: string, y: string, p: string)
    requires Contains(y, p)
    ensures Contains(x + y, p)
  {
    var i :| 0 <= i <= |y| - |p| && OccursAt(y, p, i);
    assert (x + y)[|x| + i..|x| + i + |p|] == y[i..i + |p|];
    assert OccursAt(x + y, p, |x| + i);
  }

  lemma ContainsItself(p: string)
    ensures Contains(p, p)
  {
    assert OccursAt(p, p, 0);
  }

  /** A successful report names the age. */
  lemma ReportNamesAge(d: AnalysisData)
    requires d.success
    ensures Contains(ReportOf(d), "Age: " + d.age)
  {
    var a := AgeLine(d.age);
    ContainsItself(a);
    ContainsRight(ReportOpening, a, a);
    ContainsLeft(ReportOpening + a, BulletBreak, a);
    ContainsLeft(ReportOpening + a + BulletBreak, GenderLine(d.gender), a);
    ContainsLeft(ReportOpening + a + BulletBreak + GenderLine(d.gender), SectionBreak, a);
    ContainsLeft(ProfileSection(d.age, d.gender), DescriptionBlock(d.description), a);
    ContainsLeft(ProfileSection(d.age, d.gender) + DescriptionBlock(d.description), TextSection(d.text), a);
  }

  /** A successful report names the gender. */
  lemma ReportNamesGender(d: AnalysisData)
    requires d.success
    ensures Contains(ReportOf(d), "Gender: " + d.gender)
  {
    var g := GenderLine(d.gender);
    var front := ReportOpening + AgeLine(d.age) + BulletBreak;
    ContainsItself(g);
    ContainsRight(front, g, g);
    ContainsLeft(front + g, SectionBreak, g);
    ContainsLeft(ProfileSection(d.age, d.gender), DescriptionBlock(d.description), g);
    ContainsLeft(ProfileSection(d.age, d.gender) + DescriptionBlock(d.description), TextSection(d.text), g);
  }

  /** A successful report ends with the detected text; a missing or unsuccessful result
      gives the fixed sentence, whatever the other fields hold. */
  lemma ReportEndsWithText(d: AnalysisData)
    ensures d.success ==> EndsWith(ReportOf(d), TextSection(d.text))
    ensures !d.success ==> ReportOf(d) == Unanalysed
    ensures FormatReport(None) == Unanalysed
  {
    if d.success {
      var r := ReportOf(d);
      var front := ProfileSection(d.age, d.gender) + DescriptionBlock(d.description);
      assert r == front + TextSection(d.text);
      assert r[|front|..] == TextSection(d.text);
    }
  }

  /** The description paragraph appears exactly when there is a description. */
  lemma DescriptionOnlyWhenGiven(d: AnalysisData)
    requires d.success
    ensures d.description == "" ==>
      ReportOf(d) == ProfileSection(d.age, d.gender) + TextSection(d.text)
    ensures d.description != "" ==>
      ReportOf(d) == ProfileSection(d.age, d.gender) + ("Description: " + d.description + "\n\n") + TextSection(d.text)
  {
    if d.description == "" {
      assert ProfileSection(d.age, d.gender) + "" == ProfileSection(d.age, d.gender);
    }
  }

  /** A non-empty text is shown trimmed; the fallback sentence is used only for an empty
      text, so a text of blanks shows as nothing at all. */
  lemma DetectedTextTrimmed(text: string)
    requires text != ""
    ensures var t := DetectedText(text);
      && Contains(text, t) && (t != [] ==> !JsIsSpace(t[0]) && !JsIsSpace(t[|t| - 1]))
      && ((forall k :: 0 <= k < |text| ==> JsIsSpace(text[k])) ==> t == "")
  {
  }

  /** The /ocr and /llm-chat endpoints answer with a bare JSON string, which has no
      `success`, `message` or `text` field. An analysis then always ends in the generic
      failure message, whatever the string. A non-empty chat answer ends in the fixed
      placeholder, and an empty one, being falsy, adds nothing after the user's message. */
  lemma BareStringReplies(s: ChatState, chat: ChatOutcome, reply: string)
    requires !NothingToSend(s)
    ensures s.selectedImage.Some? && !MissingAgeOrGender(s.userInfo) ==>
      var t := Send(s, chat, AnalysisAnswered(AnalysisData(false, "", "", "", "", "", "")), ReportOf);
      t.messages[|t.messages| - 1] == Message(System, "Could not analyze the image: Unknown error", None, IsError)
    ensures s.selectedImage.None? ==>
      var t := Send(s, ChatAnswered(true, ""), AnalysisThrown(reply), ReportOf);
      t.messages[|t.messages| - 1] == Message(System, "No response received", None, Plain)
    ensures s.selectedImage.None? ==>
      Send(s, ChatAnswered(false, ""), AnalysisThrown(reply), ReportOf).messages
        == s.messages + [Message(User, s.input, s.previewUrl, Plain)]
  {
  }

  // ---------------------------------------------------------------- the component

  class Insights {
    /** The state the panel shares with the food-analysis chat panel. */
    var panel: Panel
    var hasInteracted: bool

    /** The flag is set exactly when the panel holds more than its greeting: by the send
        itself, or by the effect on `messages`. */
    ghost predicate Valid()
      reads this, panel
    {
      panel.Valid() && (hasInteracted <==> |panel.messages| > 1)
    }

    /** The large uploader is shown only on an untouched panel with no image selected. */
    function ShowsUploader(): bool
      reads this, panel
    {
      !hasInteracted && panel.selectedImage.None?
    }

    constructor ()
      ensures Valid() && fresh(panel) && !hasInteracted
      ensures panel.State() == ChatState([Greeting], "", None, None, UserInfo("", ""), false, false, false)
    {
      panel := new Panel();
      hasInteracted := false;
    }

    /** The form's remove-image button (HealthInsights.jsx:292): the panel drops the
        upload, the interaction flag stays, and an untouched panel shows the large
        uploader again. */
    method ResetImageUpload()
      requires Valid()
      modifies panel
      ensures Valid() && hasInteracted == old(hasInteracted)
      ensures panel.State() == ImageCleared(old(panel.State()))
      ensures !hasInteracted ==> ShowsUploader()
    {
      panel.ResetImageUpload();
    }

    /** handleSendMessage (HealthInsights.jsx:40-81) with the effect on `messages`
        (33-38). */
    method HandleSendMessage(chat: ChatOutcome, analysis: AnalysisOutcome)
      requires Valid()
      modifies this, panel
      ensures Valid() && panel == old(panel)
      ensures panel.State() == Send(old(panel.State()), chat, analysis, ReportOf)
      ensures hasInteracted == (old(hasInteracted) || !NothingToSend(old(panel.State())))
      ensures old(hasInteracted) ==> hasInteracted
    {
      ghost var s := panel.State();
      if !(JsBlank(panel.input) && panel.selectedImage.None?) {
        hasInteracted := true;
        SendLeavesTwo(s, chat, analysis, ReportOf);
      }
      panel.HandleSendMessage(chat, analysis, ReportOf);
      if |panel.messages| > 1 {
        hasInteracted := true;
      }
    }
  }
}
