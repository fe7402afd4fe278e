/**
 * The three-step food analyser page (frontend/src/components/FoodAnalyzer.jsx): upload an
 * image, give health information, then confirm, which sends the image for text
 * recognition and shows what came back.
 *
 * The page is a state machine over its state variables; each handler is one atomic
 * step and the answer of the server, or the error thrown, is a parameter.
 */
module FoodAnalyzer {
  import opened Wrappers
  import opened TextUtil

  datatype HealthInfo = HealthInfo(age: string, gender: string, conditions: string, allergies: string)

  /** The `name` of an input of the health form. */
  datatype HealthField = Age | Gender | Conditions | Allergies

  function Get(h: HealthInfo, f: HealthField): string
  {
    match f
    case Age => h.age
    case Gender => h.gender
    case Conditions => h.conditions
    case Allergies => h.allergies
  }

  /** handleHealthInfoChange (FoodAnalyzer.jsx:45-50): the named field takes the value. */
  function WithField(h: HealthInfo, f: HealthField, value: string): (r: HealthInfo)
    ensures Get(r, f) == value
    ensures forall g :: g != f ==> Get(r, g) == Get(h, g)
  {
    match f
    case Age => h.(age := value)
    case Gender => h.(gender := value)
    case Conditions => h.(conditions := value)
    case Allergies => h.(allergies := value)
  }

  /** What the request of the confirm step gives: the response's `success`, `message` and
      `result.text` ("" when missing), or a thrown error with the server's message
      (`error.response?.data?.message`, "" when missing) and its own message. */
  datatype OcrOutcome =
    | OcrAnswered(success: bool, message: string, resultText: string)
    | OcrThrown(responseMessage: string, errorMessage: string)


  /** The text shown as the OCR result for an outcome (FoodAnalyzer.jsx:110-123). */
  function OcrText(o: OcrOutcome): string
  {
    match o
    case OcrAnswered(success, message, text) =>
      if success then OrElse(text, "No text detected") else "Error: " + OrElse(message, "Unknown error")
    case OcrThrown(responseMessage, errorMessage) =>
      "Error during OCR: " + OrElse(responseMessage, errorMessage)
  }

  datatype Page = Page(
    step: int,
    selectedImage: Option<string>,
    previewUrl: Option<string>,
    analyzing: bool,
    analysisResult: Option<string>,
    ocrResult: string,
    healthInfo: HealthInfo,
    requests: nat)  // how many analysis requests were sent

  const Initial := Page(1, None, None, false, None, "", HealthInfo("", "", "", ""), 0)

  predicate StepInRange(s: Page) { 1 <= s.step <= 3 }

  /** The guard of the "Next" button, which is also the button's `disabled` condition. */
  predicate NextBlocked(s: Page)
  {
    (s.step == 1 && s.previewUrl.None?) || (s.step == 2 && (s.healthInfo.age == "" || s.healthInfo.gender == ""))
  }

  /** "Back" is rendered only past the first step, before step 4 and while not analysing. */
  predicate BackOffered(s: Page)
  {
    1 < s.step < 4 && !s.analyzing
  }

  /** handleAnalyzeFood (FoodAnalyzer.jsx:90-127): one request; the flag is down again
      afterwards whatever happened. */
  function Analyze(s: Page, o: OcrOutcome): Page
  {
    s.(ocrResult := OcrText(o), analyzing := false, requests := s.requests + 1)
  }

  /** handleNextStep (FoodAnalyzer.jsx:52-62). */
  function Next(s: Page, o: OcrOutcome): Page
  {
    if NextBlocked(s) then s
    else if s.step == 3 then Analyze(s, o)
    else s.(step := s.step + 1)
  }

  /** handlePrevStep (FoodAnalyzer.jsx:64-66). */
  function Prev(s: Page): Page
  {
    s.(step := s.step - 1)
  }

  /** resetAnalysis (FoodAnalyzer.jsx:128-133). */
  function Reset(s: Page): Page
  {
    s.(selectedImage := None, previewUrl := None, analysisResult := None, step := 1)
  }

  /** handleRemoveImage (FoodAnalyzer.jsx:85-88). */
  function RemoveImage(s: Page): Page
  {
    s.(selectedImage := None, previewUrl := None)
  }

  /** handleImageChange and handleDrop (FoodAnalyzer.jsx:33-43, 72-83): a chosen file is
      selected and its data URL becomes the preview; no file changes nothing. */
  function ChooseImage(s: Page, file: Option<string>, dataUrl: string): Page
  {
    if file.Some? then s.(selectedImage := file, previewUrl := Some(dataUrl)) else s
  }

  /** The width of the progress bar, in percent (FoodAnalyzer.jsx:532). */
  function ProgressWidth(step: int): real
  {
    var w := ((step - 1) as real / 2.0) * 100.0;
    if w <= 100.0 then w else 100.0
  }

  // ---------------------------------------------------------------- properties

  /** At step 1 without a preview, "Next" changes nothing at all. */
  lemma NextNeedsPreview(s: Page, o: OcrOutcome)
    requires s.step == 1 && s.previewUrl.None?
    ensures Next(s, o) == s
  {
  }

  /** At step 2, "Next" advances exactly when age and gender are filled in; conditions and
      allergies do not matter. */
  lemma NextNeedsAgeAndGender(s: Page, o: OcrOutcome, conditions: string, allergies: string)
    requires s.step == 2
    ensures Next(s, o).step == 3 <==> s.healthInfo.age != "" && s.healthInfo.gender != ""
    ensures Next(s, o).step == 2 ==> Next(s, o) == s
    ensures Next(s.(healthInfo := s.healthInfo.(conditions := conditions, allergies := allergies)), o).step
         == Next(s, o).step
  {
  }

  /** At step 3, "Next" sends one request and stays on step 3; only the result, the flag
      and the request count change, and the flag ends down. The health information is
      not part of what is shown. */
  lemma NextAtConfirmAnalyzes(s: Page, o: OcrOutcome, h: HealthInfo)
    requires s.step == 3
    ensures var t := Next(s, o);
      && t.step == 3 && !t.analyzing && t.requests == s.requests + 1
      && t.(ocrResult := s.ocrResult, analyzing := s.analyzing, requests := s.requests) == s
      && t.ocrResult == Next(s.(healthInfo := h), o).ocrResult
  {
  }

  /** The shown result tells the three outcomes apart by their opening words. */
  lemma OcrTextOutcomes(o: OcrOutcome)
    ensures o.OcrAnswered? && o.success && o.resultText != "" ==> OcrText(o) == o.resultText
    ensures o.OcrAnswered? && !o.success ==>
      OcrText(o)[..7] == "Error: " && OcrText(o)[7..] == (if o.message != "" then o.message else "Unknown error")
    ensures o.OcrThrown? ==>
      OcrText(o)[..18] == "Error during OCR: "
      && OcrText(o)[18..] == (if o.responseMessage != "" then o.responseMessage else o.errorMessage)
  {
  }

  /** From steps 1 to 3, "Next" and an offered "Back" stay within steps 1 to 3, and
      "Back" undoes an advance. */
  lemma StepsStayInRange(s: Page, o: OcrOutcome)
    requires StepInRange(s)
    ensures StepInRange(Next(s, o))
    ensures BackOffered(s) ==> StepInRange(Prev(s))
    ensures Next(s, o).step != s.step ==> Next(s, o).step == s.step + 1 && Prev(Next(s, o)).step == s.step
  {
  }

  /** resetAnalysis returns to step 1 and clears the image, preview and result, keeping the
      health information and the OCR result. */
  lemma ResetKeeps(s: Page)
    ensures var t := Reset(s);
      && t.step == 1 && t.selectedImage.None? && t.previewUrl.None? && t.analysisResult.None?
      && t.healthInfo == s.healthInfo && t.ocrResult == s.ocrResult
  {
  }

  /** Removing the image on the first step blocks "Next" again. */
  lemma RemoveImageBlocksNext(s: Page, o: OcrOutcome)
    requires s.step == 1
    ensures Next(RemoveImage(s), o) == RemoveImage(s)
  {
  }

  /** 0% at step 1, 50% at step 2, 100% at step 3, growing with the step and never past 100%. */
  lemma ProgressWidths(a: int, b: int)
    requires a <= b
    ensures ProgressWidth(1) == 0.0 && ProgressWidth(2) == 50.0 && ProgressWidth(3) == 100.0
    ensures ProgressWidth(a) <= ProgressWidth(b) <= 100.0
  {
  }

  /** The actions the page offers. "Back" is taken only while it is rendered. */
  datatype Action =
    | NextStep(outcome: OcrOutcome)
    | PrevStep
    | ResetAnalysis
    | RemoveImageAction
    | ChangeField(field: HealthField, value: string)
    | ChooseImageAction(file: Option<string>, dataUrl: string)

  function Step(s: Page, a: Action): Page
  {
    match a
    case NextStep(o) => Next(s, o)
    case PrevStep => if BackOffered(s) then Prev(s) else s
    case ResetAnalysis => Reset(s)
    case RemoveImageAction => RemoveImage(s)
    case ChangeField(f, v) => s.(healthInfo := WithField(s.healthInfo, f, v))
    case ChooseImageAction(file, url) => ChooseImage(s, file, url)
  }

  function Run(s: Page, actions: seq<Action>): Page
    decreases |actions|
  {
    if actions == [] then s else Run(Step(s, actions[0]), actions[1..])
  }

  /** Whatever the user does from the initial page, the step stays within 1 to 3, so the
      fourth step that the page's rendering provides for is never reached. */
  lemma {:induction false} StepFourUnreachable(s: Page, actions: seq<Action>)
    requires StepInRange(s)
    ensures StepInRange(Run(s, actions)) && Run(s, actions).step != 4
    decreases |actions|
  {
    if actions != [] {
      var t := Step(s, actions[0]);
      match actions[0] {
        case NextStep(o) => StepsStayInRange(s, o);
        case PrevStep => if BackOffered(s) { StepsStayInRange(s, OcrThrown("", "")); }
        case ResetAnalysis =>
        case RemoveImageAction =>
        case ChangeField(_, _) =>
        case ChooseImageAction(_, _) =>
      }
      StepFourUnreachable(t, actions[1..]);
    }
  }

  // ---------------------------------------------------------------- the component

  class Analyzer {
    var step: int
    var selectedImage: Option<string>
    var previewUrl: Option<string>
    var analyzing: bool
    var analysisResult: Option<string>
    var ocrResult: string
    var healthInfo: HealthInfo
    var requests: nat

    function State(): Page
      reads this
    {
      Page(step, selectedImage, previewUrl, analyzing, analysisResult, ocrResult, healthInfo, requests)
    }

    ghost predicate Valid()
      reads this
    {
      StepInRange(State()) && !analyzing
    }

    constructor ()
      ensures Valid() && State() == Initial
    {
      step := 1;
      selectedImage := None;
      previewUrl := None;
      analyzing := false;
      analysisResult := None;
      ocrResult := "";
      healthInfo := HealthInfo("", "", "", "");
      requests := 0;
    }

    method HandleNextStep(o: OcrOutcome)
      requires Valid()
      modifies this
      ensures Valid() && State() == Next(old(State()), o)
    {
      StepsStayInRange(State(), o);
      if step == 1 && previewUrl.None? {
        return;
      }
      if step == 2 && (healthInfo.age == "" || healthInfo.gender == "") {
        return;
      }
      if step == 3 {
        HandleAnalyzeFood(o);
        return;
      }
      step := step + 1;
    }

    method HandleAnalyzeFood(o: OcrOutcome)
      modifies this
      ensures State() == Analyze(old(State()), o)
    {
      analyzing := true;
      requests := requests + 1;
      match o {
        case OcrAnswered(success, message, text) =>
          if success {
            ocrResult := if text != "" then text else "No text detected";
          } else {
            ocrResult := "Error: " + (if message != "" then message else "Unknown error");
          }
        case OcrThrown(responseMessage, errorMessage) =>
          ocrResult := "Error during OCR: " + (if responseMessage != "" then responseMessage else errorMessage);
      }
      analyzing := false;
    }

    /** Called only from the "Back" button. */
    method HandlePrevStep()
      requires Valid() && BackOffered(State())
      modifies this
      ensures Valid() && State() == Prev(old(State()))
    {
      step := step - 1;
    }

    method ResetAnalysis()
      requires Valid()
      modifies this
      ensures Valid() && State() == Reset(old(State()))
    {
      selectedImage := None;
      previewUrl := None;
      analysisResult := None;
      step := 1;
    }

    method HandleRemoveImage()
      requires Valid()
      modifies this
      ensures Valid() && State() == RemoveImage(old(State()))
    {
      selectedImage := None;
      previewUrl := None;
    }

    method HandleHealthInfoChange(f: HealthField, value: string)
      requires Valid()
      modifies this
      ensures Valid() && State() == old(State()).(healthInfo := WithField(old(healthInfo), f, value))
    {
      healthInfo := WithField(healthInfo, f, value);
    }

    method HandleImageChange(file: Option<string>, dataUrl: string)
      requires Valid()
      modifies this
      ensures Valid() && State() == ChooseImage(old(State()), file, dataUrl)
    {
      if file.Some? {
        selectedImage := file;
        previewUrl := Some(dataUrl);
      }
    }
  }
}
