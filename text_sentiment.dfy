/**
 * The text sentiment panel (frontend/src/components/food-analyzer/TextSentiment.jsx): a
 * guarded request, and two colour ladders over the compound score of the result.
 *
 * The request is a parameter: the compound score of the response, a response that is
 * not ok, or a thrown error with its message.
 */
module TextSentiment {
  import opened Wrappers
  import opened TextUtil

  /** The five score bands, from most positive to most negative. */
  datatype Band = Green | Blue | Gray | Yellow | Red

  /** The band of a score, by interval: [0.5, ∞), (0, 0.5), {0}, (-0.5, 0), (-∞, -0.5]. */
  function BandOf(c: real): (b: Band)
    ensures b == Green <==> c >= 0.5
    ensures b == Blue <==> 0.0 < c < 0.5
    ensures b == Gray <==> c == 0.0
    ensures b == Yellow <==> -0.5 < c < 0.0
    ensures b == Red <==> c <= -0.5
  {
    if c >= 0.5 then Green
    else if 0.0 < c then Blue
    else if c == 0.0 then Gray
    else if -0.5 < c then Yellow
    else Red
  }

  /** getSentimentColor (TextSentiment.jsx:44-53); no result gives the default. */
  function BackgroundColor(compound: Option<real>): string
  {
    if compound.None? then "bg-gray-100"
    else
      var c := compound.value;
      if c >= 0.5 then "bg-green-50 border-green-200"
      else if c > 0.0 && c < 0.5 then "bg-blue-50 border-blue-200"
      else if c == 0.0 then "bg-gray-50 border-gray-200"
      else if c > -0.5 then "bg-yellow-50 border-yellow-200"
      else "bg-red-50 border-red-200"
  }

  /** getSentimentTextColor (TextSentiment.jsx:56-65); no result gives the default. */
  function TextColor(compound: Option<real>): string
  {
    if compound.None? then "text-gray-800"
    else
      var c := compound.value;
      if c >= 0.5 then "text-green-700"
      else if c > 0.0 && c < 0.5 then "text-blue-700"
      else if c == 0.0 then "text-gray-700"
      else if c > -0.5 then "text-yellow-700"
      else "text-red-700"
  }

  function BandBackground(b: Band): string
  {
    match b
    case Green => "bg-green-50 border-green-200"
    case Blue => "bg-blue-50 border-blue-200"
    case Gray => "bg-gray-50 border-gray-200"
    case Yellow => "bg-yellow-50 border-yellow-200"
    case Red => "bg-red-50 border-red-200"
  }

  function BandText(b: Band): string
  {
    match b
    case Green => "text-green-700"
    case Blue => "text-blue-700"
    case Gray => "text-gray-700"
    case Yellow => "text-yellow-700"
    case Red => "text-red-700"
  }

  // ---------------------------------------------------------------- properties

  /** Each ladder picks the colour of the score's band, so the two always agree on the
      band; with no result they give their gray defaults. */
  lemma LaddersFollowBands(compound: Option<real>)
    ensures compound.Some? ==> BackgroundColor(compound) == BandBackground(BandOf(compound.value))
    ensures compound.Some? ==> TextColor(compound) == BandText(BandOf(compound.value))
    ensures compound.None? ==> BackgroundColor(compound) == "bg-gray-100" && TextColor(compound) == "text-gray-800"
  {
  }

  /** The bands partition the scores: every score has exactly one band, and the band of
      a higher score is never more negative. */
  function Rank(b: Band): int
  {
    match b
    case Red => 0
    case Yellow => 1
    case Gray => 2
    case Blue => 3
    case Green => 4
  }

  lemma BandsOrdered(a: real, b: real)
    requires a <= b
    ensures Rank(BandOf(a)) <= Rank(BandOf(b))
  {
  }

  // ---------------------------------------------------------------- the request

  datatype TextOutcome = Scored(compound: real) | NotOk | Thrown(message: string)

  const EmptyInputError := "Please enter some text to analyze"
  const NotOkMessage := "Failed to analyze sentiment"

  datatype Panel = Panel(inputText: string, result: Option<real>, loading: bool, error: string, requests: nat)

  /** What the response or the error of a request leaves (TextSentiment.jsx:18-37): a
      failure keeps the previous result. */
  function Received(s: Panel, o: TextOutcome): Panel
  {
    match o
    case Scored(c) => s.(result := Some(c))
    case NotOk => s.(error := NotOkMessage)
    case Thrown(message) => s.(error := if message != "" then message else "Something went wrong")
  }

  /** analyzeSentiment (TextSentiment.jsx:9-41). */
  function Analyze(s: Panel, o: TextOutcome): Panel
  {
    if JsBlank(s.inputText) then s.(error := EmptyInputError)
    else Received(s.(requests := s.requests + 1, loading := true, error := ""), o).(loading := false)
  }

  /** Blank input only sets the error; nothing is sent. */
  lemma BlankInputSendsNothing(s: Panel, o: TextOutcome)
    requires JsTrim(s.inputText) == ""
    ensures Analyze(s, o) == s.(error := EmptyInputError)
  {
    JsBlankIffTrimmedEmpty(s.inputText);
  }

  /** Otherwise one request is sent and loading is over afterwards; a score replaces the
      result and clears the error, a failure sets a non-empty error and keeps the old
      result. */
  lemma AnalyzeOutcome(s: Panel, o: TextOutcome)
    requires JsTrim(s.inputText) != ""
    ensures var t := Analyze(s, o);
      && !t.loading && t.requests == s.requests + 1 && t.inputText == s.inputText
      && (o.Scored? ==> t.result == Some(o.compound) && t.error == "")
      && (!o.Scored? ==> t.result == s.result && t.error != "")
  {
    JsBlankIffTrimmedEmpty(s.inputText);
    if o.NotOk? {
      assert Analyze(s, o).error[|NotOkMessage| - 1] == 't';
    }
  }

  // ---------------------------------------------------------------- the component

  class SentimentPanel {
    var inputText: string
    var result: Option<real>
    var loading: bool
    var error: string
    var requests: nat

    function State(): Panel
      reads this
    {
      Panel(inputText, result, loading, error, requests)
    }

    constructor ()
      ensures State() == Panel("", None, false, "", 0)
    {
      inputText := "";
      result := None;
      loading := false;
      error := "";
      requests := 0;
    }

    method AnalyzeSentiment(o: TextOutcome)
      modifies this
      ensures State() == Analyze(old(State()), o)
    {
      if JsBlank(inputText) {
        error := EmptyInputError;
        return;
      }
      loading := true;
      error := "";
      requests := requests + 1;
      Receive(o);
      loading := false;
    }

    /** The try and catch of analyzeSentiment. */
    method Receive(o: TextOutcome)
      modifies this
      ensures State() == Received(old(State()), o)
    {
      match o {
        case Scored(c) =>
          result := Some(c);
        case NotOk =>
          error := NotOkMessage;
        case Thrown(message) =>
          error := if message != "" then message else "Something went wrong";
      }
    }

    method SetInputText(text: string)
      modifies this
      ensures State() == old(State()).(inputText := text)
    {
      inputText := text;
    }
  }
}
