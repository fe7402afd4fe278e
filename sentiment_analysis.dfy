/**
 * The audio sentiment page (frontend/src/components/food-analyzer/SentimentAnalysis.jsx):
 * a file chooser that accepts eight audio extensions, a submit that sends the file to the
 * sentiment service, and the colour of the label that comes back.
 *
 * The request is a parameter: the response, or which of the three kinds of failure
 * axios reports. Upload progress events are left out; only the reset to 0 is modelled.
 */
module SentimentAnalysis {
  import opened Wrappers
  import opened TextUtil
  import Sentiment

  /** The accepted extensions, in the order the page lists them (SentimentAnalysis.jsx:18-27). */
  const SupportedFormats := [".wav", ".mp3", ".mp4", ".m4a", ".m4p", ".aac", ".ogg", ".flac"]

  /** `name.split(".").pop()`: the text after the last dot, or the whole name. */
  function LastPart(name: string): string
  {
    var parts := Split(name, '.');
    parts[|parts| - 1]
  }

  /** The extension the page tests (SentimentAnalysis.jsx:33). */
  function FileExt(name: string): string
  {
    "." + Lower(LastPart(name))
  }

  predicate Supported(name: string)
  {
    FileExt(name) in SupportedFormats
  }

  const UnsupportedError := "Unsupported file format. Supported formats: " + Join(SupportedFormats, ", ")
  const NoFileError := "Please select an audio file"
  const NoResponseError := "No response from server. Check if your backend is running and accessible."

  lemma {:induction false} SplitLast(s: string, c: char, t: string)
    requires c !in t
    ensures var parts := Split(s + [c] + t, c);
      |parts| >= 2 && parts[|parts| - 1] == t
  {
    if s == [] {
      assert s + [c] + t == [c] + t;
      assert ([c] + t)[1..] == t;
      SplitWithout(t, c);
    } else {
      var whole := s + [c] + t;
      assert whole[1..] == s[1..] + [c] + t;
      SplitLast(s[1..], c, t);
    }
  }

  /** The extension is what follows the last dot, lower-cased, whatever comes before. */
  lemma ExtensionAfterLastDot(stem: string, ext: string)
    requires '.' !in ext
    ensures FileExt(stem + "." + ext) == "." + Lower(ext)
    ensures Supported(stem + "." + ext) <==> "." + Lower(ext) in SupportedFormats
  {
    SplitLast(stem, '.', ext);
  }

  /** A name without a dot is its own extension, so a bare "wav" is accepted. */
  lemma DotlessName(name: string)
    requires '.' !in name
    ensures FileExt(name) == "." + Lower(name)
    ensures Lower(name) == "wav" ==> Supported(name)
  {
    SplitWithout(name, '.');
    if Lower(name) == "wav" {
      assert FileExt(name) == SupportedFormats[0];
    }
  }

  /** The page's list is wider than the service's gate: an ".mp3" name, in any case,
      passes the page's test and is then refused by the service. */
  lemma PageAcceptsMoreThanService(stem: string, ext: string)
    requires '.' !in ext && Lower(ext) == "mp3"
    ensures Supported(stem + "." + ext)
    ensures !Sentiment.AcceptedName(stem + "." + ext)
  {
    ExtensionAfterLastDot(stem, ext);
    var name := stem + "." + ext;
    assert name[|name| - 1] == ext[2];
    assert Lower(name)[|name| - 1] == '3';
    assert "." + Lower(ext) == SupportedFormats[1];
  }

  // ---------------------------------------------------------------- accept attribute

  /** One entry of the accept attribute (SentimentAnalysis.jsx:143). */
  function AcceptEntry(ext: string): string
    requires |ext| >= 1
  {
    ext + ",audio/" + ext[1..] + ",video/" + ext[1..]
  }

  predicate WellFormed(formats: seq<string>)
  {
    forall k :: 0 <= k < |formats| ==> |formats[k]| >= 1 && ',' !in formats[k]
  }

  /** acceptAttribute (SentimentAnalysis.jsx:142-144), for a list of extensions. */
  function AcceptAttribute(formats: seq<string>): string
    requires WellFormed(formats)
  {
    Join(Entries(formats), ",")
  }

  /** The entries the accept attribute should list: three per extension, in order. */
  function Triples(formats: seq<string>): (r: seq<string>)
    requires WellFormed(formats)
    ensures |r| == 3 * |formats|
  {
    if formats == [] then []
    else [formats[0], "audio/" + formats[0][1..], "video/" + formats[0][1..]] + Triples(formats[1..])
  }

  /** Joining a list that starts with `x`. */
  lemma JoinCons(x: string, rest: seq<string>, sep: string)
    ensures Join([x] + rest, sep) == if rest == [] then x else x + sep + Join(rest, sep)
  {
    assert ([x] + rest)[1..] == rest;
  }

  lemma JoinTriple(a: string, b: string, c: string, rest: seq<string>)
    ensures Join([a, b, c] + rest, ",") == a + "," + b + "," + c + (if rest == [] then "" else "," + Join(rest, ","))
  {
    var tail := if rest == [] then "" else "," + Join(rest, ",");
    JoinCons(c, rest, ",");
    if rest == [] {
      assert c + tail == c;
    } else {
      Reassociate(c, ",", Join(rest, ","));
    }
    assert Join([c] + rest, ",") == c + tail;
    assert [b, c] + rest == [b] + ([c] + rest);
    JoinCons(b, [c] + rest, ",");
    assert [a, b, c] + rest == [a] + ([b, c] + rest);
    JoinCons(a, [b, c] + rest, ",");
    var A, B := a + ",", b + ",";
    assert Join([a, b, c] + rest, ",") == A + (B + (c + tail));
    Reassociate(B, c, tail);
    Reassociate(A, B + c, tail);
    Reassociate(A, B, c);
    Reassociate(A, b, ",");
  }

  lemma EntryIsTriple(f: string)
    requires |f| >= 1
    ensures AcceptEntry(f) == f + "," + ("audio/" + f[1..]) + "," + ("video/" + f[1..])
  {
  }

  function Entries(formats: seq<string>): seq<string>
    requires WellFormed(formats)
  {
    seq(|formats|, k requires 0 <= k < |formats| => AcceptEntry(formats[k]))
  }

  lemma EntriesCons(formats: seq<string>)
    requires WellFormed(formats) && formats != []
    ensures Entries(formats) == [AcceptEntry(formats[0])] + Entries(formats[1..])
  {
  }

  lemma {:induction false} AcceptAttributeJoinsTriples(formats: seq<string>)
    requires WellFormed(formats)
    ensures AcceptAttribute(formats) == Join(Triples(formats), ",")
  {
    if formats != [] {
      var f, x := formats[0], formats[0][1..];
      var rest := formats[1..];
      var e := AcceptEntry(f);
      var a, v := "audio/" + x, "video/" + x;
      EntryIsTriple(f);
      EntriesCons(formats);
      JoinCons(e, Entries(rest), ",");
      AcceptAttributeJoinsTriples(rest);
      var j := Join(Triples(rest), ",");
      assert Join(Entries(rest), ",") == j;
      assert Triples(formats) == [f, a, v] + Triples(rest);
      JoinTriple(f, a, v, Triples(rest));
      if rest != [] {
        assert AcceptAttribute(formats) == e + "," + j;
        Reassociate(e, ",", j);
        assert Join(Triples(formats), ",") == e + ("," + j);
      } else {
        assert Join(Triples(formats), ",") == e + "";
      }
    }
  }

  /** Reading the accept attribute back at its commas gives, for each extension in list
      order, the extension, its audio type and its video type. */
  lemma AcceptAttributeEntries(formats: seq<string>)
    requires WellFormed(formats) && formats != []
    ensures var parts := Split(AcceptAttribute(formats), ',');
      && |parts| == 3 * |formats|
      && forall k :: 0 <= k < |formats| ==>
           parts[3 * k] == formats[k] && parts[3 * k + 1] == "audio/" + formats[k][1..]
           && parts[3 * k + 2] == "video/" + formats[k][1..]
  {
    AcceptAttributeJoinsTriples(formats);
    TriplesAt(formats);
    SplitJoin(Triples(formats), ',');
  }

  lemma {:induction false} TriplesAt(formats: seq<string>)
    requires WellFormed(formats)
    ensures var t := Triples(formats);
      (forall k :: 0 <= k < |formats| ==>
         t[3 * k] == formats[k] && t[3 * k + 1] == "audio/" + formats[k][1..] && t[3 * k + 2] == "video/" + formats[k][1..])
      && forall j :: 0 <= j < |t| ==> ',' !in t[j]
  {
    if formats != [] {
      TriplesAt(formats[1..]);
      var t := Triples(formats);
      var rest := Triples(formats[1..]);
      forall k | 1 <= k < |formats|
        ensures t[3 * k] == formats[k] && t[3 * k + 1] == "audio/" + formats[k][1..] && t[3 * k + 2] == "video/" + formats[k][1..]
      {
        assert t[3 * k] == rest[3 * (k - 1)] && formats[1..][k - 1] == formats[k];
        assert t[3 * k + 1] == rest[3 * (k - 1) + 1];
        assert t[3 * k + 2] == rest[3 * (k - 1) + 2];
      }
      forall j | 0 <= j < |t| ensures ',' !in t[j]
      {
        if j >= 3 {
          assert t[j] == rest[j - 3];
        } else {
          assert ',' !in formats[0][1..];
        }
      }
    }
  }

  // ---------------------------------------------------------------- submit

  /** What the request gives: the response's sentiment label, or the failure axios
      reports — a response with a status and its `detail` ("" when missing), a request
      that got no response, or an error in setting up the request. */
  datatype AudioOutcome =
    | Processed(sentiment: string)
    | ServerError(status: int, detail: string)
    | NoResponse
    | RequestError(message: string)


  /** The message the catch block chooses (SentimentAnalysis.jsx:98-114). */
  function ErrorMessage(o: AudioOutcome): string
    requires !o.Processed?
  {
    match o
    case ServerError(status, detail) => "Server error (" + IntToString(status) + "): " + OrElse(detail, "Unknown error")
    case NoResponse => NoResponseError
    case RequestError(message) => "Request error: " + message
  }

  datatype AudioPage = AudioPage(
    file: Option<string>,        // the chosen file, by name
    fileName: string,
    inputValue: Option<string>,  // the file the input element holds
    isLoading: bool,
    result: Option<string>,      // the sentiment label of the last response
    error: string,
    uploadProgress: int,
    requests: nat)

  /** handleFileChange (SentimentAnalysis.jsx:29-53); choosing a file puts it in the
      input element before the handler runs. */
  function FileChange(s: AudioPage, selected: Option<string>): AudioPage
  {
    if selected.None? then s
    else if !Supported(selected.value) then
      s.(error := UnsupportedError, file := None, fileName := "", inputValue := None)
    else
      s.(inputValue := selected, file := selected, fileName := selected.value, error := "")
  }

  /** handleSubmit (SentimentAnalysis.jsx:55-119). */
  function Submit(s: AudioPage, o: AudioOutcome): AudioPage
  {
    if s.file.None? then s.(error := NoFileError)
    else
      var sent := s.(requests := s.requests + 1, isLoading := false, uploadProgress := 0);
      if o.Processed? then sent.(result := Some(o.sentiment), error := "")
      else sent.(result := None, error := ErrorMessage(o))
  }

  /** getSentimentColor (SentimentAnalysis.jsx:122-126). */
  function LabelColor(sentiment: string): string
  {
    if sentiment == "Positive" then "text-green-600"
    else if sentiment == "Negative" then "text-red-600"
    else "text-yellow-600"
  }

  // ---------------------------------------------------------------- properties

  /** A rejected file leaves nothing chosen and an error naming every format; an accepted
      one is chosen under its own name and clears the error. */
  lemma FileChangeOutcomes(s: AudioPage, name: string)
    ensures var t := FileChange(s, Some(name));
      && (!Supported(name) ==> t.file.None? && t.fileName == "" && t.inputValue.None? && t.error == UnsupportedError)
      && (Supported(name) ==> t.file == Some(name) && t.fileName == name && t.error == "")
      && t.result == s.result && t.requests == s.requests
  {
  }

  /** Without a file a submit only sets its error; no request is sent. */
  lemma SubmitNeedsFile(s: AudioPage, o: AudioOutcome)
    requires s.file.None?
    ensures Submit(s, o) == s.(error := NoFileError)
  {
  }

  /** After a submit that sent a request the page is not loading and shows no progress;
      the error names exactly the kind of failure, and a success shows its label. */
  lemma SubmitOutcome(s: AudioPage, o: AudioOutcome)
    requires s.file.Some?
    ensures var t := Submit(s, o);
      && !t.isLoading && t.uploadProgress == 0 && t.requests == s.requests + 1
      && (o.Processed? <==> t.error == "")
      && (o.Processed? ==> t.result == Some(o.sentiment))
      && (o.ServerError? ==> t.error[..14] == "Server error (")
      && (o.RequestError? ==> t.error[..15] == "Request error: ")
      && (o.NoResponse? ==> t.error == NoResponseError)
  {
  }

  /** A server error and a request error never read the same, and each reads back as
      its own status or message. */
  lemma ErrorMessagesDiffer(a: AudioOutcome, b: AudioOutcome)
    requires (a.ServerError? || a.RequestError?) && (b.ServerError? || b.RequestError?)
    requires ErrorMessage(a) == ErrorMessage(b)
    ensures a.ServerError? == b.ServerError?
    ensures a.RequestError? ==> a == b
  {
    var m := ErrorMessage(a);
    if a.ServerError? || b.ServerError? {
      assert m[0] == 'S';
    }
    if a.RequestError? {
      assert m[0] == 'R';
      assert m[15..] == a.message;
    }
  }

  /** The labels the service sends are coloured green, red and yellow. */
  lemma ServiceLabelColors(compound: real)
    ensures var c := LabelColor(Sentiment.LabelName(Sentiment.LabelOf(compound)));
      && (compound >= 0.05 <==> c == "text-green-600")
      && (compound <= -0.05 <==> c == "text-red-600")
      && (-0.05 < compound < 0.05 <==> c == "text-yellow-600")
  {
    Sentiment.LabelBands(compound);
  }

  // ---------------------------------------------------------------- the component

  class Page {
    var file: Option<string>
    var fileName: string
    var inputValue: Option<string>
    var isLoading: bool
    var result: Option<string>
    var error: string
    var uploadProgress: int
    var requests: nat

    function State(): AudioPage
      reads this
    {
      AudioPage(file, fileName, inputValue, isLoading, result, error, uploadProgress, requests)
    }

    constructor ()
      ensures State() == AudioPage(None, "", None, false, None, "", 0, 0)
    {
      file := None;
      fileName := "";
      inputValue := None;
      isLoading := false;
      result := None;
      error := "";
      uploadProgress := 0;
      requests := 0;
    }

    method HandleFileChange(selected: Option<string>)
      modifies this
      ensures State() == FileChange(old(State()), selected)
    {
      if selected.None? {
        return;
      }
      inputValue := selected;
      var fileExt := FileExt(selected.value);
      if fileExt !in SupportedFormats {
        error := UnsupportedError;
        file := None;
        fileName := "";
        inputValue := None;
        return;
      }
      file := selected;
      fileName := selected.value;
      error := "";
    }

    method HandleSubmit(o: AudioOutcome)
      modifies this
      ensures State() == Submit(old(State()), o)
    {
      if file.None? {
        error := NoFileError;
        return;
      }
      isLoading := true;
      result := None;
      error := "";
      uploadProgress := 0;
      requests := requests + 1;
      match o {
        case Processed(sentiment) =>
          result := Some(sentiment);
        case ServerError(status, detail) =>
          error := "Server error (" + IntToString(status) + "): " + OrElse(detail, "Unknown error");
        case NoResponse =>
          error := NoResponseError;
        case RequestError(message) =>
          error := "Request error: " + message;
      }
      isLoading := false;
      uploadProgress := 0;
    }
  }
}
