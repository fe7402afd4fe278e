/**
 * The two decisions of the audio sentiment service (backend/python/sentiment.py) that do
 * not depend on a model: the label VADER's compound score gets, and the file-name gate
 * of /process-audio together with the name of the temporary file it saves.
 *
 * Whisper, VADER and DistilRoBERTa are not part of this model; the compound score is an
 * input.
 */
module Sentiment {
  import opened TextUtil

  datatype Label = Positive | Negative | Neutral

  /** The label of analyze_sentiment (sentiment.py:141). */
  function LabelOf(compound: real): (l: Label)
    ensures compound >= 0.05 ==> l == Positive
    ensures compound <= -0.05 ==> l == Negative
  {
    if compound >= 0.05 then Positive else if compound <= -0.05 then Negative else Neutral
  }

  function LabelName(l: Label): string
  {
    match l
    case Positive => "Positive"
    case Negative => "Negative"
    case Neutral => "Neutral"
  }

  /** Each label covers exactly one band of scores, so the three are exhaustive and
      mutually exclusive. */
  lemma LabelBands(compound: real)
    ensures LabelOf(compound) == Positive <==> compound >= 0.05
    ensures LabelOf(compound) == Negative <==> compound <= -0.05
    ensures LabelOf(compound) == Neutral <==> -0.05 < compound < 0.05
  {
  }

  /** A higher score never gets a lower label. */
  function Rank(l: Label): int
  {
    match l
    case Negative => -1
    case Neutral => 0
    case Positive => 1
  }

  lemma LabelMonotone(a: real, b: real)
    requires a <= b
    ensures Rank(LabelOf(a)) <= Rank(LabelOf(b))
  {
  }

  /** The extension test of process_audio, on the lower-cased name. */
  predicate AcceptedName(filename: string)
  {
    EndsWith(Lower(filename), ".wav") || EndsWith(Lower(filename), ".mp4")
  }

  /** The suffix every accepted upload is saved under. */
  const TempSuffix := ".wav"

  /** How process_audio starts: a 400 before anything is written, or the temporary file
      it creates. */
  datatype Upload = Rejected(status: nat, detail: string) | Saved(suffix: string)

  function ProcessAudioGate(filename: string): (u: Upload)
    ensures u.Rejected? <==> !AcceptedName(filename)
    ensures u.Rejected? ==> u == Rejected(400, "Only WAV and MP4 files are supported")
    ensures u.Saved? ==> u.suffix == TempSuffix
  {
    if !AcceptedName(filename) then Rejected(400, "Only WAV and MP4 files are supported")
    else Saved(TempSuffix)
  }

  /** transcribe_audio's test for running the WAV header check on a path (sentiment.py:118). */
  predicate WavCheckRuns(path: string)
  {
    EndsWith(Lower(path), ".wav")
  }

  /** Every accepted upload, .mp4 included, lands in a file whose name ends in ".wav", so
      the WAV header check runs on it whatever directory and stem the file gets. */
  lemma WavCheckOnEveryUpload(filename: string, stem: string)
    requires ProcessAudioGate(filename).Saved?
    ensures WavCheckRuns(stem + ProcessAudioGate(filename).suffix)
  {
    var path := stem + TempSuffix;
    assert path[|path| - 4..] == TempSuffix;
    assert Lower(path)[|path| - 4..] == Lower(TempSuffix);
  }

  /** The gate ignores case: an upper-case extension is accepted as well. */
  lemma GateIgnoresCase(stem: string)
    ensures AcceptedName(stem + ".WAV") && AcceptedName(stem + ".Mp4")
    ensures !AcceptedName(stem + ".mp3")
  {
    var a, b, c := stem + ".WAV", stem + ".Mp4", stem + ".mp3";
    assert a[|a| - 4..] == ".WAV";
    assert Lower(a)[|a| - 4..] == Lower(".WAV");
    assert b[|b| - 4..] == ".Mp4";
    assert Lower(b)[|b| - 4..] == Lower(".Mp4");
    assert c[|c| - 4..] == ".mp3";
    assert Lower(c)[|c| - 4..] == Lower(".mp3");
    assert Lower(c)[|c| - 1] == '3';
  }
}
