/**
 * `MkvExtract` from Sources/MediaTools/MkvExtract.swift: the mkvextract
 * command line for a list of extractions from one Matroska file. The
 * arguments are the file path followed by one group of tokens per
 * extraction, in list order.
 */
module MkvExtract {
  import opened Wrappers
  import opened Text
  import opened Arguments

  /** `TrackOutput`: a track (or, in attachments mode, attachment) id and the file it goes to. */
  datatype TrackOutput = TrackOutput(trackID: int, filename: string)

  /** `MkvExtractionMode`. */
  datatype ExtractionMode =
    | Tracks(outputs: seq<TrackOutput>)
    | Tags(filename: string)
    | Cuesheet(filename: string)
    | Chapter(simple: bool, language: Option<string>, filename: string)
    | Timestamps(outputs: seq<TrackOutput>)
    | Cues(outputs: seq<TrackOutput>)
    | Attachments(outputs: seq<TrackOutput>)

  /** The modes that write one file per track id. */
  predicate TrackLike(m: ExtractionMode)
  {
    m.Tracks? || m.Timestamps? || m.Cues? || m.Attachments?
  }

  /** `cliMode`: the mkvextract mode word. */
  function CliMode(m: ExtractionMode): (word: string)
    ensures |word| > 0
  {
    match m
    case Tracks(_) => "tracks"
    case Chapter(_, _, _) => "chapters"
    case Timestamps(_) => "timestamps_v2"
    case Cues(_) => "cues"
    case Tags(_) => "tags"
    case Cuesheet(_) => "cuesheet"
    case Attachments(_) => "attachments"
  }

  /** Two extractions are of the same mode, whatever their payloads. */
  predicate SameMode(a: ExtractionMode, b: ExtractionMode)
  {
    (a.Tracks? && b.Tracks?) || (a.Tags? && b.Tags?) || (a.Cuesheet? && b.Cuesheet?)
    || (a.Chapter? && b.Chapter?) || (a.Timestamps? && b.Timestamps?)
    || (a.Cues? && b.Cues?) || (a.Attachments? && b.Attachments?)
  }

  /** Every mode has its own word, so the word on the command line names the mode exactly. */
  lemma CliModeNamesMode(a: ExtractionMode, b: ExtractionMode)
    ensures CliMode(a) == CliMode(b) <==> SameMode(a, b)
  {
  }

  /** `chapter(filename:)`: a non-simple chapter extraction with no language. */
  function ChapterTo(filename: string): (m: ExtractionMode)
    ensures m.Chapter? && !m.simple && m.language.None? && m.filename == filename
  {
    Chapter(false, None, filename)
  }

  /** `"\(output.trackID):\(output.filename)"`. */
  function OutputText(o: TrackOutput): (s: string)
  {
    IntToString(o.trackID) + ":" + o.filename
  }

  /** Reads an output spec back: the id runs up to the first `:`, the rest is the file name. */
  function ReadOutput(s: string): (r: Option<TrackOutput>)
  {
    var k := IndexOf(s, ':');
    if k == |s| then None
    else
      match ParseInt(s[..k])
      case None => None
      case Some(id) => Some(TrackOutput(id, s[k + 1..]))
  }

  /** The output spec of every 64-bit id reads back, even when the file name holds a `:`. */
  lemma OutputRoundTrip(o: TrackOutput)
    requires INT64_MIN <= o.trackID <= INT64_MAX
    ensures ReadOutput(OutputText(o)) == Some(o)
  {
    var digits := IntToString(o.trackID);
    IntToStringCharacters(o.trackID);
    assert ':' !in digits;
    IndexOfConcat(digits, ":" + o.filename, ':');
    var s := OutputText(o);
    assert s == digits + (":" + o.filename);
    assert IndexOf(s, ':') == |digits|;
    assert s[..|digits|] == digits;
    assert s[|digits| + 1..] == o.filename;
    ParseIntOfIntToString(o.trackID);
  }

  /** The output specs of a list of outputs, in order. */
  function OutputTexts(outputs: seq<TrackOutput>): (r: seq<string>)
    ensures |r| == |outputs|
    ensures forall i :: 0 <= i < |outputs| ==> r[i] == OutputText(outputs[i])
  {
    seq(|outputs|, i requires 0 <= i < |outputs| => OutputText(outputs[i]))
  }

  /** The tokens one extraction contributes. */
  function ExtractionTokens(m: ExtractionMode): (r: seq<string>)
  {
    match m
    case Chapter(simple, language, filename) => ChapterGroup(simple, language, filename)
    case Tags(filename) => [CliMode(m), filename]
    case Cuesheet(filename) => [CliMode(m), filename]
    case _ => OutputsGroup(CliMode(m), m.outputs)
  }

  /** The chapter case of `arguments`. */
  function ChapterGroup(simple: bool, language: Option<string>, filename: string): (r: seq<string>)
  {
    ["chapters"] + FlagTokens("-s", simple) + (if simple then ValueTokens("--simple-language", language) else []) + [filename]
  }

  /** The track-like case of `arguments`: nothing at all when there are no outputs. */
  function OutputsGroup(word: string, outputs: seq<TrackOutput>): (r: seq<string>)
  {
    if |outputs| == 0 then [] else [word] + OutputTexts(outputs)
  }

  /** The tokens of a list of extractions, in list order. */
  function ExtractionsTokens(extractions: seq<ExtractionMode>): (r: seq<string>)
  {
    if |extractions| == 0 then []
    else ExtractionsTokens(extractions[..|extractions| - 1]) + ExtractionTokens(extractions[|extractions| - 1])
  }

  /** `arguments`: the file path, then every extraction's tokens. */
  function ArgumentTokens(filepath: string, extractions: seq<ExtractionMode>): (r: seq<string>)
  {
    [filepath] + ExtractionsTokens(extractions)
  }

  /**
   * A chapter extraction is the mode word, `-s` exactly when simple, the
   * language pair only when simple and a language is set, and the file name.
   */
  lemma ChapterTokens(simple: bool, language: Option<string>, filename: string)
    ensures var r := ExtractionTokens(Chapter(simple, language, filename));
      && (!simple ==> r == ["chapters", filename])
      && (simple && language.None? ==> r == ["chapters", "-s", filename])
      && (simple && language.Some? ==> r == ["chapters", "-s", "--simple-language", language.value, filename])
  {
  }

  /** `chapter(filename:)` extracts the chapters as XML: the mode word and the file name only. */
  lemma ChapterToTokens(filename: string)
    ensures ExtractionTokens(ChapterTo(filename)) == ["chapters", filename]
  {
    ChapterTokens(false, None, filename);
  }

  /** `tags` and `cuesheet` write the mode word and the file name. */
  lemma SingleFileTokens(m: ExtractionMode)
    requires m.Tags? || m.Cuesheet?
    ensures ExtractionTokens(m) == [CliMode(m), m.filename]
  {
  }

  /**
   * A track-like mode with no outputs contributes nothing; otherwise the mode
   * word and one readable `id:filename` token per output, in order.
   */
  lemma TrackLikeTokens(m: ExtractionMode)
    requires TrackLike(m)
    ensures |m.outputs| == 0 ==> ExtractionTokens(m) == []
    ensures |m.outputs| > 0 ==>
      && |ExtractionTokens(m)| == 1 + |m.outputs|
      && ExtractionTokens(m)[0] == CliMode(m)
      && forall i :: 0 <= i < |m.outputs| ==> ExtractionTokens(m)[i + 1] == OutputText(m.outputs[i])
    ensures forall i :: 0 <= i < |m.outputs| && INT64_MIN <= m.outputs[i].trackID <= INT64_MAX ==>
      ReadOutput(ExtractionTokens(m)[i + 1]) == Some(m.outputs[i])
  {
    assert ExtractionTokens(m) == OutputsGroup(CliMode(m), m.outputs);
    OutputsGroupTokens(CliMode(m), m.outputs);
  }

  lemma OutputsGroupTokens(word: string, outputs: seq<TrackOutput>)
    ensures |outputs| == 0 ==> OutputsGroup(word, outputs) == []
    ensures |outputs| > 0 ==>
      && |OutputsGroup(word, outputs)| == 1 + |outputs|
      && OutputsGroup(word, outputs)[0] == word
      && forall i :: 0 <= i < |outputs| ==> OutputsGroup(word, outputs)[i + 1] == OutputText(outputs[i])
    ensures forall i :: 0 <= i < |outputs| && INT64_MIN <= outputs[i].trackID <= INT64_MAX ==>
      ReadOutput(OutputsGroup(word, outputs)[i + 1]) == Some(outputs[i])
  {
    var r := OutputsGroup(word, outputs);
    forall i | 0 <= i < |outputs| && INT64_MIN <= outputs[i].trackID <= INT64_MAX
      ensures ReadOutput(r[i + 1]) == Some(outputs[i])
    {
      assert r[i + 1] == OutputText(outputs[i]);
      OutputRoundTrip(outputs[i]);
    }
  }

  /** Extractions keep their order: the tokens of two lists run one after the other. */
  lemma {:induction false} ExtractionsConcat(a: seq<ExtractionMode>, b: seq<ExtractionMode>)
    ensures ExtractionsTokens(a + b) == ExtractionsTokens(a) + ExtractionsTokens(b)
    decreases |b|
  {
    if |b| == 0 {
      assert a + b == a;
    } else {
      var init := b[..|b| - 1];
      assert (a + b)[..|a + b| - 1] == a + init;
      assert (a + b)[|a + b| - 1] == b[|b| - 1];
      ExtractionsConcat(a, init);
      AppendAssociates(ExtractionsTokens(a), ExtractionsTokens(init), ExtractionTokens(b[|b| - 1]));
    }
  }

  /** With no extractions the command line is the file path alone. */
  lemma NoExtractions(filepath: string)
    ensures ArgumentTokens(filepath, []) == [filepath]
  {
  }

  /** The tokens of one extraction, appended to `arg`. */
  method AppendExtraction(arg: seq<string>, m: ExtractionMode) returns (r: seq<string>)
    ensures r == arg + ExtractionTokens(m)
  {
    match m
    case Chapter(simple, language, filename) =>
      r := AppendChapter(arg, simple, language, filename);
    case Tags(filename) =>
      r := arg + [CliMode(m)];
      r := r + [filename];
    case Cuesheet(filename) =>
      r := arg + [CliMode(m)];
      r := r + [filename];
    case _ =>
      r := AppendOutputs(arg, CliMode(m), m.outputs);
  }

  /** The chapter case: mode word, `-s` and the language pair when simple, then the file name. */
  method AppendChapter(arg: seq<string>, simple: bool, language: Option<string>, filename: string) returns (r: seq<string>)
    ensures r == arg + ChapterGroup(simple, language, filename)
  {
    r := arg + ["chapters"];
    if simple {
      r := r + ["-s"];
      if language.Some? {
        r := r + ["--simple-language"];
        r := r + [language.value];
      }
    }
    r := r + [filename];
  }

  /** The track-like case: returns early when there are no outputs, else one token per output. */
  method AppendOutputs(arg: seq<string>, word: string, outputs: seq<TrackOutput>) returns (r: seq<string>)
    ensures r == arg + OutputsGroup(word, outputs)
  {
    r := arg;
    if |outputs| == 0 {
      return;
    }
    r := AppendOutputTexts(r + [word], outputs);
    AppendAssociates(arg, [word], OutputTexts(outputs));
  }

  /** `outputs.forEach { arg.append("\(trackID):\(filename)") }`. */
  method AppendOutputTexts(head: seq<string>, outputs: seq<TrackOutput>) returns (r: seq<string>)
    ensures r == head + OutputTexts(outputs)
  {
    r := head;
    ghost var texts := OutputTexts(outputs);
    for j := 0 to |outputs|
      invariant r == head + texts[..j]
    {
      assert texts[..j + 1] == texts[..j] + [texts[j]];
      r := r + [OutputText(outputs[j])];
    }
    assert texts[..|outputs|] == texts;
  }

  /** `MkvExtract.arguments`. */
  method CommandArguments(filepath: string, extractions: seq<ExtractionMode>) returns (arg: seq<string>)
    ensures arg == ArgumentTokens(filepath, extractions)
    ensures |arg| >= 1 && arg[0] == filepath
  {
    arg := [filepath];
    for i := 0 to |extractions|
      invariant arg == [filepath] + ExtractionsTokens(extractions[..i])
    {
      ExtractionsStep(extractions, i);
      AppendAssociates([filepath], ExtractionsTokens(extractions[..i]), ExtractionTokens(extractions[i]));
      arg := AppendExtraction(arg, extractions[i]);
    }
    assert extractions[..|extractions|] == extractions;
  }

  lemma ExtractionsStep(extractions: seq<ExtractionMode>, i: nat)
    requires i < |extractions|
    ensures ExtractionsTokens(extractions[..i + 1]) == ExtractionsTokens(extractions[..i]) + ExtractionTokens(extractions[i])
  {
    assert extractions[..i + 1][..i] == extractions[..i];
  }
}
