/**
 * `Mkvextract` from Sources/MediaTools/Mkvextract.swift: the older
 * mkvextract command line. Only chapter extraction is rendered; a tracks
 * extraction contributes no tokens (a debug build stops at an assertion
 * there instead).
 */
module Mkvextract {
  import opened Wrappers
  import opened Arguments
  import MkvExtract

  /** `TrackExtractionOption.TrackOutput`. */
  datatype TrackOutput = TrackOutput(tid: int, filename: string)

  /** `MkvextractExtractionMode` with its two option records folded into the cases. */
  datatype ExtractionMode =
    | Tracks(outputs: seq<TrackOutput>)
    | Chapter(simple: bool, outputFilename: string)

  /** The tokens one extraction contributes. */
  function ExtractionTokens(m: ExtractionMode): (r: seq<string>)
  {
    match m
    case Chapter(simple, outputFilename) => ["chapters"] + FlagTokens("-s", simple) + [outputFilename]
    case Tracks(_) => []
  }

  /** The tokens of a list of extractions, in list order. */
  function ExtractionsTokens(extractions: seq<ExtractionMode>): (r: seq<string>)
  {
    if |extractions| == 0 then []
    else ExtractionsTokens(extractions[..|extractions| - 1]) + ExtractionTokens(extractions[|extractions| - 1])
  }

  /** `arguments`: the file path, then every extraction's tokens. */
  function ArgumentTokens(filepath: string, extractions: seq<ExtractionMode>): (r: seq<string>)
  {
    [filepath] + ExtractionsTokens(extractions)
  }

  /** A chapter extraction is `chapters`, `-s` exactly when simple, then the output file name. */
  lemma ChapterTokens(simple: bool, outputFilename: string)
    ensures var r := ExtractionTokens(Chapter(simple, outputFilename));
      && |r| == (if simple then 3 else 2)
      && r[0] == "chapters" && r[|r| - 1] == outputFilename
      && (simple <==> r[1] == "-s" && |r| == 3)
  {
  }

  /** The chapter extractions of a list, in order. */
  function ChapterExtractions(extractions: seq<ExtractionMode>): (r: seq<ExtractionMode>)
    ensures |r| <= |extractions|
    ensures forall i :: 0 <= i < |r| ==> r[i].Chapter? && r[i] in extractions
    ensures (forall i :: 0 <= i < |extractions| ==> extractions[i].Chapter?) ==> r == extractions
  {
    if |extractions| == 0 then []
    else
      var init := ChapterExtractions(extractions[..|extractions| - 1]);
      var last := extractions[|extractions| - 1];
      if last.Chapter? then init + [last] else init
  }

  /** Tracks extractions are dropped: the tokens are those of the chapter extractions alone. */
  lemma {:induction false} TracksIgnored(extractions: seq<ExtractionMode>)
    ensures ExtractionsTokens(extractions) == ExtractionsTokens(ChapterExtractions(extractions))
  {
    if |extractions| > 0 {
      var init := extractions[..|extractions| - 1];
      var last := extractions[|extractions| - 1];
      TracksIgnored(init);
      var chapters := ChapterExtractions(init);
      if last.Chapter? {
        assert (chapters + [last])[..|chapters|] == chapters;
      } else {
        assert ExtractionTokens(last) == [];
      }
    }
  }

  /** The newer variant's extraction for an older one. */
  function Newer(m: ExtractionMode): (r: MkvExtract.ExtractionMode)
  {
    match m
    case Chapter(simple, outputFilename) => MkvExtract.Chapter(simple, None, outputFilename)
    case Tracks(outputs) => MkvExtract.Tracks(seq(|outputs|, i requires 0 <= i < |outputs| => MkvExtract.TrackOutput(outputs[i].tid, outputs[i].filename)))
  }

  /**
   * A chapter extraction renders as in the newer variant with no simple-mode
   * language; a tracks extraction agrees only when it has no outputs.
   */
  lemma AgreesWithNewer(m: ExtractionMode)
    ensures m.Chapter? ==> ExtractionTokens(m) == MkvExtract.ExtractionTokens(Newer(m))
    ensures m.Tracks? ==> (ExtractionTokens(m) == MkvExtract.ExtractionTokens(Newer(m)) <==> |m.outputs| == 0)
  {
    if m.Chapter? {
      MkvExtract.ChapterTokens(m.simple, None, m.outputFilename);
    } else {
      MkvExtract.TrackLikeTokens(Newer(m));
    }
  }

  /** `Mkvextract.arguments`. */
  method CommandArguments(filepath: string, extractions: seq<ExtractionMode>) returns (arg: seq<string>)
    ensures arg == ArgumentTokens(filepath, extractions)
    ensures |arg| >= 1 && arg[0] == filepath
  {
    arg := [filepath];
    for i := 0 to |extractions|
      invariant arg == [filepath] + ExtractionsTokens(extractions[..i])
    {
      ExtractionsStep(extractions, i);
      AppendAssociates([filepath], ExtractionsTokens(extractions[..i]), ExtractionTokens(extractions[i]));
      match extractions[i]
      case Chapter(simple, outputFilename) =>
        arg := arg + ["chapters"];
        if simple {
          arg := arg + ["-s"];
        }
        arg := arg + [outputFilename];
      case Tracks(_) =>
    }
    assert extractions[..|extractions|] == extractions;
  }

  lemma ExtractionsStep(extractions: seq<ExtractionMode>, i: nat)
    requires i < |extractions|
    ensures ExtractionsTokens(extractions[..i + 1]) == ExtractionsTokens(extractions[..i]) + ExtractionTokens(extractions[i])
  {
    assert extractions[..i + 1][..i] == extractions[..i];
  }
}
