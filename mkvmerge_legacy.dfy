/**
 * The older mkvmerge command line of Sources/MediaTools/Mkvmerge.swift
 * (type `Mkvmerge`), kept beside the newer `MkvMerge`.  Its track
 * selections, track orders and spill rule are the newer file's (the
 * definitions are shared); its global options are appended by hand to an
 * array and follow different rules: `--title` is always present, and empty
 * track orders, chapter languages and chapter files are skipped.
 */
module Mkvmerge {
  import opened Wrappers
  import opened Text
  import MkvMerge

  datatype SplitMode = Size(bytes: int) | Chapters(chapters: MkvMerge.ChapterSplit)

  /** The value of `--split`: a decimal size, `chapters:all`, or `chapters:` and the numbers. */
  function SplitValue(s: SplitMode): (r: string)
    ensures s.Size? ==> r == IntToString(s.bytes)
    ensures s.Chapters? && s.chapters.AllChapters? ==> r == "chapters:all"
    ensures s.Chapters? && s.chapters.Numbers? ==> r == "chapters:" + JoinInts(s.chapters.numbers, ",")
  {
    match s
    case Size(bytes) => IntToString(bytes)
    case Chapters(AllChapters) => "chapters:all"
    case Chapters(Numbers(numbers)) => "chapters:" + JoinInts(numbers, ",")
  }

  /** The legacy split renders exactly as the newer `Split` with the same case. */
  lemma SplitAgreesWithNewer(s: SplitMode)
    ensures SplitValue(s) == MkvMerge.SplitArgument(if s.Size? then MkvMerge.Size(s.bytes) else MkvMerge.Chapters(s.chapters))
  {
  }

  datatype GlobalOption = GlobalOption(
    verbose: bool,
    quiet: bool,
    webm: bool,
    title: string,
    defaultLanguage: Option<string>,
    chapterLanguage: Option<string>,
    chapterFile: Option<string>,
    trackOrder: Option<seq<MkvMerge.TrackOrder>>,
    split: Option<SplitMode>)

  /** `GlobalOption(quiet:)` with every other parameter at its default; the title defaults to `""`. */
  function DefaultGlobalOption(quiet: bool): GlobalOption
  {
    GlobalOption(false, quiet, false, "", None, None, None, None, None)
  }

  /** `[flag, value]` when the value is present and non-empty, nothing otherwise. */
  function NonEmptyTokens(flag: string, value: Option<string>): (r: seq<string>)
    ensures r == [] <==> value.None? || value.value == ""
    ensures r != [] ==> r == [flag, value.value]
  {
    if value.Some? && value.value != "" then [flag, value.value] else []
  }

  /** The switches and the title that open the legacy `GlobalOption.arguments`. */
  function HeadTokens(g: GlobalOption): seq<string>
  {
    (if g.verbose then ["--verbose"] else [])
    + (if g.quiet then ["--quiet"] else [])
    + (if g.webm then ["--webm"] else [])
    + ["--title", g.title]
  }

  function DefaultLanguageTokens(g: GlobalOption): seq<string>
  {
    match g.defaultLanguage case Some(l) => ["--default-language", l] case None => []
  }

  /** `--track-order` only for a present, non-empty list. */
  function TrackOrderTokens(g: GlobalOption): seq<string>
  {
    match g.trackOrder
    case Some(to) => if |to| > 0 then ["--track-order", MkvMerge.TrackOrderList(to)] else []
    case None => []
  }

  function SplitTokens(g: GlobalOption): seq<string>
  {
    match g.split case Some(s) => ["--split", SplitValue(s)] case None => []
  }

  /** `prefix` followed by the optional values of the legacy `GlobalOption.arguments`. */
  function AppendValueTokens(prefix: seq<string>, g: GlobalOption): seq<string>
  {
    prefix + DefaultLanguageTokens(g) + TrackOrderTokens(g)
    + NonEmptyTokens("--chapter-language", g.chapterLanguage)
    + NonEmptyTokens("--chapters", g.chapterFile)
    + SplitTokens(g)
  }

  /** The tokens of the legacy `GlobalOption.arguments`. */
  function GlobalTokens(g: GlobalOption): seq<string>
  {
    AppendValueTokens(HeadTokens(g), g)
  }

  /** `GlobalOption.arguments`: conditional appends to a local array `r`. */
  method GlobalArguments(g: GlobalOption) returns (r: seq<string>)
    ensures r == GlobalTokens(g)
  {
    r := [];
    if g.verbose {
      r := r + ["--verbose"];
    }
    if g.quiet {
      r := r + ["--quiet"];
    }
    if g.webm {
      r := r + ["--webm"];
    }
    r := r + ["--title", g.title];
    assert r == HeadTokens(g);
    r := AppendValues(r, g);
  }

  method AppendValues(prefix: seq<string>, g: GlobalOption) returns (r: seq<string>)
    ensures r == AppendValueTokens(prefix, g)
  {
    r := prefix;
    if g.defaultLanguage.Some? {
      r := r + ["--default-language", g.defaultLanguage.value];
    }
    assert r == prefix + DefaultLanguageTokens(g);
    ghost var languages := r;
    if g.trackOrder.Some? && |g.trackOrder.value| > 0 {
      r := r + ["--track-order", MkvMerge.TrackOrderList(g.trackOrder.value)];
    }
    assert r == languages + TrackOrderTokens(g);
    ghost var ordered := r;
    if g.chapterLanguage.Some? && g.chapterLanguage.value != "" {
      r := r + ["--chapter-language", g.chapterLanguage.value];
    }
    assert r == ordered + NonEmptyTokens("--chapter-language", g.chapterLanguage);
    ghost var chapterLanguage := r;
    if g.chapterFile.Some? && g.chapterFile.value != "" {
      r := r + ["--chapters", g.chapterFile.value];
    }
    assert r == chapterLanguage + NonEmptyTokens("--chapters", g.chapterFile);
    ghost var chapters := r;
    if g.split.Some? {
      r := r + ["--split", SplitValue(g.split.value)];
    }
    assert r == chapters + SplitTokens(g);
  }

  /** The three switches come first, in order, each exactly when set; `--title` follows them, even when empty. */
  lemma GlobalTokensStart(g: GlobalOption)
    ensures var switches := (if g.verbose then ["--verbose"] else []) + (if g.quiet then ["--quiet"] else [])
                            + (if g.webm then ["--webm"] else []);
            var r := GlobalTokens(g);
            |r| >= |switches| + 2 && r[..|switches|] == switches
            && r[|switches|] == "--title" && r[|switches| + 1] == g.title
  {
  }

  /** Empty lists and names are dropped where the newer file would render them with an empty value. */
  lemma EmptyValuesDropped(quiet: bool)
    ensures GlobalTokens(DefaultGlobalOption(quiet)) == (if quiet then ["--quiet"] else []) + ["--title", ""]
    ensures GlobalTokens(DefaultGlobalOption(false).(trackOrder := Some([]))) == ["--title", ""]
    ensures GlobalTokens(DefaultGlobalOption(false).(chapterLanguage := Some(""), chapterFile := Some(""))) == ["--title", ""]
    ensures MkvMerge.GlobalTokens(MkvMerge.DefaultGlobalOption(false).(trackOrder := Some([]))) == ["--track-order", ""]
  {
    LegacyDefaults(quiet);
    LegacyEmptyTrackOrder();
    LegacyEmptyChapterValues();
    MkvMerge.EmptyTrackOrder();
  }

  lemma LegacyDefaults(quiet: bool)
    ensures GlobalTokens(DefaultGlobalOption(quiet)) == (if quiet then ["--quiet"] else []) + ["--title", ""]
  {
  }

  lemma LegacyEmptyTrackOrder()
    ensures GlobalTokens(DefaultGlobalOption(false).(trackOrder := Some([]))) == ["--title", ""]
  {
  }

  lemma LegacyEmptyChapterValues()
    ensures GlobalTokens(DefaultGlobalOption(false).(chapterLanguage := Some(""), chapterFile := Some(""))) == ["--title", ""]
  {
  }

  datatype InputOption =
    | AudioTracks(select: MkvMerge.TrackSelect)
    | VideoTracks(select: MkvMerge.TrackSelect)
    | SubtitleTracks(select: MkvMerge.TrackSelect)
    | ButtonTracks(select: MkvMerge.TrackSelect)
    | TrackTags(select: MkvMerge.TrackSelect)
    | Attachments(select: MkvMerge.TrackSelect)
    | NoChapters
    | NoGlobalTags
    | TrackName(tid: int, name: string)
    | Language(tid: int, language: string)

  /** The newer option with the same meaning; the legacy file has no `flag` case. */
  function Newer(o: InputOption): MkvMerge.InputOption
  {
    match o
    case AudioTracks(v) => MkvMerge.AudioTracks(v)
    case VideoTracks(v) => MkvMerge.VideoTracks(v)
    case SubtitleTracks(v) => MkvMerge.SubtitleTracks(v)
    case ButtonTracks(v) => MkvMerge.ButtonTracks(v)
    case TrackTags(v) => MkvMerge.TrackTags(v)
    case Attachments(v) => MkvMerge.Attachments(v)
    case NoChapters => MkvMerge.NoChapters
    case NoGlobalTags => MkvMerge.NoGlobalTags
    case TrackName(tid, name) => MkvMerge.TrackName(tid, name)
    case Language(tid, lang) => MkvMerge.Language(tid, lang)
  }

  /** `InputOption.arguments` of the legacy file. */
  function OptionArguments(o: InputOption): (r: seq<string>)
    ensures r == MkvMerge.OptionArguments(Newer(o))
  {
    match o
    case AudioTracks(v) => MkvMerge.SelectionTokens("--audio-tracks", "--no-audio", v)
    case VideoTracks(v) => MkvMerge.SelectionTokens("--video-tracks", "--no-video", v)
    case SubtitleTracks(v) => MkvMerge.SelectionTokens("--subtitle-tracks", "--no-subtitles", v)
    case ButtonTracks(v) => MkvMerge.SelectionTokens("--button-tracks", "--no-buttons", v)
    case TrackTags(v) => MkvMerge.SelectionTokens("--track-tags", "--no-track-tags", v)
    case Attachments(v) => MkvMerge.SelectionTokens("--attachments", "--no-attachments", v)
    case NoChapters => ["--no-chapters"]
    case NoGlobalTags => ["--no-global-tags"]
    case TrackName(tid, name) => ["--track-name", IntToString(tid) + ":" + name]
    case Language(tid, lang) => ["--language", IntToString(tid) + ":" + lang]
  }

  function OptionsTokens(options: seq<InputOption>): seq<string>
  {
    if |options| == 0 then [] else OptionsTokens(options[..|options| - 1]) + OptionArguments(options[|options| - 1])
  }

  datatype Input = Input(file: string, append: bool, lookForOtherParts: bool, options: seq<InputOption>)

  function NewerOptions(options: seq<InputOption>): (r: seq<MkvMerge.InputOption>)
    ensures |r| == |options|
    ensures forall i :: 0 <= i < |options| ==> r[i] == Newer(options[i])
  {
    seq(|options|, i requires 0 <= i < |options| => Newer(options[i]))
  }

  function NewerInput(input: Input): MkvMerge.Input
  {
    MkvMerge.Input(input.file, input.append, input.lookForOtherParts, NewerOptions(input.options))
  }

  function InputTokens(input: Input): seq<string>
  {
    OptionsTokens(input.options) + (if input.append then ["+"] else []) + (if !input.lookForOtherParts then ["="] else []) + [input.file]
  }

  /** `Input.arguments`: options, then `+` and `=` markers appended to `r`, then the file. */
  method InputArguments(input: Input) returns (r: seq<string>)
    ensures r == InputTokens(input)
  {
    r := OptionsTokens(input.options);
    if input.append {
      r := r + ["+"];
    }
    if !input.lookForOtherParts {
      r := r + ["="];
    }
    r := r + [input.file];
  }

  lemma {:induction false} OptionsAgree(options: seq<InputOption>)
    ensures OptionsTokens(options) == MkvMerge.OptionsTokens(NewerOptions(options))
  {
    if |options| > 0 {
      var init := options[..|options| - 1];
      OptionsAgree(init);
      assert NewerOptions(options)[..|options| - 1] == NewerOptions(init);
    }
  }

  /** An input renders exactly as the newer file renders the same input. */
  lemma InputAgreesWithNewer(input: Input)
    ensures InputTokens(input) == MkvMerge.InputTokens(NewerInput(input))
  {
    OptionsAgree(input.options);
  }

  datatype MkvmergeCommand = MkvmergeCommand(global: GlobalOption, output: string, inputs: seq<Input>)

  function InputsTokens(inputs: seq<Input>): seq<string>
  {
    if |inputs| == 0 then [] else InputsTokens(inputs[..|inputs| - 1]) + InputTokens(inputs[|inputs| - 1])
  }

  function NaiveTokens(m: MkvmergeCommand): seq<string>
  {
    GlobalTokens(m.global) + ["--output", m.output] + InputsTokens(m.inputs)
  }

  /** `Mkvmerge.arguments`: the concatenation, through the same spill rule as the newer file. */
  function CommandArguments(m: MkvmergeCommand, optionsFilePath: string): (r: MkvMerge.Spilled)
    ensures MkvMerge.Expand(r) == NaiveTokens(m)
    ensures |r.arguments| < MkvMerge.SPILL_THRESHOLD
    ensures r.optionsFile.Some? <==> |NaiveTokens(m)| >= MkvMerge.SPILL_THRESHOLD
    ensures r.optionsFile.Some? ==> r.arguments == ["@" + optionsFilePath]
    ensures r.optionsFile.None? ==> r.arguments == NaiveTokens(m)
  {
    MkvMerge.SpillPreservesTokens(NaiveTokens(m), optionsFilePath);
    MkvMerge.Spill(NaiveTokens(m), optionsFilePath)
  }

  /** The global tokens always include `--title`, so the command line always has at least four tokens before any input's. */
  lemma NaiveTokensLength(m: MkvmergeCommand)
    ensures |NaiveTokens(m)| >= 4 + |InputsTokens(m.inputs)|
  {
  }
}
