/**
 * The mkvmerge command line of Sources/MediaTools/MkvMerge.swift: the
 * chapter-name template language, split and chapter-generation modes, track
 * selections, per-input and global options, and the rule that spills a long
 * command line into an options file.
 *
 * The options file itself (a fresh `<uuid>.json` in the temporary directory)
 * is not written: its path is a parameter and its content, the token list,
 * is returned beside the arguments.  Language sets are sequences in the
 * order Swift happens to iterate them.
 */
module MkvMerge {
  import opened Wrappers
  import opened Text
  import opened Arguments
  import Timestamps

  // ---------------------------------------------------------------- chapter name templates

  datatype ChapterTimestampFormat =
    | Hours | HoursPadded | Minutes | MinutesPadded | Seconds | SecondsPadded
    | NanosecondsPadded | Nanoseconds(padding: int) | RawFormat(raw: string)

  /** `min(9, max(1, padding))`. */
  function ClampPadding(padding: int): (p: nat)
    ensures 1 <= p <= 9
    ensures 1 <= padding <= 9 ==> p == padding
    ensures padding < 1 ==> p == 1
    ensures padding > 9 ==> p == 9
  {
    if padding < 1 then 1 else if padding > 9 then 9 else padding
  }

  /** `ChapterTimestampFormat.argument`: a `%` directive, or the raw text. */
  function FormatArgument(f: ChapterTimestampFormat): (r: string)
    ensures !f.RawFormat? ==> |r| >= 2 && r[0] == '%'
    ensures f.Nanoseconds? ==> r == ['%', DigitChar(ClampPadding(f.padding)), 'n']
  {
    match f
    case Hours => "%h"
    case HoursPadded => "%H"
    case Minutes => "%m"
    case MinutesPadded => "%M"
    case Nanoseconds(padding) => "%" + IntToString(ClampPadding(padding)) + "n"
    case NanosecondsPadded => "%n"
    case RawFormat(raw) => raw
    case Seconds => "%s"
    case SecondsPadded => "%S"
  }

  datatype TemplateComponent =
    | ChapterNumber(padding: Option<int>)
    | ChapterTimestamp(formats: seq<ChapterTimestampFormat>)
    | Filename
    | FilenameWithExt
    | RawComponent(raw: string)

  /** `TemplateComponent.argument`. */
  function ComponentArgument(c: TemplateComponent): (r: string)
    ensures c.ChapterNumber? ==> (r == "<NUM>" <==> !(c.padding.Some? && c.padding.value > 0))
    ensures c.ChapterNumber? && c.padding.Some? && c.padding.value > 0 ==> r == "<NUM:" + IntToString(c.padding.value) + ">"
  {
    match c
    case ChapterNumber(padding) =>
      if padding.Some? && padding.value > 0 then "<NUM:" + IntToString(padding.value) + ">" else "<NUM>"
    case ChapterTimestamp(formats) => Concat(seq(|formats|, i requires 0 <= i < |formats| => FormatArgument(formats[i])))
    case Filename => "<FILE_NAME>"
    case FilenameWithExt => "<FILE_NAME_WITH_EXT>"
    case RawComponent(raw) => raw
  }

  datatype ChaptersNameTemplate = RawTemplate(raw: string) | Components(components: seq<TemplateComponent>)

  /** `ChaptersNameTemplate.argument`: components are concatenated with no separator. */
  function TemplateArgument(t: ChaptersNameTemplate): (r: string)
  {
    match t
    case RawTemplate(raw) => raw
    case Components(cs) => Concat(seq(|cs|, i requires 0 <= i < |cs| => ComponentArgument(cs[i])))
  }

  /** Appending a component appends its text: the template renders piece by piece. */
  lemma TemplateAppend(cs: seq<TemplateComponent>, c: TemplateComponent)
    ensures TemplateArgument(Components(cs + [c])) == TemplateArgument(Components(cs)) + ComponentArgument(c)
  {
    var parts := seq(|cs|, i requires 0 <= i < |cs| => ComponentArgument(cs[i]));
    var all := seq(|cs + [c]|, i requires 0 <= i < |cs + [c]| => ComponentArgument((cs + [c])[i]));
    assert all == parts + [ComponentArgument(c)];
    ConcatAppend(parts, ComponentArgument(c));
  }

  /** The raw template and the component template of the source's test render the same text. */
  lemma TemplateExample()
    ensures TemplateArgument(RawTemplate("Chapter <NUM:2>")) == "Chapter <NUM:2>"
    ensures TemplateArgument(Components([RawComponent("Chapter "), ChapterNumber(Some(2))])) == "Chapter <NUM:2>"
    ensures ComponentArgument(ChapterNumber(Some(0))) == "<NUM>"
    ensures FormatArgument(Nanoseconds(12)) == "%9n" && FormatArgument(Nanoseconds(0)) == "%1n"
  {
    assert IntToString(2) == "2";
    assert IntToString(9) == "9";
    assert IntToString(1) == "1";
    var cs := [RawComponent("Chapter "), ChapterNumber(Some(2))];
    var parts := seq(|cs|, i requires 0 <= i < |cs| => ComponentArgument(cs[i]));
    assert ComponentArgument(ChapterNumber(Some(2))) == "<NUM:2>";
    assert parts == ["Chapter ", "<NUM:2>"];
    assert Concat(parts) == "Chapter " + ("<NUM:2>" + Concat([]));
  }

  // ---------------------------------------------------------------- split and chapter generation

  datatype DurationSplit = TimestampSplit(timestamp: Timestamps.Timestamp) | SecondSplit(second: int)

  /** `DurationSplit.argument`: `<n>s`, or `duration:` and the timestamp's description. */
  function DurationArgument(d: DurationSplit): (r: string)
    ensures d.SecondSplit? ==> r == IntToString(d.second) + "s"
    ensures d.TimestampSplit? ==> |r| >= 9 && r[..9] == "duration:" && r[9..] == Timestamps.Description(d.timestamp)
  {
    match d
    case SecondSplit(second) => IntToString(second) + "s"
    case TimestampSplit(t) => "duration:" + Timestamps.Description(t)
  }

  datatype ChapterSplit = AllChapters | Numbers(numbers: seq<int>)

  datatype SplitMode =
    | Size(bytes: int)
    | Duration(duration: DurationSplit)
    | TimestampList(timestamps: seq<DurationSplit>)
    | Frames(frames: seq<int>)
    | Chapters(chapters: ChapterSplit)

  /** `Split.argument`. */
  function SplitArgument(s: SplitMode): (r: string)
  {
    match s
    case Size(bytes) => IntToString(bytes)
    case Duration(d) => DurationArgument(d)
    case TimestampList(ts) => "timestamps:" + Join(seq(|ts|, i requires 0 <= i < |ts| => DurationArgument(ts[i])), ",")
    case Frames(frames) => "frames:" + JoinInts(frames, ",")
    case Chapters(AllChapters) => "chapters:all"
    case Chapters(Numbers(numbers)) => "chapters:" + JoinInts(numbers, ",")
  }

  /** The list modes carry their prefix; the numbers after it split back into the same numbers. */
  lemma SplitListsReadBack(s: SplitMode)
    requires s.Frames? || (s.Chapters? && s.chapters.Numbers?)
    ensures var ns := if s.Frames? then s.frames else s.chapters.numbers;
            var prefix := if s.Frames? then "frames:" else "chapters:";
            var r := SplitArgument(s);
            |r| >= |prefix| && r[..|prefix|] == prefix
            && Split(r[|prefix|..], ',') == IntStrings(ns)
  {
    var ns := if s.Frames? then s.frames else s.chapters.numbers;
    var prefix := if s.Frames? then "frames:" else "chapters:";
    assert SplitArgument(s) == prefix + JoinInts(ns, ",");
    assert (prefix + JoinInts(ns, ","))[|prefix|..] == JoinInts(ns, ",");
    JoinIntsSplit(ns, ',');
  }

  lemma SplitExamples()
    ensures SplitArgument(Chapters(AllChapters)) == "chapters:all"
    ensures SplitArgument(Duration(SecondSplit(30))) == "30s"
    ensures SplitArgument(Size(1024)) == "1024"
    ensures SplitArgument(Frames([10, 20])) == "frames:10,20"
  {
    SecondsExample();
    SizeExample();
    FramesExample();
  }

  lemma SecondsExample()
    ensures SplitArgument(Duration(SecondSplit(30))) == "30s"
  {
    assert NatToString(3) == "3" && NatToString(30) == "30";
  }

  lemma SizeExample()
    ensures SplitArgument(Size(1024)) == "1024"
  {
    assert NatToString(10) == "10" && NatToString(102) == "102" && NatToString(1024) == "1024";
  }

  lemma FramesExample()
    ensures SplitArgument(Frames([10, 20])) == "frames:10,20"
  {
    assert NatToString(10) == "10" && NatToString(20) == "20";
    assert IntStrings([10, 20]) == ["10", "20"];
    assert Join(["10", "20"], ",") == "10,20";
  }

  datatype GenerateChaptersMode = WhenAppending | Interval(interval: DurationSplit)

  /** `GenerateChaptersMode.argument`. */
  function GenerateChaptersArgument(m: GenerateChaptersMode): (r: string)
    ensures m.WhenAppending? ==> r == "when-appending"
    ensures m.Interval? ==> |r| >= 9 && r[..9] == "interval:" && r[9..] == DurationArgument(m.interval)
  {
    match m
    case WhenAppending => "when-appending"
    case Interval(d) => "interval:" + DurationArgument(d)
  }

  datatype AppendMode = FileMode | TrackMode

  function AppendModeArgument(m: AppendMode): (r: string)
    ensures r == "file" <==> m == FileMode
    ensures r == "track" <==> m == TrackMode
  {
    match m
    case FileMode => "file"
    case TrackMode => "track"
  }

  datatype TrackOrder = TrackOrder(fid: int, tid: int)

  /** `TrackOrder.argument`: `fid:tid`. */
  function TrackOrderArgument(o: TrackOrder): (r: string)
    ensures |r| > |IntToString(o.fid)| && r[..|IntToString(o.fid)|] == IntToString(o.fid)
    ensures r[|IntToString(o.fid)|] == ':'
    ensures r[|IntToString(o.fid)| + 1..] == IntToString(o.tid)
  {
    IntToString(o.fid) + ":" + IntToString(o.tid)
  }

  /** `trackOrder?.map(\.argument).joined(separator: ",")`. */
  function TrackOrderList(orders: seq<TrackOrder>): string
  {
    Join(seq(|orders|, i requires 0 <= i < |orders| => TrackOrderArgument(orders[i])), ",")
  }

  datatype ExperimentFeature =
    | SpaceAfterChapters | NoChaptersInMetaSeek | NoMetaSeek | LacingXiph | LacingEbml
    | NativeMpeg4 | NoVariableData | ForcePassthroughPacketizer | WriteHeadersTwice
    | AllowAvcInVfwMode | KeepBitstreamArInfo | NoSimpleblocks | UseCodecStateOnly
    | EnableTimestampWarning | RemoveBitstreamArInfo | VobsubSubpicStopCmds | NoCueDuration
    | NoCueRelativePosition | NoDelayForGarbageInAvi | KeepLastChapterInMpls
    | KeepTrackStatisticsTags | AllISlicesAreKeyFrames | AppendAndSplitFlac
    | DontNormalizeParameterSets | Cow

  /** The raw values, the case names of the source's enum. */
  function FeatureName(f: ExperimentFeature): (r: string)
    ensures |r| > 0
  {
    match f
    case SpaceAfterChapters => "space_after_chapters"
    case NoChaptersInMetaSeek => "no_chapters_in_meta_seek"
    case NoMetaSeek => "no_meta_seek"
    case LacingXiph => "lacing_xiph"
    case LacingEbml => "lacing_ebml"
    case NativeMpeg4 => "native_mpeg4"
    case NoVariableData => "no_variable_data"
    case ForcePassthroughPacketizer => "force_passthrough_packetizer"
    case WriteHeadersTwice => "write_headers_twice"
    case AllowAvcInVfwMode => "allow_avc_in_vfw_mode"
    case KeepBitstreamArInfo => "keep_bitstream_ar_info"
    case NoSimpleblocks => "no_simpleblocks"
    case UseCodecStateOnly => "use_codec_state_only"
    case EnableTimestampWarning => "enable_timestamp_warning"
    case RemoveBitstreamArInfo => "remove_bitstream_ar_info"
    case VobsubSubpicStopCmds => "vobsub_subpic_stop_cmds"
    case NoCueDuration => "no_cue_duration"
    case NoCueRelativePosition => "no_cue_relative_position"
    case NoDelayForGarbageInAvi => "no_delay_for_garbage_in_avi"
    case KeepLastChapterInMpls => "keep_last_chapter_in_mpls"
    case KeepTrackStatisticsTags => "keep_track_statistics_tags"
    case AllISlicesAreKeyFrames => "all_i_slices_are_key_frames"
    case AppendAndSplitFlac => "append_and_split_flac"
    case DontNormalizeParameterSets => "dont_normalize_parameter_sets"
    case Cow => "cow"
  }

  // ---------------------------------------------------------------- global options

  /**
   * `GlobalOption`.  The private `segmentinfo` and `segmentUID` have no
   * initializer or setter, so they are always nil and never rendered.
   */
  datatype GlobalOption = GlobalOption(
    verbose: bool,
    quiet: bool,
    webm: bool,
    title: Option<string>,
    defaultLanguage: Option<string>,
    chapterLanguage: Option<string>,
    generateChaptersMode: Option<GenerateChaptersMode>,
    chaptersNameTemplate: Option<ChaptersNameTemplate>,
    chapterFile: Option<string>,
    globalTagsFile: Option<string>,
    trackOrder: Option<seq<TrackOrder>>,
    split: Option<SplitMode>,
    appendMode: Option<AppendMode>,
    flushOnClose: bool,
    debug: Option<string>,
    experimentalFeatures: Option<seq<ExperimentFeature>>)

  /** `GlobalOption(quiet:)` with every other parameter at its default. */
  function DefaultGlobalOption(quiet: bool): GlobalOption
  {
    GlobalOption(false, quiet, false, None, None, None, None, None, None, None, None, None, None, false, None, None)
  }

  function MapGenerate(m: Option<GenerateChaptersMode>): (r: Option<string>)
    ensures m.None? <==> r.None?
  {
    match m case Some(x) => Some(GenerateChaptersArgument(x)) case None => None
  }

  function MapTemplate(t: Option<ChaptersNameTemplate>): (r: Option<string>)
    ensures t.None? <==> r.None?
  {
    match t case Some(x) => Some(TemplateArgument(x)) case None => None
  }

  function MapTrackOrder(o: Option<seq<TrackOrder>>): (r: Option<string>)
    ensures o.None? <==> r.None?
  {
    match o case Some(x) => Some(TrackOrderList(x)) case None => None
  }

  function MapSplit(s: Option<SplitMode>): (r: Option<string>)
    ensures s.None? <==> r.None?
  {
    match s case Some(x) => Some(SplitArgument(x)) case None => None
  }

  function MapAppendMode(m: Option<AppendMode>): (r: Option<string>)
    ensures m.None? <==> r.None?
  {
    match m case Some(x) => Some(AppendModeArgument(x)) case None => None
  }

  function MapFeatures(f: Option<seq<ExperimentFeature>>): (r: Option<string>)
    ensures f.None? <==> r.None?
  {
    match f
    case Some(x) => Some(Join(seq(|x|, i requires 0 <= i < |x| => FeatureName(x[i])), ","))
    case None => None
  }

  /** The tokens of `GlobalOption.arguments`: three runs of builder calls, each appended to the tokens before it. */
  function GlobalTokens(g: GlobalOption): seq<string>
  {
    AppendOutputControl(AppendChapterOptions(GeneralTokens(g), g), g)
  }

  function GeneralTokens(g: GlobalOption): seq<string>
  {
    FlagTokens("--verbose", g.verbose) + FlagTokens("--quiet", g.quiet) + FlagTokens("--webm", g.webm)
    + ValueTokens("--title", g.title) + ValueTokens("--default-language", g.defaultLanguage)
  }

  function AppendChapterOptions(prefix: seq<string>, g: GlobalOption): seq<string>
  {
    prefix
    + ValueTokens("--chapter-language", g.chapterLanguage)
    + ValueTokens("--generate-chapters", MapGenerate(g.generateChaptersMode))
    + ValueTokens("--generate-chapters-name-template", MapTemplate(g.chaptersNameTemplate))
    + ValueTokens("--chapters", g.chapterFile)
    + ValueTokens("--global-tags", g.globalTagsFile)
  }

  function AppendOutputControl(prefix: seq<string>, g: GlobalOption): seq<string>
  {
    prefix
    + ValueTokens("--track-order", MapTrackOrder(g.trackOrder))
    + ValueTokens("--split", MapSplit(g.split))
    + ValueTokens("--append-mode", MapAppendMode(g.appendMode))
    + FlagTokens("--flush-on-close", g.flushOnClose)
    + ValueTokens("--debug", g.debug)
    + ValueTokens("--engage", MapFeatures(g.experimentalFeatures))
  }

  /** `GlobalOption.arguments`: one builder, options in the source's order. */
  method GlobalArguments(g: GlobalOption) returns (r: seq<string>)
    ensures r == GlobalTokens(g)
  {
    var builder := new ArgumentBuilder();
    builder.AddWhen("--verbose", g.verbose);
    assert builder.arguments == FlagTokens("--verbose", g.verbose);
    builder.AddWhen("--quiet", g.quiet);
    builder.AddWhen("--webm", g.webm);
    builder.AddValue("--title", g.title);
    builder.AddValue("--default-language", g.defaultLanguage);
    // `--segmentinfo` and `--segment-uid`: their values are always nil, so nothing is added.
    AddChapterOptions(builder, g);
    AddOutputControl(builder, g);
    r := builder.arguments;
  }

  method AddChapterOptions(builder: ArgumentBuilder, g: GlobalOption)
    modifies builder
    ensures builder.arguments == AppendChapterOptions(old(builder.arguments), g)
  {
    builder.AddValue("--chapter-language", g.chapterLanguage);
    builder.AddValue("--generate-chapters", MapGenerate(g.generateChaptersMode));
    builder.AddValue("--generate-chapters-name-template", MapTemplate(g.chaptersNameTemplate));
    builder.AddValue("--chapters", g.chapterFile);
    builder.AddValue("--global-tags", g.globalTagsFile);
  }

  method AddOutputControl(builder: ArgumentBuilder, g: GlobalOption)
    modifies builder
    ensures builder.arguments == AppendOutputControl(old(builder.arguments), g)
  {
    builder.AddValue("--track-order", MapTrackOrder(g.trackOrder));
    builder.AddValue("--split", MapSplit(g.split));
    builder.AddValue("--append-mode", MapAppendMode(g.appendMode));
    builder.AddWhen("--flush-on-close", g.flushOnClose);
    builder.AddValue("--debug", g.debug);
    builder.AddValue("--engage", MapFeatures(g.experimentalFeatures));
  }

  /**
   * With only `quiet` chosen the global tokens are `--quiet` or nothing, and a
   * present but empty track order is still rendered, with an empty value.
   */
  lemma GlobalDefaults(quiet: bool)
    ensures GlobalTokens(DefaultGlobalOption(quiet)) == (if quiet then ["--quiet"] else [])
    ensures GlobalTokens(DefaultGlobalOption(false).(trackOrder := Some([]))) == ["--track-order", ""]
    ensures GlobalTokens(DefaultGlobalOption(false).(title := Some(""))) == ["--title", ""]
  {
    QuietOnly(quiet);
    EmptyTrackOrder();
    EmptyTitle();
  }

  lemma QuietOnly(quiet: bool)
    ensures GlobalTokens(DefaultGlobalOption(quiet)) == (if quiet then ["--quiet"] else [])
  {
  }

  lemma EmptyTrackOrder()
    ensures GlobalTokens(DefaultGlobalOption(false).(trackOrder := Some([]))) == ["--track-order", ""]
  {
    assert TrackOrderList([]) == "";
  }

  lemma EmptyTitle()
    ensures GlobalTokens(DefaultGlobalOption(false).(title := Some(""))) == ["--title", ""]
  {
  }

  // ---------------------------------------------------------------- inputs

  datatype TrackSelect =
    | Empty
    | RemoveAll
    | EnabledTIDs(tids: seq<int>)
    | EnabledLANGs(langs: seq<string>)
    | DisabledTIDs(tids: seq<int>)
    | DisabledLANGS(langs: seq<string>)

  /** `TrackSelect.checked`: an empty id or language list means "no selection". */
  function Checked(t: TrackSelect): (r: TrackSelect)
    ensures r == Empty || r == t
    ensures r == Empty <==> t == Empty || ((t.EnabledTIDs? || t.DisabledTIDs?) && t.tids == [])
                            || ((t.EnabledLANGs? || t.DisabledLANGS?) && t.langs == [])
  {
    match t
    case EnabledTIDs(tids) => if |tids| == 0 then Empty else t
    case DisabledTIDs(tids) => if |tids| == 0 then Empty else t
    case EnabledLANGs(langs) => if |langs| == 0 then Empty else t
    case DisabledLANGS(langs) => if |langs| == 0 then Empty else t
    case _ => t
  }

  lemma CheckedIdempotent(t: TrackSelect)
    ensures Checked(Checked(t)) == Checked(t)
  {
  }

  /** `TrackSelect.argument`; `None` is its `fatalError()` for `empty` and `removeAll`. */
  function SelectArgument(t: TrackSelect): (r: Option<string>)
    ensures r.None? <==> t.Empty? || t.RemoveAll?
    ensures (t.DisabledTIDs? || t.DisabledLANGS?) ==> |r.value| >= 1 && r.value[0] == '!'
  {
    match t
    case EnabledTIDs(tids) => Some(JoinInts(tids, ","))
    case DisabledTIDs(tids) => Some("!" + JoinInts(tids, ","))
    case EnabledLANGs(langs) => Some(Join(langs, ","))
    case DisabledLANGS(langs) => Some("!" + Join(langs, ","))
    case _ => None
  }

  /** The tokens of one track-selection option: nothing, the `--no-…` flag, or the flag and the list. */
  function SelectionTokens(listFlag: string, removeFlag: string, t: TrackSelect): (r: seq<string>)
    ensures Checked(t) == Empty <==> r == []
    ensures Checked(t) == RemoveAll ==> r == [removeFlag]
    ensures Checked(t) != Empty && Checked(t) != RemoveAll ==>
              SelectArgument(Checked(t)).Some? && r == [listFlag, SelectArgument(Checked(t)).value]
  {
    var i := Checked(t);
    match i
    case Empty => []
    case RemoveAll => [removeFlag]
    case _ => [listFlag, SelectArgument(i).value]
  }

  /** An enabled id list is rendered comma-joined, and a disabled one with a leading `!`; both split back into the ids. */
  lemma SelectionOfIds(listFlag: string, removeFlag: string, tids: seq<int>)
    requires tids != []
    ensures SelectionTokens(listFlag, removeFlag, EnabledTIDs(tids)) == [listFlag, JoinInts(tids, ",")]
    ensures SelectionTokens(listFlag, removeFlag, DisabledTIDs(tids)) == [listFlag, "!" + JoinInts(tids, ",")]
    ensures Split(JoinInts(tids, ","), ',') == IntStrings(tids)
  {
    JoinIntsSplit(tids, ',');
  }

  datatype TrackFlag =
    | DefaultTrack | TrackEnabled | ForcedDisplay | HearingImpaired | VisualImpaired
    | TextDescriptions | Original | Commentary

  function TrackFlagRaw(f: TrackFlag): string
  {
    match f
    case DefaultTrack => "default-track"
    case TrackEnabled => "track-enabled"
    case ForcedDisplay => "forced-display"
    case HearingImpaired => "hearing-impaired"
    case VisualImpaired => "visual-impaired"
    case TextDescriptions => "text-descriptions"
    case Original => "original"
    case Commentary => "commentary"
  }

  datatype InputOption =
    | AudioTracks(select: TrackSelect)
    | VideoTracks(select: TrackSelect)
    | SubtitleTracks(select: TrackSelect)
    | ButtonTracks(select: TrackSelect)
    | TrackTags(select: TrackSelect)
    | Attachments(select: TrackSelect)
    | NoChapters
    | NoGlobalTags
    | FlagOption(tid: int, flag: TrackFlag, enabled: bool)
    | TrackName(tid: int, name: string)
    | Language(tid: int, language: string)

  /** `InputOption.arguments`. */
  function OptionArguments(o: InputOption): (r: seq<string>)
    ensures |r| <= 2
    ensures o.FlagOption? ==> r == ["--" + TrackFlagRaw(o.flag) + "-flag", IntToString(o.tid) + ":" + (if o.enabled then "1" else "0")]
  {
    match o
    case AudioTracks(v) => SelectionTokens("--audio-tracks", "--no-audio", v)
    case VideoTracks(v) => SelectionTokens("--video-tracks", "--no-video", v)
    case SubtitleTracks(v) => SelectionTokens("--subtitle-tracks", "--no-subtitles", v)
    case ButtonTracks(v) => SelectionTokens("--button-tracks", "--no-buttons", v)
    case TrackTags(v) => SelectionTokens("--track-tags", "--no-track-tags", v)
    case Attachments(v) => SelectionTokens("--attachments", "--no-attachments", v)
    case NoChapters => ["--no-chapters"]
    case NoGlobalTags => ["--no-global-tags"]
    case FlagOption(tid, flag, enabled) => ["--" + TrackFlagRaw(flag) + "-flag", IntToString(tid) + ":" + (if enabled then "1" else "0")]
    case TrackName(tid, name) => ["--track-name", IntToString(tid) + ":" + name]
    case Language(tid, lang) => ["--language", IntToString(tid) + ":" + lang]
  }

  /** `options.flatMap { $0.arguments }`. */
  function OptionsTokens(options: seq<InputOption>): seq<string>
  {
    if |options| == 0 then [] else OptionsTokens(options[..|options| - 1]) + OptionArguments(options[|options| - 1])
  }

  datatype Input = Input(file: string, append: bool, lookForOtherParts: bool, options: seq<InputOption>)

  /** `Input(file:)` with every other parameter at its default. */
  function PlainInput(file: string): Input
  {
    Input(file, false, false, [])
  }

  /** The tokens of `Input.arguments`. */
  function InputTokens(input: Input): seq<string>
  {
    OptionsTokens(input.options) + (if input.append then ["+"] else []) + (if !input.lookForOtherParts then ["="] else []) + [input.file]
  }

  /** `Input.arguments`: the option tokens, then the markers appended to `r`, the file last. */
  method InputArguments(input: Input) returns (r: seq<string>)
    ensures r == InputTokens(input)
  {
    r := OptionsTokens(input.options);
    if input.append {
      r := r + ["+"];
    }
    if !input.lookForOtherParts {
      r := r + ["="];
    }
    r := r + [input.file];
  }

  /** The file is always last, `=` right before it unless other parts are looked for, `+` before those when appending. */
  lemma InputTokensShape(input: Input)
    ensures var r := InputTokens(input);
            var markers := (if input.append then 1 else 0) + (if input.lookForOtherParts then 0 else 1);
            |r| == |OptionsTokens(input.options)| + markers + 1
            && r[|r| - 1] == input.file
            && r[..|OptionsTokens(input.options)|] == OptionsTokens(input.options)
            && (!input.lookForOtherParts ==> r[|r| - 2] == "=")
            && (input.append ==> r[|OptionsTokens(input.options)|] == "+")
  {
  }

  // ---------------------------------------------------------------- the command line

  /** Token count at which the command line moves into an options file. */
  const SPILL_THRESHOLD: nat := 4096

  /** The arguments handed to mkvmerge, and the token list written to the options file if one is used. */
  datatype Spilled = Spilled(arguments: seq<string>, optionsFile: Option<seq<string>>)

  /** The spill rule: 4096 or more tokens become the single token `@path`, the tokens going into the file. */
  function Spill(naive: seq<string>, path: string): (r: Spilled)
    ensures |naive| >= SPILL_THRESHOLD <==> r.optionsFile.Some?
    ensures |naive| >= SPILL_THRESHOLD ==> r.arguments == ["@" + path]
    ensures |naive| < SPILL_THRESHOLD ==> r.arguments == naive
  {
    if |naive| >= SPILL_THRESHOLD then Spilled(["@" + path], Some(naive)) else Spilled(naive, None)
  }

  /** What mkvmerge reads: the options file when there is one, the arguments otherwise. */
  function Expand(s: Spilled): seq<string>
  {
    match s.optionsFile
    case Some(tokens) => tokens
    case None => s.arguments
  }

  /** Spilling loses nothing, and the command line itself always stays below the threshold. */
  lemma SpillPreservesTokens(naive: seq<string>, path: string)
    ensures Expand(Spill(naive, path)) == naive
    ensures |Spill(naive, path).arguments| < SPILL_THRESHOLD
  {
  }

  datatype MkvMergeCommand = MkvMergeCommand(global: GlobalOption, output: string, inputs: seq<Input>)

  function InputsTokens(inputs: seq<Input>): seq<string>
  {
    if |inputs| == 0 then [] else InputsTokens(inputs[..|inputs| - 1]) + InputTokens(inputs[|inputs| - 1])
  }

  /** The token list before the spill rule: global tokens, `--output <output>`, then every input. */
  function NaiveTokens(m: MkvMergeCommand): seq<string>
  {
    GlobalTokens(m.global) + ["--output", m.output] + InputsTokens(m.inputs)
  }

  /** `MkvMerge.arguments`, with the options file's path supplied by the caller. */
  method CommandArguments(m: MkvMergeCommand, optionsFilePath: string) returns (args: seq<string>, optionsFile: Option<seq<string>>)
    ensures Spilled(args, optionsFile) == Spill(NaiveTokens(m), optionsFilePath)
  {
    var tokens := NaiveArguments(m);
    if |tokens| >= SPILL_THRESHOLD {
      args := ["@" + optionsFilePath];
      optionsFile := Some(tokens);
    } else {
      args := tokens;
      optionsFile := None;
    }
  }

  /** The builder of `MkvMerge.arguments` before the spill rule. */
  method NaiveArguments(m: MkvMergeCommand) returns (tokens: seq<string>)
    ensures tokens == NaiveTokens(m)
  {
    var global := GlobalArguments(m.global);
    var builder := new ArgumentBuilder();
    builder.AppendAll(global);
    builder.AddValue("--output", Some(m.output));
    OutputAfterGlobal(global, m.output);
    AppendInputs(builder, m.inputs);
    tokens := builder.arguments;
  }

  lemma OutputAfterGlobal(global: seq<string>, output: string)
    ensures [] + global + ValueTokens("--output", Some(output)) == global + ["--output", output]
  {
  }

  /** `inputs.forEach { builder.append(argumentsFrom: $0.arguments) }`. */
  method AppendInputs(builder: ArgumentBuilder, inputs: seq<Input>)
    modifies builder
    ensures builder.arguments == old(builder.arguments) + InputsTokens(inputs)
  {
    ghost var head := builder.arguments;
    for i := 0 to |inputs|
      invariant builder.arguments == head + InputsTokens(inputs[..i])
    {
      assert inputs[..i + 1][..i] == inputs[..i];
      var tokens := InputArguments(inputs[i]);
      builder.AppendAll(tokens);
      assert InputsTokens(inputs[..i + 1]) == InputsTokens(inputs[..i]) + tokens;
      AppendAssociates(head, InputsTokens(inputs[..i]), tokens);
    }
    assert inputs[..|inputs|] == inputs;
  }

  /** The unspilled list starts with the global tokens and `--output <output>`. */
  lemma NaiveTokensStart(m: MkvMergeCommand)
    ensures var r := NaiveTokens(m); var g := |GlobalTokens(m.global)|;
            |r| >= g + 2 && r[..g] == GlobalTokens(m.global) && r[g] == "--output" && r[g + 1] == m.output
  {
    StartsWith(GlobalTokens(m.global), ["--output", m.output], InputsTokens(m.inputs));
  }

  lemma StartsWith(g: seq<string>, o: seq<string>, rest: seq<string>)
    requires |o| == 2
    ensures var r := g + o + rest; |r| >= |g| + 2 && r[..|g|] == g && r[|g|] == o[0] && r[|g| + 1] == o[1]
  {
    assert (g + o + rest)[..|g|] == g;
  }

  /** With at least one input the unspilled list ends with the last input's file. */
  lemma NaiveTokensEnd(m: MkvMergeCommand)
    requires |m.inputs| > 0
    ensures var r := NaiveTokens(m); |r| > 0 && r[|r| - 1] == m.inputs[|m.inputs| - 1].file
  {
    EndsWithLastInput(GlobalTokens(m.global) + ["--output", m.output], m.inputs);
  }

  lemma EndsWithLastInput(head: seq<string>, inputs: seq<Input>)
    requires |inputs| > 0
    ensures var r := head + InputsTokens(inputs); |r| > 0 && r[|r| - 1] == inputs[|inputs| - 1].file
  {
    var last := InputTokens(inputs[|inputs| - 1]);
    assert InputsTokens(inputs) == InputsTokens(inputs[..|inputs| - 1]) + last;
    AppendAssociates(head, InputsTokens(inputs[..|inputs| - 1]), last);
    assert last[|last| - 1] == inputs[|inputs| - 1].file;
  }
}
