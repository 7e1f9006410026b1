/**
 * The ffmpeg command line of Sources/MediaTools/FFmpeg.swift: stream and
 * metadata specifiers, the per-file options and their constructors, the
 * global options rendered through the argument builder, and `arguments`.
 *
 * `Double` options (`maxErrorRate`, `statsPeriod`, `timelimit`) carry their
 * already rendered text.  The `[String: String]` parameters of a hardware
 * device are a sequence of pairs in iteration order, which Swift leaves
 * unspecified.
 */
module FFmpeg {
  import opened Wrappers
  import opened Text
  import opened Arguments

  // ---------------------------------------------------------------- specifiers

  datatype StreamType = Video | VideoNotPicture | Audio | Subtitle | Data | Attachment

  /** `StreamType.streamSpecifier`: one letter per stream type. */
  function StreamTypeLetter(t: StreamType): (s: string)
    ensures |s| == 1 && s[0] in "vVasdt"
  {
    match t
    case Attachment => "t"
    case Audio => "a"
    case Data => "d"
    case Subtitle => "s"
    case Video => "v"
    case VideoNotPicture => "V"
  }

  /** No two stream types share a letter. */
  lemma StreamTypeLetterInjective(t: StreamType, u: StreamType)
    ensures StreamTypeLetter(t) == StreamTypeLetter(u) ==> t == u
  {
  }

  /** `indirect enum StreamSpecifier`; `OfType` is the case `streamType(_:additional:)`. */
  datatype StreamSpecifier =
    | StreamIndex(index: int)
    | OfType(streamType: StreamType, additional: Option<StreamSpecifier>)
    | ProgramID(programID: int, additional: Option<StreamSpecifier>)
    | StreamID(streamID: int)
    | MatchMetadata(key: string, value: Option<string>)
    | Usable

  /** `StreamSpecifier.argument`: the suffix, always starting with `:`, nested specifiers appended. */
  function StreamArgument(s: StreamSpecifier): (r: string)
    ensures |r| >= 2 && r[0] == ':'
  {
    match s
    case MatchMetadata(key, value) =>
      ":m:" + key + (match value case Some(v) => ":" + v case None => "")
    case ProgramID(id, additional) =>
      ":p:" + IntToString(id) + (match additional case Some(x) => StreamArgument(x) case None => "")
    case StreamID(id) => ":i:" + IntToString(id)
    case StreamIndex(index) => ":" + IntToString(index)
    case OfType(t, additional) =>
      ":" + StreamTypeLetter(t) + (match additional case Some(x) => StreamArgument(x) case None => "")
    case Usable => ":u"
  }

  /** The part of a specifier's rendering that belongs to the specifier itself. */
  function OwnSuffix(s: StreamSpecifier): (r: string)
  {
    match s
    case MatchMetadata(key, value) => ":m:" + key + (match value case Some(v) => ":" + v case None => "")
    case ProgramID(id, _) => ":p:" + IntToString(id)
    case StreamID(id) => ":i:" + IntToString(id)
    case StreamIndex(index) => ":" + IntToString(index)
    case OfType(t, _) => ":" + StreamTypeLetter(t)
    case Usable => ":u"
  }

  /** The rendering of the nested specifier, or nothing. */
  function NestedArgument(s: StreamSpecifier): string
  {
    if (s.OfType? || s.ProgramID?) && s.additional.Some? then StreamArgument(s.additional.value) else ""
  }

  /** The specifier followed by its nested specifiers, outermost first. */
  function Chain(s: StreamSpecifier): (c: seq<StreamSpecifier>)
    ensures |c| >= 1 && c[0] == s
  {
    if (s.OfType? || s.ProgramID?) && s.additional.Some? then [s] + Chain(s.additional.value) else [s]
  }

  /** The own suffix of each specifier of a chain, in order. */
  function Suffixes(c: seq<StreamSpecifier>): (r: seq<string>)
    ensures |r| == |c| && forall i :: 0 <= i < |c| ==> r[i] == OwnSuffix(c[i])
  {
    if |c| == 0 then [] else [OwnSuffix(c[0])] + Suffixes(c[1..])
  }

  /** The rendering is the concatenation of the own suffixes along the chain of nested specifiers. */
  lemma {:induction false} StreamArgumentIsChainOfSuffixes(s: StreamSpecifier)
    ensures StreamArgument(s) == Concat(Suffixes(Chain(s)))
  {
    var c := Chain(s);
    if (s.OfType? || s.ProgramID?) && s.additional.Some? {
      var x := s.additional.value;
      StreamArgumentIsChainOfSuffixes(x);
      assert c == [s] + Chain(x);
      assert c[1..] == Chain(x);
      assert Suffixes(c) == [OwnSuffix(s)] + Suffixes(Chain(x));
      assert Concat(Suffixes(c)) == OwnSuffix(s) + Concat(Suffixes(Chain(x)));
    } else {
      assert c == [s];
      assert Suffixes(c) == [OwnSuffix(s)];
      assert Concat(Suffixes(c)) == OwnSuffix(s) + Concat([]);
    }
  }

  /** `MetadataSpecifier`. */
  datatype MetadataSpecifier =
    | Global
    | Stream(stream: Option<StreamSpecifier>)
    | ChapterIndex(chapter: int)
    | ProgramIndex(program: int)

  /** `MetadataSpecifier.argument`. */
  function MetadataArgument(m: MetadataSpecifier): (r: string)
    ensures |r| >= 2 && r[0] == ':'
    ensures m.Stream? ==> r[..2] == ":s" && r[2..] == OptionalStreamArgument(m.stream)
  {
    match m
    case Global => ":g"
    case Stream(s) => ":s" + OptionalStreamArgument(s)
    case ChapterIndex(n) => ":c:" + IntToString(n)
    case ProgramIndex(n) => ":p:" + IntToString(n)
  }

  /** `spec?.argument ?? ""`. */
  function OptionalStreamArgument(s: Option<StreamSpecifier>): (r: string)
    ensures s.None? <==> r == ""
  {
    match s
    case Some(x) => StreamArgument(x)
    case None => ""
  }

  function OptionalMetadataArgument(m: Option<MetadataSpecifier>): (r: string)
    ensures m.None? <==> r == ""
  {
    match m
    case Some(x) => MetadataArgument(x)
    case None => ""
  }

  /** The renderings named in the source's tests and in its documentation. */
  lemma SpecifierExamples()
    ensures StreamArgument(OfType(Audio, Some(StreamIndex(1)))) == ":a:1"
    ensures StreamArgument(OfType(Audio, None)) == ":a"
    ensures MetadataArgument(Global) == ":g"
    ensures MetadataArgument(Stream(None)) == ":s"
    ensures MetadataArgument(Stream(Some(StreamIndex(0)))) == ":s:0"
    ensures MetadataArgument(ChapterIndex(3)) == ":c:3"
    ensures MetadataArgument(ProgramIndex(2)) == ":p:2"
  {
    assert IntToString(1) == "1";
    assert IntToString(0) == "0";
    assert IntToString(3) == "3";
    assert IntToString(2) == "2";
  }

  // ---------------------------------------------------------------- per-file options

  /** `InputOption` / `OutputOption`: a flag and an optional value. */
  datatype IOOption = IOOption(flag: string, value: Option<string>)

  /** `init(name:_:_:)`: the flag is `-` + name + the specifier suffix, if any. */
  function Named(name: string, spec: Option<StreamSpecifier>, value: string): (o: IOOption)
    ensures o.value == Some(value)
    ensures |o.flag| >= 1 + |name| && o.flag[..1 + |name|] == "-" + name
    ensures spec.None? <==> |o.flag| == 1 + |name|
    ensures spec.Some? ==> o.flag[1 + |name|] == ':' && o.flag[1 + |name|..] == StreamArgument(spec.value)
  {
    IOOption("-" + name + OptionalStreamArgument(spec), Some(value))
  }

  /**
   * `map(inputFileID:streamSpecifier:isOptional:isNegativeMapping:)`: the value is
   * an optional `-`, the file id, the specifier suffix and an optional `?`.
   */
  function Map(inputFileID: int, spec: Option<StreamSpecifier>, isOptional: bool, isNegativeMapping: bool): (o: IOOption)
    ensures o.flag == "-map" && o.value.Some?
    ensures MapValueParts(o.value.value, isNegativeMapping, IntToString(inputFileID), OptionalStreamArgument(spec), isOptional)
  {
    var argument := if isNegativeMapping then "-" else "";
    var argument := argument + IntToString(inputFileID);
    var argument := argument + OptionalStreamArgument(spec);
    var argument := if isOptional then argument + "?" else argument;
    MapValuePartsOf(isNegativeMapping, IntToString(inputFileID), OptionalStreamArgument(spec), isOptional);
    IOOption("-map", Some(argument))
  }

  /** `v` is a `-` exactly when negative, then the id, then the suffix, then `?` exactly when optional. */
  predicate MapValueParts(v: string, negative: bool, id: string, suffix: string, optional: bool)
  {
    var p := if negative then 1 else 0;
    var q := if optional then 1 else 0;
    |v| == p + |id| + |suffix| + q
    && (negative ==> v[0] == '-')
    && (optional ==> v[|v| - 1] == '?')
    && v[p..p + |id|] == id
    && v[p + |id|..|v| - q] == suffix
  }

  lemma MapValuePartsOf(negative: bool, id: string, suffix: string, optional: bool)
    ensures var v := (if negative then "-" else "") + id + suffix;
            MapValueParts(if optional then v + "?" else v, negative, id, suffix, optional)
  {
    var v := (if negative then "-" else "") + id + suffix;
    var p := if negative then 1 else 0;
    assert v[p..p + |id|] == id;
    assert v[p + |id|..] == suffix;
    if optional {
      assert (v + "?")[..|v|] == v;
    }
  }

  /**
   * `mapMetadata(outputSpec:inputFileIndex:inputSpec:)`: the output specifier
   * is glued to the flag, the input specifier to the (possibly negative) index.
   */
  function MapMetadata(outputSpec: Option<MetadataSpecifier>, inputFileIndex: int, inputSpec: Option<MetadataSpecifier>): (o: IOOption)
    ensures |o.flag| >= 13 && o.flag[..13] == "-map_metadata" && o.flag[13..] == OptionalMetadataArgument(outputSpec)
    ensures o.value.Some? && |o.value.value| >= |IntToString(inputFileIndex)|
    ensures o.value.value[..|IntToString(inputFileIndex)|] == IntToString(inputFileIndex)
    ensures o.value.value[|IntToString(inputFileIndex)|..] == OptionalMetadataArgument(inputSpec)
    ensures o.value.value[0] == '-' <==> inputFileIndex < 0
  {
    IOOption("-map_metadata" + OptionalMetadataArgument(outputSpec),
             Some(IntToString(inputFileIndex) + OptionalMetadataArgument(inputSpec)))
  }

  /** `format(_:)`: the flag is the bare `f`, without a dash. */
  function Format(value: string): (o: IOOption)
    ensures o.flag == "f" && o.value == Some(value)
  {
    IOOption("f", Some(value))
  }

  /** `raw(_:)`: a flag with no value. */
  function Raw(value: string): (o: IOOption)
    ensures o.flag == value && o.value.None?
    ensures OptionTokens([o]) == [value]
  {
    IOOption(value, None)
  }

  // The remaining one-line constructors of the source.

  function StreamLoop(value: int): IOOption { IOOption("-stream_loop", Some(IntToString(value))) }
  function HardwareAcceleration(value: string, spec: Option<StreamSpecifier>): IOOption { Named("-hwaccel", spec, value) }
  function ReinitFilter(value: bool, spec: Option<StreamSpecifier>): IOOption { Named("-reinit_filter", spec, if value then "1" else "0") }
  function Filter(filtergraph: string, spec: Option<StreamSpecifier>): IOOption { Named("filter", spec, filtergraph) }
  function Bitrate(value: string, spec: StreamSpecifier): IOOption { Named("b", Some(spec), value) }
  function Colorspace(value: string, spec: Option<StreamSpecifier>): IOOption { Named("colorspace", spec, value) }
  function ColorPrimaries(value: string, spec: Option<StreamSpecifier>): IOOption { Named("color_primaries", spec, value) }
  function ColorTransferCharacteristics(value: string, spec: Option<StreamSpecifier>): IOOption { Named("color_trc", spec, value) }
  function MapChapters(inputFileIndex: int): IOOption { IOOption("-map_chapters", Some(IntToString(inputFileIndex))) }
  function FrameCount(value: int, spec: StreamSpecifier): IOOption { Named("frames", Some(spec), IntToString(value)) }
  function Codec(value: string, spec: Option<StreamSpecifier>): IOOption { Named("c", spec, value) }
  function Duration(value: string): IOOption { IOOption("-t", Some(value)) }
  function StartPosition(value: string): IOOption { IOOption("-ss", Some(value)) }
  function EndPosition(value: string): IOOption { IOOption("-to", Some(value)) }
  function FrameSize(width: int, height: int, spec: Option<StreamSpecifier>): IOOption { Named("s", spec, IntToString(width) + "x" + IntToString(height)) }
  function AudioChannels(value: int, spec: Option<StreamSpecifier>): IOOption { Named("ac", spec, IntToString(value)) }
  function PixelFormat(value: string, spec: Option<StreamSpecifier>): IOOption { Named("pix_fmt", spec, value) }
  function AvOption(name: string, value: string, spec: Option<StreamSpecifier>): IOOption { Named(name, spec, value) }

  datatype StrictLevel = Very | Strict | Normal | Unofficial | Experimental

  function StrictLevelRaw(l: StrictLevel): int
  {
    match l
    case Very => 2
    case Strict => 1
    case Normal => 0
    case Unofficial => -1
    case Experimental => -2
  }

  function StrictOption(level: StrictLevel): IOOption { IOOption("-strict", Some(IntToString(StrictLevelRaw(level)))) }

  /** A name that already starts with `-` yields a doubled dash, as for `-hwaccel` and `-reinit_filter`. */
  lemma DoubledDashFlags(spec: Option<StreamSpecifier>)
    ensures HardwareAcceleration("cuda", None) == IOOption("--hwaccel", Some("cuda"))
    ensures ReinitFilter(true, None) == IOOption("--reinit_filter", Some("1"))
    ensures ReinitFilter(false, spec).value == Some("0")
  {
  }

  /** `format(_:)` as written renders a first token without any dash. */
  lemma BareFormatFlag(value: string)
    ensures OptionTokens([Format(value)]) == ["f", value]
    ensures OptionTokens([Format(value)])[0][0] != '-'
  {
    OneOptionTokens(Format(value));
  }

  /** `hardwareAcceleration` as evidently intended: a single dash, `-hwaccel`. */
  function HardwareAccelerationIntended(value: string, spec: Option<StreamSpecifier>): (o: IOOption)
    ensures |o.flag| >= 8 && o.flag[..8] == "-hwaccel"
    ensures spec.None? ==> o.flag == "-hwaccel"
    ensures spec.Some? ==> o.flag[8..] == StreamArgument(spec.value)
    ensures o.value == Some(value)
  {
    IOOption("-hwaccel" + OptionalStreamArgument(spec), Some(value))
  }

  /** `reinitFilter` as evidently intended: `-reinit_filter`, valued `1` or `0`. */
  function ReinitFilterIntended(value: bool, spec: Option<StreamSpecifier>): (o: IOOption)
    ensures |o.flag| >= 14 && o.flag[..14] == "-reinit_filter"
    ensures spec.None? ==> o.flag == "-reinit_filter"
    ensures o.value == Some(if value then "1" else "0")
  {
    IOOption("-reinit_filter" + OptionalStreamArgument(spec), Some(if value then "1" else "0"))
  }

  /** `format(_:)` as evidently intended: ffmpeg's `-f` option. */
  function FormatIntended(value: string): (o: IOOption)
    ensures OptionTokens([o]) == ["-f", value]
  {
    var o := IOOption("-f", Some(value));
    OneOptionTokens(o);
    o
  }

  /** The intended flags differ from the written ones by exactly one dash. */
  lemma HardwareAccelerationDropsOneDash(value: string, spec: Option<StreamSpecifier>)
    ensures HardwareAcceleration(value, spec).flag == "-" + HardwareAccelerationIntended(value, spec).flag
  {
    var suffix := OptionalStreamArgument(spec);
    assert HardwareAcceleration(value, spec) == Named("-hwaccel", spec, value);
    assert HardwareAccelerationIntended(value, spec).flag == "-hwaccel" + suffix;
    DashAssociates("-hwaccel", suffix);
  }

  lemma DashAssociates(name: string, suffix: string)
    ensures "-" + name + suffix == "-" + (name + suffix)
  {
  }

  lemma ReinitFilterDropsOneDash(b: bool, spec: Option<StreamSpecifier>)
    ensures ReinitFilter(b, spec).flag == "-" + ReinitFilterIntended(b, spec).flag
  {
    var suffix := OptionalStreamArgument(spec);
    assert ReinitFilter(b, spec) == Named("-reinit_filter", spec, if b then "1" else "0");
    assert ReinitFilterIntended(b, spec).flag == "-reinit_filter" + suffix;
    DashAssociates("-reinit_filter", suffix);
  }

  /** Specifier suffixes are glued to the flag, never to the value. */
  lemma SpecifierSuffixFlags()
    ensures Codec("copy", None) == IOOption("-c", Some("copy"))
    ensures Codec("libx264", Some(OfType(Video, None))) == IOOption("-c:v", Some("libx264"))
    ensures Bitrate("128k", OfType(Audio, Some(StreamIndex(1)))) == IOOption("-b:a:1", Some("128k"))
  {
    SpecifierExamples();
    assert StreamArgument(OfType(Video, None)) == ":v";
  }

  /** Integer values are rendered in decimal, negative ones with a leading `-`. */
  lemma NumericValues()
    ensures StrictOption(Experimental) == IOOption("-strict", Some("-2"))
    ensures StrictOption(Very) == IOOption("-strict", Some("2"))
    ensures StreamLoop(-1) == IOOption("-stream_loop", Some("-1"))
    ensures MapChapters(-1) == IOOption("-map_chapters", Some("-1"))
  {
    assert IntToString(-1) == "-1";
    assert IntToString(-2) == "-2";
    assert IntToString(2) == "2";
  }

  lemma FrameSizeValue()
    ensures FrameSize(1920, 1080, None) == IOOption("-s", Some("1920x1080"))
  {
    assert NatToString(19) == "19";
    assert NatToString(192) == "192";
    assert NatToString(1920) == "1920";
    assert NatToString(10) == "10";
    assert NatToString(108) == "108";
    assert NatToString(1080) == "1080";
    assert IntToString(1920) + "x" + IntToString(1080) == "1920x1080";
  }

  /** The tokens of one option: its flag, then its value when there is one. */
  function OneOption(o: IOOption): (r: seq<string>)
  {
    [o.flag] + (match o.value case Some(v) => [v] case None => [])
  }

  /** The tokens `append(contentsOf:)` adds for a list of options, in order. */
  function OptionTokens(opts: seq<IOOption>): (r: seq<string>)
    ensures |r| >= |opts|
  {
    if |opts| == 0 then [] else OptionTokens(opts[..|opts| - 1]) + OneOption(opts[|opts| - 1])
  }

  /** Options contribute one token each, plus one more for each option that has a value. */
  lemma {:induction false} OptionTokensLength(opts: seq<IOOption>)
    ensures |OptionTokens(opts)| == |opts| + ValueCount(opts)
  {
    if |opts| > 0 {
      OptionTokensLength(opts[..|opts| - 1]);
    }
  }

  function ValueCount(opts: seq<IOOption>): nat
  {
    if |opts| == 0 then 0 else ValueCount(opts[..|opts| - 1]) + (if opts[|opts| - 1].value.Some? then 1 else 0)
  }

  /** `Array.append(contentsOf:)` over options: the array, passed in place, grows by each option's tokens. */
  method AppendOptions(args: seq<string>, opts: seq<IOOption>) returns (result: seq<string>)
    ensures result == args + OptionTokens(opts)
  {
    result := args;
    for i := 0 to |opts|
      invariant result == args + OptionTokens(opts[..i])
    {
      assert opts[..i + 1][..i] == opts[..i];
      result := result + [opts[i].flag];
      if opts[i].value.Some? {
        result := result + [opts[i].value.value];
      }
    }
    assert opts[..|opts|] == opts;
  }

  // ---------------------------------------------------------------- global options

  datatype LogLevel = LogLevel(enabledFlags: seq<string>, disabledFlags: seq<string>, level: Option<string>)

  /** The text of `LogLevel.argument`: `+flag`s, then `-flag`s, then the level, joined by `+` only after a non-empty prefix. */
  function LogLevelText(l: LogLevel): (r: string)
  {
    var flags := SignedFlags("+", l.enabledFlags) + SignedFlags("-", l.disabledFlags);
    match l.level
    case None => flags
    case Some(level) => if flags == "" then level else flags + "+" + level
  }

  /** Each flag prefixed with the sign, concatenated in order. */
  function SignedFlags(sign: string, flags: seq<string>): (r: string)
    ensures |flags| > 0 && |sign| > 0 ==> |r| >= |sign| && r[..|sign|] == sign
  {
    if |flags| == 0 then "" else
      var init := SignedFlags(sign, flags[..|flags| - 1]);
      assert |flags| > 0 && |sign| > 0 ==> (init + sign + flags[|flags| - 1])[..|sign|] == sign by {
        if |flags[..|flags| - 1]| == 0 {
          assert init == "";
        }
      }
      init + sign + flags[|flags| - 1]
  }

  /** `LogLevel.argument`: the string is built up with `+=` in two loops. */
  method LogLevelArgument(l: LogLevel) returns (result: string)
    ensures result == LogLevelText(l)
  {
    result := "";
    for i := 0 to |l.enabledFlags|
      invariant result == SignedFlags("+", l.enabledFlags[..i])
    {
      assert l.enabledFlags[..i + 1][..i] == l.enabledFlags[..i];
      result := result + "+";
      result := result + l.enabledFlags[i];
    }
    assert l.enabledFlags[..|l.enabledFlags|] == l.enabledFlags;
    ghost var enabledPart := result;
    for i := 0 to |l.disabledFlags|
      invariant result == enabledPart + SignedFlags("-", l.disabledFlags[..i])
    {
      assert l.disabledFlags[..i + 1][..i] == l.disabledFlags[..i];
      result := result + "-";
      result := result + l.disabledFlags[i];
    }
    assert l.disabledFlags[..|l.disabledFlags|] == l.disabledFlags;
    if l.level.Some? {
      if result != "" {
        result := result + "+";
      }
      result := result + l.level.value;
    }
  }

  /** A level alone is rendered bare; after any flag it is joined with `+`; with no level nothing is appended. */
  lemma LogLevelLevelJoin(l: LogLevel)
    ensures l.enabledFlags == [] && l.disabledFlags == [] && l.level.Some? ==> LogLevelText(l) == l.level.value
    ensures (l.enabledFlags != [] || l.disabledFlags != []) && l.level.Some? ==>
              LogLevelText(l) == SignedFlags("+", l.enabledFlags) + SignedFlags("-", l.disabledFlags) + "+" + l.level.value
    ensures l.level.None? ==> LogLevelText(l) == SignedFlags("+", l.enabledFlags) + SignedFlags("-", l.disabledFlags)
    ensures l.enabledFlags != [] ==> LogLevelText(l)[0] == '+'
    ensures l.enabledFlags == [] && l.disabledFlags != [] ==> LogLevelText(l)[0] == '-'
  {
    var flags := SignedFlags("+", l.enabledFlags) + SignedFlags("-", l.disabledFlags);
    if l.enabledFlags != [] {
      assert flags[0] == SignedFlags("+", l.enabledFlags)[0];
    } else if l.disabledFlags != [] {
      assert SignedFlags("+", l.enabledFlags) == "";
    }
  }

  lemma LogLevelExample()
    ensures LogLevelText(LogLevel(["repeat", "level"], [], Some("info"))) == "+repeat+level+info"
  {
    TwoFlagsAndLevel("repeat", "level", "info");
    SampleText();
  }

  lemma SampleText()
    ensures "+" + "repeat" + "+" + "level" + "+" + "info" == "+repeat+level+info"
  {
    assert "+" + "repeat" == "+repeat";
    assert "+repeat" + "+" == "+repeat+";
    assert "+repeat+" + "level" == "+repeat+level";
    assert "+repeat+level" + "+" == "+repeat+level+";
  }

  lemma DisabledLogLevelExample()
    ensures LogLevelText(LogLevel([], ["repeat"], None)) == "-repeat"
    ensures LogLevelText(LogLevel([], [], Some("quiet"))) == "quiet"
  {
    OneDisabledFlag("repeat");
  }

  lemma TwoFlagsAndLevel(a: string, b: string, level: string)
    ensures LogLevelText(LogLevel([a, b], [], Some(level))) == "+" + a + "+" + b + "+" + level
  {
    assert [a, b][..1] == [a];
    assert [a][..0] == [];
    assert SignedFlags("+", [a]) == "+" + a;
    assert SignedFlags("+", [a, b]) == "+" + a + "+" + b;
  }

  lemma OneDisabledFlag(a: string)
    ensures LogLevelText(LogLevel([], [a], None)) == "-" + a
  {
    assert [a][..0] == [];
    assert SignedFlags("-", [a]) == "" + "-" + a == "-" + a;
    assert SignedFlags("+", []) + ("-" + a) == "-" + a;
  }

  datatype DeviceType = Create(device: string, parameters: seq<(string, string)>) | Derive(sourceName: string)

  datatype HardwareDevice = HardwareDevice(hwType: string, name: string, device: Option<DeviceType>)

  /** `,key=value` for each parameter, in the given order. */
  function ParameterText(parameters: seq<(string, string)>): string
  {
    if |parameters| == 0 then "" else
      ParameterText(parameters[..|parameters| - 1]) + "," + parameters[|parameters| - 1].0 + "=" + parameters[|parameters| - 1].1
  }

  /** The text of `HardwareDevice.argument`. */
  function HardwareDeviceText(d: HardwareDevice): (r: string)
  {
    d.hwType + (if d.name != "" then "=" + d.name else "") + DeviceText(d.device)
  }

  /** What follows the type and the name: `:device,key=value…` to create, `@source` to derive. */
  function DeviceText(device: Option<DeviceType>): string
  {
    match device
    case None => ""
    case Some(Create(device, parameters)) => ":" + device + ParameterText(parameters)
    case Some(Derive(sourceName)) => "@" + sourceName
  }

  /** `HardwareDevice.argument`: `result` built up with `+=`, one loop over the parameters. */
  method HardwareDeviceArgument(d: HardwareDevice) returns (result: string)
    ensures result == HardwareDeviceText(d)
  {
    result := d.hwType;
    if d.name != "" {
      result := result + "=";
      result := result + d.name;
    }
    ghost var named := result;
    if d.device.Some? {
      match d.device.value {
        case Create(device, parameters) =>
          result := result + ":";
          result := result + device;
          result := AppendParameters(result, parameters);
          Associates4(named, ":", device, ParameterText(parameters));
        case Derive(sourceName) =>
          result := result + "@";
          result := result + sourceName;
      }
    }
  }

  /** The loop over the parameters: `,key=value` appended for each. */
  method AppendParameters(head: string, parameters: seq<(string, string)>) returns (result: string)
    ensures result == head + ParameterText(parameters)
  {
    result := head;
    for i := 0 to |parameters|
      invariant result == head + ParameterText(parameters[..i])
    {
      assert parameters[..i + 1][..i] == parameters[..i];
      ghost var before := ParameterText(parameters[..i]);
      result := result + ",";
      result := result + parameters[i].0;
      result := result + "=";
      result := result + parameters[i].1;
      Associates6(head, before, ",", parameters[i].0, "=", parameters[i].1);
    }
    assert parameters[..|parameters|] == parameters;
  }

  lemma Associates4(a: string, b: string, c: string, d: string)
    ensures a + b + c + d == a + (b + c + d)
  {
  }

  lemma Associates6(a: string, b: string, c: string, d: string, e: string, f: string)
    ensures a + b + c + d + e + f == a + (b + c + d + e + f)
  {
  }

  /** The type always leads; a name, if non-empty, follows after `=`. */
  lemma HardwareDeviceShape(d: HardwareDevice)
    ensures HardwareDeviceText(d)[..|d.hwType|] == d.hwType
    ensures d.name != "" ==> HardwareDeviceText(d)[|d.hwType|..|d.hwType| + 1 + |d.name|] == "=" + d.name
    ensures HardwareDeviceText(HardwareDevice("videotoolbox", "", None)) == "videotoolbox"
    ensures HardwareDeviceText(HardwareDevice("cuda", "gpu", Some(Create("0", [("a", "1")])))) == "cuda=gpu:0,a=1"
    ensures HardwareDeviceText(HardwareDevice("vaapi", "", Some(Derive("gpu")))) == "vaapi@gpu"
  {
    assert [("a", "1")][..0] == [];
  }

  /** `GlobalOptions`; the `Double` options hold their rendered text. */
  datatype GlobalOptions = GlobalOptions(
    logLevel: Option<LogLevel>,
    hideBanner: bool,
    cpuflags: Option<string>,
    overwrite: Option<bool>,
    filterThreadNumber: Option<int>,
    stats: bool,
    filterComplexThreadNumber: Option<int>,
    filtergraph: Option<string>,
    filterComplextScriptFilename: Option<string>,
    sdpFile: Option<string>,
    maxErrorRate: Option<string>,
    stopAndExitOnError: bool,
    noAutoConversionFilters: bool,
    statsPeriod: Option<string>,
    enableStdin: bool,
    progressUrl: Option<string>,
    debugTimestamp: bool,
    benchmark: bool,
    benchmarkAll: bool,
    timelimit: Option<string>,
    dumpPacket: bool,
    dumpHex: bool,
    showQPHistogram: bool,
    initHardwareDevices: seq<HardwareDevice>)

  /** The defaults of `GlobalOptions.init`. */
  const DefaultGlobalOptions: GlobalOptions := GlobalOptions(
    None, false, None, None, None, true, None, None, None, None, None, false,
    false, None, true, None, false, false, false, None, false, false, false, [])


  function LogLevelValue(o: Option<LogLevel>): (r: Option<string>)
    ensures o.None? <==> r.None?
  {
    match o
    case Some(l) => Some(LogLevelText(l))
    case None => None
  }

  function OverwriteTokens(overwrite: Option<bool>): (r: seq<string>)
  {
    match overwrite
    case None => []
    case Some(b) => [if b then "-y" else "-n"]
  }

  /** One `-init_hw_device <argument>` pair per device, in order. */
  function HardwareTokens(devices: seq<HardwareDevice>): (r: seq<string>)
    ensures |r| == 2 * |devices|
  {
    if |devices| == 0 then [] else
      HardwareTokens(devices[..|devices| - 1]) + ["-init_hw_device", HardwareDeviceText(devices[|devices| - 1])]
  }

  /** The tokens of `GlobalOptions.arguments`: each option's tokens in the source's order, then the devices. */
  function GlobalTokens(g: GlobalOptions): (r: seq<string>)
  {
    OptionGroupTokens(g) + HardwareTokens(g.initHardwareDevices)
  }

  /**
   * Every option except the hardware devices, each rendered by the builder
   * rule: four runs, each appended to the tokens before it.
   */
  function OptionGroupTokens(g: GlobalOptions): seq<string>
  {
    AppendLimitOptions(AppendDebugOptions(AppendFilterOptions(LoggingTokens(g), g), g), g)
  }

  function LoggingTokens(g: GlobalOptions): seq<string>
  {
    ValueTokens("-loglevel", LogLevelValue(g.logLevel)) + FlagTokens("-hide_banner", g.hideBanner)
    + ValueTokens("-cpuflags", g.cpuflags) + ValueTokens("-filter_threads", IntText(g.filterThreadNumber))
    + ValueTokens("--filter_complex_threads", IntText(g.filterComplexThreadNumber)) + OverwriteTokens(g.overwrite)
  }

  function AppendFilterOptions(prefix: seq<string>, g: GlobalOptions): seq<string>
  {
    prefix
    + ValueTokens("-filter_complex_script", g.filterComplextScriptFilename) + ValueTokens("-sdp_file", g.sdpFile)
    + FlagTokens("-nostats", !g.stats) + ValueTokens("-filter_complex", g.filtergraph)
    + FlagTokens("-xerror", g.stopAndExitOnError) + FlagTokens("-noauto_conversion_filters", g.noAutoConversionFilters)
  }

  function AppendDebugOptions(prefix: seq<string>, g: GlobalOptions): seq<string>
  {
    prefix
    + ValueTokens("-stats_period", g.statsPeriod) + FlagTokens("-debug_ts", g.debugTimestamp)
    + FlagTokens("-benchmark", g.benchmark) + FlagTokens("-benchmark_all", g.benchmarkAll)
    + ValueTokens("-timelimit", g.timelimit) + FlagTokens("-dump", g.dumpPacket)
  }

  function AppendLimitOptions(prefix: seq<string>, g: GlobalOptions): seq<string>
  {
    prefix
    + FlagTokens("-hex", g.dumpHex) + FlagTokens("-qphist", g.showQPHistogram)
    + ValueTokens("-max_error_rate", g.maxErrorRate) + ValueTokens("-progress", g.progressUrl)
    + FlagTokens("-nostdin", !g.enableStdin)
  }

  /** `GlobalOptions.arguments`: every option goes through one `ArgumentBuilder`. */
  method GlobalArguments(g: GlobalOptions) returns (r: seq<string>)
    ensures r == GlobalTokens(g)
  {
    var builder := new ArgumentBuilder();
    AddLoggingOptions(builder, g);
    AddFilterOptions(builder, g);
    AddDebugOptions(builder, g);
    AddLimitOptions(builder, g);
    AddHardwareDevices(builder, g.initHardwareDevices);
    r := builder.arguments;
  }

  /** The closing `forEach` of `GlobalOptions.arguments`: one `-init_hw_device` option per device. */
  method AddHardwareDevices(builder: ArgumentBuilder, devices: seq<HardwareDevice>)
    modifies builder
    ensures builder.arguments == old(builder.arguments) + HardwareTokens(devices)
  {
    ghost var head := builder.arguments;
    for i := 0 to |devices|
      invariant builder.arguments == head + HardwareTokens(devices[..i])
    {
      assert devices[..i + 1][..i] == devices[..i];
      var text := HardwareDeviceArgument(devices[i]);
      builder.AddValue("-init_hw_device", Some(text));
      AppendAssociates(head, HardwareTokens(devices[..i]), ["-init_hw_device", text]);
    }
    assert devices[..|devices|] == devices;
  }

  /** The first run of `GlobalOptions.arguments`, on a fresh builder. */
  method AddLoggingOptions(builder: ArgumentBuilder, g: GlobalOptions)
    requires builder.arguments == []
    modifies builder
    ensures builder.arguments == LoggingTokens(g)
  {
    var logLevel: Option<string> := None;
    if g.logLevel.Some? {
      var text := LogLevelArgument(g.logLevel.value);
      logLevel := Some(text);
    }
    builder.AddValue("-loglevel", logLevel);
    assert builder.arguments == ValueTokens("-loglevel", LogLevelValue(g.logLevel));
    builder.AddWhen("-hide_banner", g.hideBanner);
    builder.AddValue("-cpuflags", g.cpuflags);
    builder.AddValue("-filter_threads", IntText(g.filterThreadNumber));
    builder.AddValue("--filter_complex_threads", IntText(g.filterComplexThreadNumber));
    ghost var beforeOverwrite := builder.arguments;
    if g.overwrite.Some? {
      builder.Add(if g.overwrite.value then "-y" else "-n");
    }
    assert builder.arguments == beforeOverwrite + OverwriteTokens(g.overwrite);
  }

  method AddFilterOptions(builder: ArgumentBuilder, g: GlobalOptions)
    modifies builder
    ensures builder.arguments == AppendFilterOptions(old(builder.arguments), g)
  {
    builder.AddValue("-filter_complex_script", g.filterComplextScriptFilename);
    builder.AddValue("-sdp_file", g.sdpFile);
    builder.AddWhen("-nostats", !g.stats);
    builder.AddValue("-filter_complex", g.filtergraph);
    builder.AddWhen("-xerror", g.stopAndExitOnError);
    builder.AddWhen("-noauto_conversion_filters", g.noAutoConversionFilters);
  }

  method AddDebugOptions(builder: ArgumentBuilder, g: GlobalOptions)
    modifies builder
    ensures builder.arguments == AppendDebugOptions(old(builder.arguments), g)
  {
    builder.AddValue("-stats_period", g.statsPeriod);
    builder.AddWhen("-debug_ts", g.debugTimestamp);
    builder.AddWhen("-benchmark", g.benchmark);
    builder.AddWhen("-benchmark_all", g.benchmarkAll);
    builder.AddValue("-timelimit", g.timelimit);
    builder.AddWhen("-dump", g.dumpPacket);
  }

  method AddLimitOptions(builder: ArgumentBuilder, g: GlobalOptions)
    modifies builder
    ensures builder.arguments == AppendLimitOptions(old(builder.arguments), g)
  {
    builder.AddWhen("-hex", g.dumpHex);
    builder.AddWhen("-qphist", g.showQPHistogram);
    builder.AddValue("-max_error_rate", g.maxErrorRate);
    builder.AddValue("-progress", g.progressUrl);
    builder.AddWhen("-nostdin", !g.enableStdin);
  }

  /** With every option at its default nothing is emitted: `stats` and `enableStdin` default to on, which suppresses `-nostats` and `-nostdin`. */
  lemma DefaultGlobalOptionsRenderNothing()
    ensures GlobalTokens(DefaultGlobalOptions) == []
  {
  }

  /** Switching one option away from its default emits only that option. */
  lemma SingleGlobalOptions()
    ensures GlobalTokens(DefaultGlobalOptions.(stats := false)) == ["-nostats"]
    ensures GlobalTokens(DefaultGlobalOptions.(enableStdin := false)) == ["-nostdin"]
    ensures GlobalTokens(DefaultGlobalOptions.(overwrite := Some(true))) == ["-y"]
    ensures GlobalTokens(DefaultGlobalOptions.(overwrite := Some(false))) == ["-n"]
    ensures GlobalTokens(DefaultGlobalOptions.(logLevel := Some(LogLevel([], [], Some("error"))))) == ["-loglevel", "error"]
  {
  }

  // ---------------------------------------------------------------- the command line

  datatype Input = Input(url: string, options: seq<IOOption>)
  datatype Output = Output(url: string, options: seq<IOOption>)

  datatype FFmpegCommand = FFmpegCommand(global: GlobalOptions, inputs: seq<Input>, outputs: seq<Output>)

  /** `FFmpeg()`: default global options, no files. */
  const DefaultCommand: FFmpegCommand := FFmpegCommand(DefaultGlobalOptions, [], [])

  /** An input's options, then `-i`, then its url. */
  function InputTokens(input: Input): (r: seq<string>)
    ensures |r| >= 2 && r[|r| - 2] == "-i" && r[|r| - 1] == input.url
  {
    OptionTokens(input.options) + ["-i", input.url]
  }

  /** An output's options, then its url. */
  function OutputTokens(output: Output): (r: seq<string>)
    ensures |r| >= 1 && r[|r| - 1] == output.url
  {
    OptionTokens(output.options) + [output.url]
  }

  function InputsTokens(inputs: seq<Input>): seq<string>
  {
    if |inputs| == 0 then [] else InputsTokens(inputs[..|inputs| - 1]) + InputTokens(inputs[|inputs| - 1])
  }

  function OutputsTokens(outputs: seq<Output>): seq<string>
  {
    if |outputs| == 0 then [] else OutputsTokens(outputs[..|outputs| - 1]) + OutputTokens(outputs[|outputs| - 1])
  }

  /** The whole command line: global tokens, then every input, then every output. */
  function CommandTokens(f: FFmpegCommand): seq<string>
  {
    GlobalTokens(f.global) + InputsTokens(f.inputs) + OutputsTokens(f.outputs)
  }

  /** `FFmpeg.arguments`: the global tokens, then the two `forEach` loops appending to the same array. */
  method CommandArguments(f: FFmpegCommand) returns (args: seq<string>)
    ensures args == CommandTokens(f)
  {
    args := GlobalArguments(f.global);
    args := AppendInputs(args, f.inputs);
    args := AppendOutputs(args, f.outputs);
  }

  /** `inputs.forEach`: options, `-i`, url, for each input in order. */
  method AppendInputs(args: seq<string>, inputs: seq<Input>) returns (result: seq<string>)
    ensures result == args + InputsTokens(inputs)
  {
    result := args;
    for i := 0 to |inputs|
      invariant result == args + InputsTokens(inputs[..i])
    {
      assert inputs[..i + 1][..i] == inputs[..i];
      result := AppendOptions(result, inputs[i].options);
      result := result + ["-i"];
      result := result + [inputs[i].url];
      assert result == args + InputsTokens(inputs[..i]) + InputTokens(inputs[i]);
      AppendAssociates(args, InputsTokens(inputs[..i]), InputTokens(inputs[i]));
    }
    assert inputs[..|inputs|] == inputs;
  }

  /** `outputs.forEach`: options, url, for each output in order. */
  method AppendOutputs(args: seq<string>, outputs: seq<Output>) returns (result: seq<string>)
    ensures result == args + OutputsTokens(outputs)
  {
    result := args;
    for i := 0 to |outputs|
      invariant result == args + OutputsTokens(outputs[..i])
    {
      assert outputs[..i + 1][..i] == outputs[..i];
      result := AppendOptions(result, outputs[i].options);
      result := result + [outputs[i].url];
      AppendAssociates(args, OutputsTokens(outputs[..i]), OutputTokens(outputs[i]));
    }
    assert outputs[..|outputs|] == outputs;
  }

  /** `FFmpeg()` renders no tokens at all. */
  lemma DefaultCommandIsEmpty()
    ensures CommandTokens(DefaultCommand) == []
  {
    DefaultGlobalOptionsRenderNothing();
  }

  /** With at least one output the last token is the last output's url; each input contributes `-i` right before its url. */
  lemma CommandEndsWithOutput(f: FFmpegCommand)
    requires |f.outputs| > 0
    ensures var r := CommandTokens(f); |r| > 0 && r[|r| - 1] == f.outputs[|f.outputs| - 1].url
  {
    EndsWithLastOutput(GlobalTokens(f.global) + InputsTokens(f.inputs), f.outputs);
  }

  lemma EndsWithLastOutput(head: seq<string>, outputs: seq<Output>)
    requires |outputs| > 0
    ensures var r := head + OutputsTokens(outputs); |r| > 0 && r[|r| - 1] == outputs[|outputs| - 1].url
  {
    var init := outputs[..|outputs| - 1];
    var last := OutputTokens(outputs[|outputs| - 1]);
    assert OutputsTokens(outputs) == OutputsTokens(init) + last;
    AppendAssociates(head, OutputsTokens(init), last);
    LastOfAppend(head + OutputsTokens(init), last);
  }

  lemma LastOfAppend(a: seq<string>, b: seq<string>)
    requires |b| > 0
    ensures |a + b| > 0 && (a + b)[|a + b| - 1] == b[|b| - 1]
  {
  }

  /** Copying the metadata of stream 0 of input 0. */
  lemma MapMetadataStreamZero()
    ensures MapMetadata(None, 0, Some(Stream(Some(StreamIndex(0))))) == IOOption("-map_metadata", Some("0:s:0"))
  {
    SpecifierExamples();
    assert IntToString(0) == "0";
    assert OptionalMetadataArgument(Some(Stream(Some(StreamIndex(0))))) == ":s:0";
    assert OptionalMetadataArgument(None) == "";
    assert "-map_metadata" + "" == "-map_metadata";
    assert "0" + ":s:0" == "0:s:0";
  }

  /** A transcode of `in.ogg` to `out.mp3` copying the metadata of input 0, stream 0. */
  lemma MetadataMapExample()
    ensures CommandTokens(FFmpegCommand(DefaultGlobalOptions, [Input("in.ogg", [])],
              [Output("out.mp3", [MapMetadata(None, 0, Some(Stream(Some(StreamIndex(0)))))])]))
            == ["-i", "in.ogg", "-map_metadata", "0:s:0", "out.mp3"]
  {
    var o := IOOption("-map_metadata", Some("0:s:0"));
    MapMetadataStreamZero();
    OneOptionTokens(o);
    DefaultGlobalOptionsRenderNothing();
    SimpleCommand(DefaultGlobalOptions, "in.ogg", "out.mp3", [o]);
    FiveTokens("-i", "in.ogg", "-map_metadata", "0:s:0", "out.mp3");
  }

  lemma FiveTokens(a: string, b: string, c: string, d: string, e: string)
    ensures [a, b] + ([c] + [d]) + [e] == [a, b, c, d, e]
  {
  }

  /** With no global tokens, one input without options and one output: `-i input`, the output's options, the output. */
  lemma SimpleCommand(g: GlobalOptions, input: string, output: string, options: seq<IOOption>)
    requires GlobalTokens(g) == []
    ensures CommandTokens(FFmpegCommand(g, [Input(input, [])], [Output(output, options)]))
            == ["-i", input] + OptionTokens(options) + [output]
  {
    var f := FFmpegCommand(g, [Input(input, [])], [Output(output, options)]);
    SingleInputTokens(input);
    SingleOutputTokens(output, options);
    assert CommandTokens(f) == GlobalTokens(g) + InputsTokens(f.inputs) + OutputsTokens(f.outputs);
    EmptyThenTwo(["-i", input], OptionTokens(options), [output]);
  }

  lemma EmptyThenTwo(a: seq<string>, b: seq<string>, c: seq<string>)
    ensures [] + a + (b + c) == a + b + c
  {
  }

  lemma OneOptionTokens(o: IOOption)
    ensures OptionTokens([o]) == OneOption(o)
  {
    assert [o][..0] == [];
  }

  lemma SingleInputTokens(url: string)
    ensures InputsTokens([Input(url, [])]) == ["-i", url]
  {
    assert [Input(url, [])][..0] == [];
  }

  lemma SingleOutputTokens(url: string, options: seq<IOOption>)
    ensures OutputsTokens([Output(url, options)]) == OptionTokens(options) + [url]
  {
    assert [Output(url, options)][..0] == [];
  }
}
