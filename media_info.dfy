/**
 * `MediaInfo` from Sources/MediaTools/MediaInfo.swift: the mediainfo command
 * line, built with the token builder: `-f` for the full report, the output
 * format as one `--Output=` token, then the files.
 */
module MediaInfo {
  import opened Wrappers
  import opened Arguments

  /** `Output`, a `String`-backed enum. */
  datatype Output = Html | Xml | OldXml | Json | EBUCore | EBUCoreJson | PBCore | PBCore2

  /** `rawValue`: the explicit raw values, and the case names for the others. */
  function RawValue(o: Output): (s: string)
  {
    match o
    case Html => "HTML"
    case Xml => "XML"
    case OldXml => "OLDXML"
    case Json => "JSON"
    case EBUCore => "EBUCore"
    case EBUCoreJson => "EBUCore_JSON"
    case PBCore => "PBCore"
    case PBCore2 => "PBCore2"
  }

  /** `init?(rawValue:)`. */
  function FromRawValue(s: string): (r: Option<Output>)
  {
    if s == "HTML" then Some(Html)
    else if s == "XML" then Some(Xml)
    else if s == "OLDXML" then Some(OldXml)
    else if s == "JSON" then Some(Json)
    else if s == "EBUCore" then Some(EBUCore)
    else if s == "EBUCore_JSON" then Some(EBUCoreJson)
    else if s == "PBCore" then Some(PBCore)
    else if s == "PBCore2" then Some(PBCore2)
    else None
  }

  /** Raw values and cases are in one-to-one correspondence. */
  lemma RawValueBijection(o: Output, s: string)
    ensures FromRawValue(RawValue(o)) == Some(o)
    ensures FromRawValue(s) == Some(o) <==> RawValue(o) == s
  {
  }

  /** The stored properties. */
  datatype MediaInfo = MediaInfo(full: bool, output: Option<Output>, files: seq<string>)

  /** `init(files:)` with the defaults: no full report, default output. */
  function WithDefaults(files: seq<string>): (m: MediaInfo)
    ensures !m.full && m.output.None? && m.files == files
  {
    MediaInfo(false, None, files)
  }

  const OUTPUT_PREFIX: string := "--Output="

  /** `"--Output=\(output.rawValue)"`. */
  function OutputToken(o: Output): (s: string)
  {
    OUTPUT_PREFIX + RawValue(o)
  }

  /** Reads the format back out of an `--Output=` token. */
  function ReadOutputToken(s: string): (r: Option<Output>)
  {
    if |s| >= |OUTPUT_PREFIX| && s[..|OUTPUT_PREFIX|] == OUTPUT_PREFIX then FromRawValue(s[|OUTPUT_PREFIX|..]) else None
  }

  /** Every format token reads back as its format. */
  lemma OutputTokenRoundTrip(o: Output)
    ensures ReadOutputToken(OutputToken(o)) == Some(o)
  {
    assert OutputToken(o)[..|OUTPUT_PREFIX|] == OUTPUT_PREFIX;
    assert OutputToken(o)[|OUTPUT_PREFIX|..] == RawValue(o);
    RawValueBijection(o, RawValue(o));
  }

  /** The options ahead of the files. */
  function OptionTokens(m: MediaInfo): (r: seq<string>)
  {
    FlagTokens("-f", m.full) + (match m.output case Some(o) => [OutputToken(o)] case None => [])
  }

  /** `arguments`. */
  function ArgumentTokens(m: MediaInfo): (r: seq<string>)
  {
    OptionTokens(m) + m.files
  }

  /**
   * `-f` first exactly when the full report is asked for; one token naming
   * the format exactly when one is set; then the files, last and in order.
   */
  lemma ArgumentsShape(m: MediaInfo)
    ensures var r := ArgumentTokens(m);
      && |r| == (if m.full then 1 else 0) + (if m.output.Some? then 1 else 0) + |m.files|
      && r[|r| - |m.files|..] == m.files
      && (m.full ==> r[0] == "-f")
      && ("-f" in OptionTokens(m) <==> m.full)
      && (m.output.Some? ==> r[if m.full then 1 else 0] == OutputToken(m.output.value))
      && ((exists k :: 0 <= k < |OptionTokens(m)| && ReadOutputToken(OptionTokens(m)[k]).Some?) <==> m.output.Some?)
      && (forall k :: 0 <= k < |OptionTokens(m)| && ReadOutputToken(OptionTokens(m)[k]).Some? ==> ReadOutputToken(OptionTokens(m)[k]) == m.output)
  {
    var options := OptionTokens(m);
    var r := ArgumentTokens(m);
    assert r[|r| - |m.files|..] == m.files;
    assert ReadOutputToken("-f") == None;
    if m.output.Some? {
      OutputTokenRoundTrip(m.output.value);
      assert OutputToken(m.output.value) != "-f";
    }
  }

  /** With no option and no file the command line is empty. */
  lemma NothingRequested()
    ensures ArgumentTokens(WithDefaults([])) == []
  {
  }

  /** `arguments`, through the token builder as the source does. */
  method CommandArguments(m: MediaInfo) returns (r: seq<string>)
    ensures r == ArgumentTokens(m)
  {
    var builder := new ArgumentBuilder();
    builder.AddWhen("-f", m.full);
    if m.output.Some? {
      builder.Add("--Output=" + RawValue(m.output.value));
    }
    builder.AppendAll(m.files);
    r := builder.arguments;
  }
}
