/*
 * vspipe, the VapourSynth script runner: the command line `VsPipe` builds
 * and the parser of the report `vspipe --info` prints.
 */
module VsPipes {
  import opened Wrappers
  import opened Text
  import opened Arguments

  /** `Output.GraphOption`: how much of the filter graph `-g` prints. */
  datatype GraphOption = Simple | Full

  function GraphRaw(o: GraphOption): (r: string)
    ensures r == "simple" <==> o == Simple
    ensures r == "full" <==> o == Full
  {
    match o
    case Simple => "simple"
    case Full => "full"
  }

  /** `Output.FileOutput`: the word naming where the frames go. */
  datatype FileOutput = FileOutput(rawValue: string)

  /** `FileOutput.stdout`. */
  const Stdout := FileOutput("-")

  /** `FileOutput.none`: discard the frames. */
  const NoOutput := FileOutput(".")

  /**
   * `FileOutput.path(_:)` as the source has it: its two checks compare the
   * string literal "value" instead of the parameter, so they never fail.
   */
  function Path(value: string): FileOutput
  {
    FileOutput(value)
  }

  /** The words `-`, `--` and `.` are vspipe's own; a path may not be one of them. */
  predicate Reserved(value: string)
  {
    value == "-" || value == "--" || value == "."
  }

  /**
   * `FileOutput.path(_:)` with the checks applied to the parameter: a
   * reserved word is refused (`None`, the failed assertion).
   */
  function CheckedPath(value: string): (r: Option<FileOutput>)
    ensures r.None? <==> Reserved(value)
    ensures r.Some? ==> r.value.rawValue == value && r.value != Stdout && r.value != NoOutput
  {
    if Reserved(value) then None else Some(FileOutput(value))
  }

  /** The checks as written let the reserved words through: `path("-")` is `stdout`. */
  lemma PathAcceptsReserved()
    ensures Path("-") == Stdout && Path(".") == NoOutput
    ensures CheckedPath("-").None? && CheckedPath(".").None? && CheckedPath("--").None?
  {
  }

  /** `VsPipe.Output`. */
  datatype Output = Info | Graph(option: GraphOption) | File(file: FileOutput)

  /** `VsPipe.OutputContainer`: the headers `-c` adds. */
  datatype OutputContainer = Y4m | Wav | W64

  function ContainerRaw(c: OutputContainer): (r: string)
    ensures r == "y4m" <==> c == Y4m
    ensures r == "wav" <==> c == Wav
    ensures r == "w64" <==> c == W64
  {
    match c
    case Y4m => "y4m"
    case Wav => "wav"
    case W64 => "w64"
  }

  function ContainerText(c: Option<OutputContainer>): Option<string>
  {
    match c
    case Some(k) => Some(ContainerRaw(k))
    case None => None
  }

  /** The stored properties of `VsPipe`. */
  datatype VsPipe = VsPipe(
    script: string,
    output: Output,
    start: Option<int>,
    end: Option<int>,
    outputIndex: Option<int>,
    requests: Option<int>,
    container: Option<OutputContainer>,
    timecodes: Option<string>,
    json: Option<string>,
    progress: bool,
    filterTime: bool)

  /** `VsPipe.init`: the remaining options unset, both switches off. */
  function NewVsPipe(script: string, output: Output, start: Option<int>, end: Option<int>, container: Option<OutputContainer>): VsPipe
  {
    VsPipe(script, output, start, end, None, None, container, None, None, false, false)
  }

  /** The common options, in the order `writeArguments` adds them. */
  function OptionTokens(v: VsPipe): seq<string>
  {
    RangeTokens(v) + OutputOptionTokens(v)
  }

  /** The frame range, the output index and the request count. */
  function RangeTokens(v: VsPipe): seq<string>
  {
    ValueTokens("-s", IntText(v.start)) + ValueTokens("-e", IntText(v.end))
    + ValueTokens("-o", IntText(v.outputIndex)) + ValueTokens("-r", IntText(v.requests))
  }

  /** The container, the side files and the two switches. */
  function OutputOptionTokens(v: VsPipe): seq<string>
  {
    ValueTokens("-c", ContainerText(v.container)) + ValueTokens("-t", v.timecodes)
    + ValueTokens("-j", v.json) + FlagTokens("-p", v.progress) + FlagTokens("--filter-time", v.filterTime)
  }

  /** The closing `switch output`: the mode switch and the script, or the script and the destination. */
  function OutputTokens(script: string, output: Output): seq<string>
  {
    match output
    case Info => ["-i", script]
    case Graph(o) => ["-g", GraphRaw(o), script]
    case File(f) => [script, f.rawValue]
  }

  /** Every word `writeArguments` adds, in order. */
  function VsPipeTokens(v: VsPipe): seq<string>
  {
    OptionTokens(v) + OutputTokens(v.script, v.output)
  }

  /** `writeArguments(to:)`. */
  method WriteArguments(v: VsPipe, builder: ArgumentBuilder)
    modifies builder
    ensures builder.arguments == old(builder.arguments) + VsPipeTokens(v)
  {
    AddOptions(v, builder);
    AddOutput(v.script, v.output, builder);
    AppendAssociates(old(builder.arguments), OptionTokens(v), OutputTokens(v.script, v.output));
  }

  method AddOptions(v: VsPipe, builder: ArgumentBuilder)
    modifies builder
    ensures builder.arguments == old(builder.arguments) + OptionTokens(v)
  {
    AddRange(v, builder);
    AddOutputOptions(v, builder);
    AppendAssociates(old(builder.arguments), RangeTokens(v), OutputOptionTokens(v));
  }

  method AddRange(v: VsPipe, builder: ArgumentBuilder)
    modifies builder
    ensures builder.arguments == old(builder.arguments) + RangeTokens(v)
  {
    ghost var head := builder.arguments;
    builder.AddValue("-s", IntText(v.start));
    builder.AddValue("-e", IntText(v.end));
    builder.AddValue("-o", IntText(v.outputIndex));
    builder.AddValue("-r", IntText(v.requests));
    AppendAssociates5(head, ValueTokens("-s", IntText(v.start)), ValueTokens("-e", IntText(v.end)),
      ValueTokens("-o", IntText(v.outputIndex)), ValueTokens("-r", IntText(v.requests)));
  }

  method AddOutputOptions(v: VsPipe, builder: ArgumentBuilder)
    modifies builder
    ensures builder.arguments == old(builder.arguments) + OutputOptionTokens(v)
  {
    ghost var head := builder.arguments;
    builder.AddValue("-c", ContainerText(v.container));
    builder.AddValue("-t", v.timecodes);
    builder.AddValue("-j", v.json);
    builder.AddWhen("-p", v.progress);
    builder.AddWhen("--filter-time", v.filterTime);
    AppendAssociates6(head, ValueTokens("-c", ContainerText(v.container)), ValueTokens("-t", v.timecodes),
      ValueTokens("-j", v.json), FlagTokens("-p", v.progress), FlagTokens("--filter-time", v.filterTime));
  }

  method AddOutput(script: string, output: Output, builder: ArgumentBuilder)
    modifies builder
    ensures builder.arguments == old(builder.arguments) + OutputTokens(script, output)
  {
    match output {
      case Info =>
        builder.Add("-i");
        builder.Add(script);
      case Graph(o) =>
        builder.AddValue("-g", Some(GraphRaw(o)));
        builder.Add(script);
      case File(f) =>
        builder.Add(script);
        builder.Add(f.rawValue);
    }
  }

  /**
   * The output words close the command: the script is last for `--info`
   * and `-g`, and second to last, before the destination, for a file.
   */
  lemma OutputComesLast(v: VsPipe)
    ensures var r := VsPipeTokens(v); var n := |r|;
      match v.output
      case Info => n >= 2 && r[n - 2..] == ["-i", v.script]
      case Graph(o) => n >= 3 && r[n - 3..] == ["-g", GraphRaw(o), v.script]
      case File(f) => n >= 2 && r[n - 2..] == [v.script, f.rawValue]
  {
    var r := VsPipeTokens(v);
    assert r[|OptionTokens(v)|..] == OutputTokens(v.script, v.output);
  }

  /** With no option set, the command is the output words alone. */
  lemma DefaultArguments(script: string, output: Output)
    ensures VsPipeTokens(NewVsPipe(script, output, None, None, None)) == OutputTokens(script, output)
    ensures output == Output.Info ==> VsPipeTokens(NewVsPipe(script, output, None, None, None)) == ["-i", script]
    ensures output.File? ==> VsPipeTokens(NewVsPipe(script, output, None, None, None)) == [script, output.file.rawValue]
  {
    assert OptionTokens(NewVsPipe(script, output, None, None, None)) == [];
  }

  /** A frame range comes first, start before end, and the file output after it. */
  lemma RangeArguments(script: string, file: FileOutput, s: int, e: int)
    ensures VsPipeTokens(NewVsPipe(script, File(file), Some(s), Some(e), None))
      == ["-s", IntToString(s), "-e", IntToString(e), script, file.rawValue]
  {
    var v := NewVsPipe(script, File(file), Some(s), Some(e), None);
    assert OptionTokens(v) == ["-s", IntToString(s), "-e", IntToString(e)];
  }

  /** The four commands of the example test. */
  lemma Examples()
    ensures VsPipeTokens(NewVsPipe("script.vpy", Output.Info, None, None, None)) == ["-i", "script.vpy"]
    ensures VsPipeTokens(NewVsPipe("script.vpy", File(Stdout), None, None, None)) == ["script.vpy", "-"]
    ensures VsPipeTokens(NewVsPipe("script.vpy", File(NoOutput), None, None, None)) == ["script.vpy", "."]
    ensures CheckedPath("output.raw") == Some(FileOutput("output.raw"))
    ensures VsPipeTokens(NewVsPipe("script.vpy", File(FileOutput("output.raw")), Some(5), Some(100), None))
      == ["-s", "5", "-e", "100", "script.vpy", "output.raw"]
  {
    DefaultArguments("script.vpy", Output.Info);
    DefaultArguments("script.vpy", File(Stdout));
    DefaultArguments("script.vpy", File(NoOutput));
    RangeArguments("script.vpy", FileOutput("output.raw"), 5, 100);
    assert IntToString(5) == "5";
    assert IntToString(100) == "100";
  }

  // ----- the `--info` report -----

  /** `Info`; `fps` is the numerator and the denominator. */
  datatype Info = Info(width: int, height: int, frames: int, fps: (int, int), formatName: string, bits: int)

  /** What `Info.parse(_:)` does: return the report, throw, or trap on a line without a colon. */
  datatype InfoOutcome = Parsed(info: Info) | Thrown | Trapped

  /**
   * `split(separator: sep, maxSplits: 1)`, empty pieces omitted: leading
   * separators are skipped, the first run ends at the next separator, and
   * whatever follows it (when not empty) is the second piece.
   */
  function SplitFirst(s: string, sep: char): (parts: seq<string>)
    ensures |parts| <= 2
    ensures forall i :: 0 <= i < |parts| ==> |parts[i]| > 0
    ensures |parts| > 0 ==> sep !in parts[0]
    decreases |s|
  {
    if |s| == 0 then []
    else if s[0] == sep then SplitFirst(s[1..], sep)
    else
      var k := IndexOf(s, sep);
      if k == |s| then [s]
      else [s[..k]] + (if k + 1 < |s| then [s[k + 1..]] else [])
  }

  /** A key, the separator and a non-empty value split back into the key and the value. */
  lemma SplitFirstOfPair(key: string, value: string, sep: char)
    requires |key| > 0 && sep !in key && |value| > 0
    ensures SplitFirst(key + [sep] + value, sep) == [key, value]
  {
    var s := key + [sep] + value;
    SeparatorAssociates(key, sep, value);
    IndexOfConcat(key, [sep] + value, sep);
    assert s[0] == key[0];
    SplitFirstAt(s, sep, |key|);
    assert s[..|key|] == key;
    assert s[|key| + 1..] == value;
  }

  /** Where the first character is not the separator and the first separator is inside, the split is around it. */
  lemma SplitFirstAt(s: string, sep: char, k: nat)
    requires 0 < |s| && s[0] != sep && IndexOf(s, sep) == k && k + 1 < |s|
    ensures SplitFirst(s, sep) == [s[..k], s[k + 1..]]
  {
  }

  /** `parse(fps:)`: the numerator and denominator before the first space; `None` where it throws. */
  function ParseFps(fps: string): (r: Option<(int, int)>)
    ensures r.Some? ==> |Split(fps[..IndexOf(fps, ' ')], '/')| == 2
  {
    var parts := Split(fps[..IndexOf(fps, ' ')], '/');
    if |parts| != 2 then None
    else
      match (ParseInt(parts[0]), ParseInt(parts[1]))
      case (Some(num), Some(den)) => Some((num, den))
      case _ => None
  }

  /** A rate written `num/den`, optionally followed by a note after a space, parses back. */
  lemma FpsRoundTrip(num: int, den: int, note: string)
    requires INT64_MIN <= num <= INT64_MAX && INT64_MIN <= den <= INT64_MAX
    requires note == "" || note[0] == ' '
    ensures ParseFps(IntToString(num) + "/" + IntToString(den) + note) == Some((num, den))
  {
    var main := IntToString(num) + "/" + IntToString(den);
    IntToStringCharacters(num);
    IntToStringCharacters(den);
    assert ' ' !in main;
    FpsNoteIgnored(main, note);
    JoinTwoInts(num, den);
    JoinIntsSplit([num, den], '/');
    var parts := Split(main, '/');
    assert ParseInt(parts[0]) == Some(num) && ParseInt(parts[1]) == Some(den);
    FpsOfParts(main, num, den);
  }

  lemma FpsOfParts(main: string, num: int, den: int)
    requires ' ' !in main && |Split(main, '/')| == 2
    requires ParseInt(Split(main, '/')[0]) == Some(num) && ParseInt(Split(main, '/')[1]) == Some(den)
    ensures ParseFps(main) == Some((num, den))
  {
    assert main[..IndexOf(main, ' ')] == main;
  }

  /** Everything from the first space on is ignored. */
  lemma FpsNoteIgnored(main: string, note: string)
    requires ' ' !in main && (note == "" || note[0] == ' ')
    ensures ParseFps(main + note) == ParseFps(main)
  {
    IndexOfConcat(main, note, ' ');
    var fps := main + note;
    assert fps[..IndexOf(fps, ' ')] == main;
    assert main[..IndexOf(main, ' ')] == main;
  }

  lemma JoinTwoInts(num: int, den: int)
    ensures JoinInts([num, den], "/") == IntToString(num) + "/" + IntToString(den)
  {
    var parts := IntStrings([num, den]);
    assert parts == [IntToString(num), IntToString(den)];
    assert parts[1..] == [IntToString(den)];
    assert Join(parts[1..], "/") == IntToString(den);
  }

  /** The rate line of the parse test, rendered. */
  lemma ExampleRate()
    ensures Rate((30000, 1001), " (29.970 fps)") == "30000/1001 (29.970 fps)"
  {
    ExampleNumerator();
    ExampleDenominator();
  }

  lemma ExampleNumerator()
    ensures IntToString(30000) == "30000"
  {
    assert NatToString(3) == "3";
    assert NatToString(30) == "30";
    assert NatToString(300) == "300";
    assert NatToString(3000) == "3000";
  }

  lemma ExampleDenominator()
    ensures IntToString(1001) == "1001"
  {
    assert NatToString(10) == "10";
    assert NatToString(100) == "100";
  }

  /** The rate of the parse test. */
  lemma FpsExample()
    ensures ParseFps("30000/1001 (29.970 fps)") == Some((30000, 1001))
  {
    ExampleRate();
    FpsRoundTrip(30000, 1001, " (29.970 fps)");
  }

  /** One line of the report as the loop stores it: the key and the trimmed value; `None` where it traps. */
  function Entry(line: string): (r: Option<(string, string)>)
    ensures r.Some? ==> |r.value.0| > 0 && ':' !in r.value.0
  {
    var parts := SplitFirst(line, ':');
    if |parts| == 2 then Some((parts[0], Trim(parts[1]))) else None
  }

  /** A value without surrounding spaces or tabs. */
  predicate Trimmed(s: string)
  {
    |s| == 0 || (!IsWhitespace(s[0]) && !IsWhitespace(s[|s| - 1]))
  }

  lemma TrimPadded(s: string)
    requires Trimmed(s)
    ensures Trim(" " + s) == s
  {
    assert (" " + s)[1..] == s;
  }

  /** A report line: the key, a colon, a space and the value. */
  function Field(key: string, value: string): string
  {
    key + ": " + value
  }

  /** A report line reads back as its key and value. */
  lemma EntryOfField(key: string, value: string)
    requires |key| > 0 && ':' !in key && Trimmed(value)
    ensures Entry(Field(key, value)) == Some((key, value))
  {
    assert key + ": " + value == key + [':'] + (" " + value);
    SplitFirstOfPair(key, " " + value, ':');
    TrimPadded(value);
  }

  /** The dictionary the loop of `Info.parse(_:)` has built after `lines`, or `None` once a line traps. */
  function Props(lines: seq<string>): (r: Option<map<string, string>>)
  {
    if |lines| == 0 then Some(map[])
    else
      var entry := Entry(lines[|lines| - 1]);
      match Props(lines[..|lines| - 1])
      case None => None
      case Some(props) => if entry.None? then None else Some(props[entry.value.0 := entry.value.1])
  }

  /** The loop traps exactly when one of the lines has no key and value around a colon. */
  lemma {:induction false} PropsTraps(lines: seq<string>)
    ensures Props(lines).None? <==> exists i :: 0 <= i < |lines| && Entry(lines[i]).None?
  {
    if |lines| > 0 {
      var init := lines[..|lines| - 1];
      PropsTraps(init);
      if Props(lines).None? && Props(init).Some? {
        assert Entry(lines[|lines| - 1]).None?;
      }
      if Props(init).None? {
        var i :| 0 <= i < |init| && Entry(init[i]).None?;
        assert lines[i] == init[i];
      }
      if exists i :: 0 <= i < |lines| && Entry(lines[i]).None? {
        var i :| 0 <= i < |lines| && Entry(lines[i]).None?;
        if i < |init| {
          assert init[i] == lines[i];
        }
      }
    }
  }

  /** Keys come from the lines, and the last line with a key decides its value. */
  lemma {:induction false} PropsLastWins(lines: seq<string>, i: nat)
    requires Props(lines).Some?
    requires i < |lines| && Entry(lines[i]).Some?
    requires forall j :: i < j < |lines| && Entry(lines[j]).Some? ==> Entry(lines[j]).value.0 != Entry(lines[i]).value.0
    ensures Entry(lines[i]).value.0 in Props(lines).value
    ensures Props(lines).value[Entry(lines[i]).value.0] == Entry(lines[i]).value.1
  {
    var init := lines[..|lines| - 1];
    if i < |lines| - 1 {
      assert init[i] == lines[i];
      forall j | i < j < |init| && Entry(init[j]).Some?
        ensures Entry(init[j]).value.0 != Entry(init[i]).value.0
      {
        assert init[j] == lines[j];
      }
      PropsLastWins(init, i);
    }
  }

  /** Every key of the dictionary is the key of some line. */
  lemma {:induction false} PropsKeysFromLines(lines: seq<string>, key: string)
    requires Props(lines).Some? && key in Props(lines).value
    ensures exists i :: 0 <= i < |lines| && Entry(lines[i]).Some? && Entry(lines[i]).value.0 == key
  {
    var init := lines[..|lines| - 1];
    var last := Entry(lines[|lines| - 1]);
    if last.value.0 != key {
      PropsKeysFromLines(init, key);
      var i :| 0 <= i < |init| && Entry(init[i]).Some? && Entry(init[i]).value.0 == key;
      assert lines[i] == init[i];
    }
  }

  /** The loop over `lines`, as `Info.parse(_:)` runs it on a mutable dictionary. */
  method ReadProps(lines: seq<string>) returns (r: Option<map<string, string>>)
    ensures r == Props(lines)
  {
    var props: map<string, string> := map[];
    for i := 0 to |lines|
      invariant Props(lines[..i]) == Some(props)
    {
      assert lines[..i + 1][..i] == lines[..i];
      var parts := SplitFirst(lines[i], ':');
      if |parts| != 2 {
        assert Entry(lines[i]).None?;
        PropsTraps(lines);
        return None;
      }
      props := props[parts[0] := Trim(parts[1])];
    }
    assert lines[..|lines|] == lines;
    r := Some(props);
  }

  /** `Int(props[key].unwrap()).unwrap()`, `None` where it throws. */
  function IntProp(props: map<string, string>, key: string): Option<int>
  {
    if key in props then ParseInt(props[key]) else None
  }

  /** The six lookups that close `Info.parse(_:)`: any missing key or malformed number throws. */
  function InfoOfProps(props: map<string, string>): (r: InfoOutcome)
    ensures r != Trapped
  {
    var width := IntProp(props, "Width");
    var height := IntProp(props, "Height");
    var frames := IntProp(props, "Frames");
    var fps := if "FPS" in props then ParseFps(props["FPS"]) else None;
    var bits := IntProp(props, "Bits");
    if width.Some? && height.Some? && frames.Some? && fps.Some? && "Format Name" in props && bits.Some? then
      Parsed(Info.Info(width.value, height.value, frames.value, fps.value, props["Format Name"], bits.value))
    else Thrown
  }

  /** Only the six keys matter: dictionaries that agree on them give the same report. */
  lemma InfoOfPropsIgnoresOtherKeys(a: map<string, string>, b: map<string, string>)
    requires forall k :: k in {"Width", "Height", "Frames", "FPS", "Format Name", "Bits"} ==>
      (k in a <==> k in b) && (k in a ==> a[k] == b[k])
    ensures InfoOfProps(a) == InfoOfProps(b)
  {
    assert "Width" in {"Width", "Height", "Frames", "FPS", "Format Name", "Bits"};
    assert "Height" in {"Width", "Height", "Frames", "FPS", "Format Name", "Bits"};
    assert "Frames" in {"Width", "Height", "Frames", "FPS", "Format Name", "Bits"};
    assert "FPS" in {"Width", "Height", "Frames", "FPS", "Format Name", "Bits"};
    assert "Format Name" in {"Width", "Height", "Frames", "FPS", "Format Name", "Bits"};
    assert "Bits" in {"Width", "Height", "Frames", "FPS", "Format Name", "Bits"};
  }

  /** `Info.parse(_:)`: the lines of the text fill the dictionary, then the six lookups. */
  function ParseInfo(text: string): InfoOutcome
  {
    match Props(Split(text, '\n'))
    case None => Trapped
    case Some(props) => InfoOfProps(props)
  }

  /** `Info.parse(_:)` with its loop. */
  method Parse(text: string) returns (r: InfoOutcome)
    ensures r == ParseInfo(text)
  {
    var props := ReadProps(Split(text, '\n'));
    match props {
      case None => r := Trapped;
      case Some(p) => r := InfoOfProps(p);
    }
  }

  /** A line without a colon anywhere in the text traps, before any lookup. */
  lemma LineWithoutColonTraps(text: string, i: nat)
    requires i < |Split(text, '\n')| && ':' !in Split(text, '\n')[i]
    ensures ParseInfo(text) == Trapped
  {
    var line := Split(text, '\n')[i];
    assert |SplitFirst(line, ':')| == 1 by {
      IndexOfConcat(line, "", ':');
      assert line + "" == line;
    }
    PropsTraps(Split(text, '\n'));
  }

  /** Three report lines. */
  function Fields3(k1: string, v1: string, k2: string, v2: string, k3: string, v3: string): seq<string>
  {
    [Field(k1, v1), Field(k2, v2), Field(k3, v3)]
  }

  /** A key and a value a report line can carry and read back. */
  predicate ValidField(key: string, value: string)
  {
    ValidKey(key) && Trimmed(value) && '\n' !in value
  }

  predicate ValidKey(key: string)
  {
    |key| > 0 && ':' !in key && '\n' !in key
  }

  /** The six keys are non-empty and hold no colon. */
  lemma ReportKeysValid()
    ensures ValidKey("Width") && ValidKey("Height") && ValidKey("Frames")
    ensures ValidKey("FPS") && ValidKey("Format Name") && ValidKey("Bits")
  {
  }

  /** A frame rate as vspipe prints it: `num/den`, then the note. */
  function Rate(fps: (int, int), fpsNote: string): string
  {
    IntToString(fps.0) + "/" + IntToString(fps.1) + fpsNote
  }

  /** The six lines vspipe prints for `info`, the rate followed by `fpsNote`. */
  function ReportLines(info: Info, fpsNote: string): (r: seq<string>)
    ensures |r| == 6
  {
    Fields3("Width", IntToString(info.width), "Height", IntToString(info.height), "Frames", IntToString(info.frames))
    + Fields3("FPS", Rate(info.fps, fpsNote), "Format Name", info.formatName, "Bits", IntToString(info.bits))
  }

  /** A report vspipe can print: 64-bit numbers, a format name and a rate note that survive the trimming. */
  predicate Printable(info: Info, fpsNote: string)
  {
    && INT64_MIN <= info.width <= INT64_MAX && INT64_MIN <= info.height <= INT64_MAX
    && INT64_MIN <= info.frames <= INT64_MAX && INT64_MIN <= info.bits <= INT64_MAX
    && INT64_MIN <= info.fps.0 <= INT64_MAX && INT64_MIN <= info.fps.1 <= INT64_MAX
    && Trimmed(info.formatName) && '\n' !in info.formatName
    && (fpsNote == "" || (fpsNote[0] == ' ' && !IsWhitespace(fpsNote[|fpsNote| - 1])))
    && '\n' !in fpsNote
  }

  lemma IntToStringTrimmed(i: int)
    ensures Trimmed(IntToString(i)) && '\n' !in IntToString(i)
  {
    IntToStringCharacters(i);
  }

  lemma RateTrimmed(fps: (int, int), fpsNote: string)
    requires fpsNote == "" || !IsWhitespace(fpsNote[|fpsNote| - 1])
    requires '\n' !in fpsNote
    ensures Trimmed(Rate(fps, fpsNote)) && '\n' !in Rate(fps, fpsNote)
  {
    IntToStringTrimmed(fps.0);
    IntToStringTrimmed(fps.1);
    IntToStringCharacters(fps.0);
  }

  /** Adding one report line stores its value under its key. */
  lemma PropsSnocField(lines: seq<string>, key: string, value: string)
    requires Props(lines).Some? && ValidField(key, value)
    ensures Props(lines + [Field(key, value)]) == Some(Props(lines).value[key := value])
  {
    EntryOfField(key, value);
    assert (lines + [Field(key, value)])[..|lines|] == lines;
  }

  /** Three report lines store their three values, in order. */
  lemma PropsSnocFields(lines: seq<string>, k1: string, v1: string, k2: string, v2: string, k3: string, v3: string)
    requires Props(lines).Some?
    requires ValidField(k1, v1) && ValidField(k2, v2) && ValidField(k3, v3)
    ensures Props(lines + Fields3(k1, v1, k2, v2, k3, v3)) == Some(Props(lines).value[k1 := v1][k2 := v2][k3 := v3])
  {
    var l1 := lines + [Field(k1, v1)];
    PropsSnocField(lines, k1, v1);
    var l2 := l1 + [Field(k2, v2)];
    PropsSnocField(l1, k2, v2);
    PropsSnocField(l2, k3, v3);
    assert l2 + [Field(k3, v3)] == lines + Fields3(k1, v1, k2, v2, k3, v3);
  }

  /** Three report lines are neither empty nor broken. */
  lemma Fields3Single(k1: string, v1: string, k2: string, v2: string, k3: string, v3: string)
    requires ValidField(k1, v1) && ValidField(k2, v2) && ValidField(k3, v3)
    ensures forall i :: 0 <= i < 3 ==> |Fields3(k1, v1, k2, v2, k3, v3)[i]| > 0 && '\n' !in Fields3(k1, v1, k2, v2, k3, v3)[i]
  {
  }

  /** Each of the six report lines carries a valid key and value. */
  lemma ReportFieldsValid(info: Info, fpsNote: string)
    requires Printable(info, fpsNote)
    ensures ValidField("Width", IntToString(info.width)) && ValidField("Height", IntToString(info.height))
    ensures ValidField("Frames", IntToString(info.frames)) && ValidField("FPS", Rate(info.fps, fpsNote))
    ensures ValidField("Format Name", info.formatName) && ValidField("Bits", IntToString(info.bits))
  {
    ReportKeysValid();
    IntToStringTrimmed(info.width);
    IntToStringTrimmed(info.height);
    IntToStringTrimmed(info.frames);
    IntToStringTrimmed(info.bits);
    RateTrimmed(info.fps, fpsNote);
  }


  /** The dictionary after any trap-free lines followed by the report holds the report's six values. */
  lemma PropsOfReport(extra: seq<string>, info: Info, fpsNote: string)
    requires Props(extra).Some? && Printable(info, fpsNote)
    ensures Props(extra + ReportLines(info, fpsNote)) == Some(ReportProps(Props(extra).value, info, fpsNote))
  {
    ReportFieldsValid(info, fpsNote);
    var counts := Fields3("Width", IntToString(info.width), "Height", IntToString(info.height), "Frames", IntToString(info.frames));
    var rest := Fields3("FPS", Rate(info.fps, fpsNote), "Format Name", info.formatName, "Bits", IntToString(info.bits));
    PropsSnocFields(extra, "Width", IntToString(info.width), "Height", IntToString(info.height),
      "Frames", IntToString(info.frames));
    PropsSnocFields(extra + counts, "FPS", Rate(info.fps, fpsNote), "Format Name", info.formatName,
      "Bits", IntToString(info.bits));
    AppendAssociates(extra, counts, rest);
  }

  /** The lookups succeed when each of the six keys holds a value that reads as the report's field. */
  lemma InfoOfPropsValues(m: map<string, string>, info: Info)
    requires "Width" in m && ParseInt(m["Width"]) == Some(info.width)
    requires "Height" in m && ParseInt(m["Height"]) == Some(info.height)
    requires "Frames" in m && ParseInt(m["Frames"]) == Some(info.frames)
    requires "FPS" in m && ParseFps(m["FPS"]) == Some(info.fps)
    requires "Format Name" in m && m["Format Name"] == info.formatName
    requires "Bits" in m && ParseInt(m["Bits"]) == Some(info.bits)
    ensures InfoOfProps(m) == Parsed(info)
  {
  }

  /** The dictionary `props` after the six report lines have been stored in it. */
  function ReportProps(props: map<string, string>, info: Info, fpsNote: string): map<string, string>
  {
    props
        ["Width" := IntToString(info.width)]
        ["Height" := IntToString(info.height)]
        ["Frames" := IntToString(info.frames)]
        ["FPS" := Rate(info.fps, fpsNote)]
        ["Format Name" := info.formatName]
        ["Bits" := IntToString(info.bits)]
  }

  lemma ReportLookups(props: map<string, string>, info: Info, fpsNote: string)
    ensures var m := ReportProps(props, info, fpsNote);
      && "Width" in m && m["Width"] == IntToString(info.width)
      && "Height" in m && m["Height"] == IntToString(info.height)
      && "Frames" in m && m["Frames"] == IntToString(info.frames)
      && "FPS" in m && m["FPS"] == Rate(info.fps, fpsNote)
      && "Format Name" in m && m["Format Name"] == info.formatName
      && "Bits" in m && m["Bits"] == IntToString(info.bits)
  {
  }

  /** Looking the six values up again gives the report back. */
  lemma InfoOfReportProps(props: map<string, string>, info: Info, fpsNote: string)
    requires Printable(info, fpsNote)
    ensures InfoOfProps(ReportProps(props, info, fpsNote)) == Parsed(info)
  {
    var m := ReportProps(props, info, fpsNote);
    ReportLookups(props, info, fpsNote);
    ParseIntOfIntToString(info.width);
    ParseIntOfIntToString(info.height);
    ParseIntOfIntToString(info.frames);
    ParseIntOfIntToString(info.bits);
    FpsRoundTrip(info.fps.0, info.fps.1, fpsNote);
    InfoOfPropsValues(m, info);
  }

  /** No report line is empty or holds a line break. */
  lemma ReportLinesSingle(info: Info, fpsNote: string)
    requires Printable(info, fpsNote)
    ensures forall i :: 0 <= i < 6 ==> |ReportLines(info, fpsNote)[i]| > 0 && '\n' !in ReportLines(info, fpsNote)[i]
  {
    ReportFieldsValid(info, fpsNote);
    Fields3Single("Width", IntToString(info.width), "Height", IntToString(info.height), "Frames", IntToString(info.frames));
    Fields3Single("FPS", Rate(info.fps, fpsNote), "Format Name", info.formatName, "Bits", IntToString(info.bits));
  }

  /** Lines without line breaks, joined with line breaks, split back into themselves. */
  lemma SplitLines(lines: seq<string>)
    requires forall i :: 0 <= i < |lines| ==> |lines[i]| > 0 && '\n' !in lines[i]
    ensures Split(Join(lines, "\n"), '\n') == lines
  {
    SplitJoin(lines, '\n');
  }

  /**
   * Parsing a printed report gives it back, whatever well-formed lines
   * come before it: later lines overwrite earlier keys, and keys other
   * than the six are ignored.
   */
  lemma ParseReport(extra: seq<string>, info: Info, fpsNote: string)
    requires Printable(info, fpsNote)
    requires forall i :: 0 <= i < |extra| ==> Entry(extra[i]).Some? && '\n' !in extra[i]
    ensures ParseInfo(Join(extra + ReportLines(info, fpsNote), "\n")) == Parsed(info)
  {
    var report := ReportLines(info, fpsNote);
    var lines := extra + report;
    ReportLinesSingle(info, fpsNote);
    forall i | 0 <= i < |lines|
      ensures |lines[i]| > 0 && '\n' !in lines[i]
    {
      if i < |extra| {
        assert lines[i] == extra[i];
      } else {
        assert lines[i] == report[i - |extra|];
      }
    }
    SplitLines(lines);
    PropsTraps(extra);
    PropsOfReport(extra, info, fpsNote);
    InfoOfReportProps(Props(extra).value, info, fpsNote);
  }
}
