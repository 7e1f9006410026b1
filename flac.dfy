/**
 * `FlacEncoder` from Sources/MediaTools/Flac.swift: the flac encoder's
 * command line, with the compression level clamped into flac's 0...8, and the
 * metaflac invocation that prints the MD5 signatures of finished files.
 */
module Flac {
  import opened Wrappers
  import opened Text
  import opened Arguments

  /** Swift's `Int8`. */
  type Int8 = x: int | -128 <= x < 128

  /** Swift's `UInt32`. */
  type UInt32 = x: int | 0 <= x < 0x1_0000_0000

  /** The encoder's stored properties. */
  datatype FlacEncoder = FlacEncoder(
    input: string,
    output: string,
    level: Int8,
    silent: bool,
    padding: Option<UInt32>,
    forceOverwrite: bool)

  /** `init(input:output:)`: level 5, not silent, no padding, no forced overwrite. */
  function WithDefaults(input: string, output: string): (e: FlacEncoder)
    ensures e.input == input && e.output == output
    ensures e.level == 5 && !e.silent && e.padding.None? && !e.forceOverwrite
  {
    FlacEncoder(input, output, 5, false, None, false)
  }

  /** `realLevel`: the level clamped into 0...8. */
  function Clamp(level: int): (r: int)
  {
    if level < 0 then 0 else if level > 8 then 8 else level
  }

  /** Clamping lands in 0...8, keeps a level already there, and is idempotent. */
  lemma ClampRange(level: int)
    ensures 0 <= Clamp(level) <= 8
    ensures 0 <= level <= 8 <==> Clamp(level) == level
    ensures level < 0 ==> Clamp(level) == 0
    ensures level > 8 ==> Clamp(level) == 8
    ensures Clamp(Clamp(level)) == Clamp(level)
  {
  }

  /** `"-\(realLevel)"`. */
  function LevelToken(level: int): (s: string)
  {
    "-" + IntToString(Clamp(level))
  }

  /** The level option is a dash and a single digit that reads back as the clamped level. */
  lemma LevelTokenDigit(level: int)
    ensures |LevelToken(level)| == 2
    ensures LevelToken(level)[0] == '-' && IsDigit(LevelToken(level)[1])
    ensures DigitValue(LevelToken(level)[1]) == Clamp(level)
  {
    ClampRange(level);
    assert IntToString(Clamp(level)) == [DigitChar(Clamp(level))];
  }

  /** `arguments`. */
  function ArgumentTokens(e: FlacEncoder): (r: seq<string>)
  {
    [LevelToken(e.level), "-o", e.output, e.input]
    + FlagTokens("-s", e.silent)
    + FlagTokens("-f", e.forceOverwrite)
    + ValueTokens("-P", IntText(e.padding))
  }

  /**
   * The level, `-o` and the output, then the input; then `-s` exactly when
   * silent, `-f` exactly when overwriting is forced, and `-P` with a padding
   * size that reads back, exactly when one is set.
   */
  lemma ArgumentsShape(e: FlacEncoder)
    ensures var r := ArgumentTokens(e);
      && |r| == 4 + (if e.silent then 1 else 0) + (if e.forceOverwrite then 1 else 0) + (if e.padding.Some? then 2 else 0)
      && r[..4] == [LevelToken(e.level), "-o", e.output, e.input]
      && ("-s" in r[4..] <==> e.silent)
      && ("-f" in r[4..] <==> e.forceOverwrite)
      && ("-P" in r[4..] <==> e.padding.Some?)
      && (e.padding.Some? ==> r[|r| - 2] == "-P" && ParseInt(r[|r| - 1]) == Some(e.padding.value))
  {
    var pad := IntText(e.padding);
    var head := [LevelToken(e.level), "-o", e.output, e.input];
    AppendAssociates4(head, FlagTokens("-s", e.silent), FlagTokens("-f", e.forceOverwrite), ValueTokens("-P", pad));
    HeadAndTail(head, FlagTokens("-s", e.silent) + FlagTokens("-f", e.forceOverwrite) + ValueTokens("-P", pad));
    if e.padding.Some? {
      ParseIntOfIntToString(e.padding.value);
    }
    OptionalTail(e.silent, e.forceOverwrite, pad);
  }

  lemma HeadAndTail(head: seq<string>, tail: seq<string>)
    ensures |head + tail| == |head| + |tail|
    ensures (head + tail)[..|head|] == head && (head + tail)[|head|..] == tail
    ensures |tail| >= 2 ==> (head + tail)[|head + tail| - 2] == tail[|tail| - 2] && (head + tail)[|head + tail| - 1] == tail[|tail| - 1]
  {
  }

  /** The optional part: each flag exactly when enabled, the padding pair last. */
  lemma OptionalTail(silent: bool, forceOverwrite: bool, pad: Option<string>)
    requires pad.Some? ==> |pad.value| > 0 && IsDigit(pad.value[0])
    ensures var t := FlagTokens("-s", silent) + FlagTokens("-f", forceOverwrite) + ValueTokens("-P", pad);
      && |t| == (if silent then 1 else 0) + (if forceOverwrite then 1 else 0) + (if pad.Some? then 2 else 0)
      && ("-s" in t <==> silent)
      && ("-f" in t <==> forceOverwrite)
      && ("-P" in t <==> pad.Some?)
      && (pad.Some? ==> t[|t| - 2] == "-P" && t[|t| - 1] == pad.value)
  {
    if pad.Some? {
      assert pad.value[0] != '-';
      assert pad.value != "-s" && pad.value != "-f" && pad.value != "-P";
    }
  }

  /** The default encoder asks for level 5 and nothing else. */
  lemma DefaultArguments(input: string, output: string)
    ensures ArgumentTokens(WithDefaults(input, output)) == ["-5", "-o", output, input]
  {
    assert DigitChar(5) == '5';
    assert IntToString(5) == "5";
    assert LevelToken(5) == "-5";
    assert IntText(None) == None;
  }

  /** `arguments`: clamps into a local `realLevel`, then appends the optional flags. */
  method CommandArguments(e: FlacEncoder) returns (arg: seq<string>)
    ensures arg == ArgumentTokens(e)
  {
    var realLevel: int;
    if e.level < 0 {
      realLevel := 0;
    } else if e.level > 8 {
      realLevel := 8;
    } else {
      realLevel := e.level;
    }
    assert realLevel == Clamp(e.level);
    arg := ["-" + IntToString(realLevel), "-o", e.output, e.input];
    ghost var head := arg;
    if e.silent {
      arg := arg + ["-s"];
    }
    assert arg == head + FlagTokens("-s", e.silent);
    ghost var silenced := arg;
    if e.forceOverwrite {
      arg := arg + ["-f"];
    }
    assert arg == silenced + FlagTokens("-f", e.forceOverwrite);
    ghost var forced := arg;
    if e.padding.Some? {
      arg := arg + ["-P"];
      arg := arg + [IntToString(e.padding.value)];
    }
    assert arg == forced + ValueTokens("-P", IntText(e.padding));
  }

  /** A tool name with its arguments (`AnyExecutable`). */
  datatype Invocation = Invocation(executableName: string, arguments: seq<string>)

  /** `md5Calculator(inputs:)`: metaflac printing one bare MD5 signature per input file, in order. */
  function Md5Calculator(inputs: seq<string>): (r: Invocation)
    ensures r.executableName == "metaflac"
    ensures |r.arguments| == 2 + |inputs|
    ensures r.arguments[..2] == ["--no-filename", "--show-md5sum"] && r.arguments[2..] == inputs
  {
    Invocation("metaflac", ["--no-filename", "--show-md5sum"] + inputs)
  }
}
