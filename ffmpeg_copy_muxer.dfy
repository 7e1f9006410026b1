/**
 * `FFmpegCopyMuxer` from Sources/MediaTools/FFmpegCopyMuxer.swift: an ffmpeg
 * stream-copy remux whose `CopyMode` is a `UInt8` option set with one bit per
 * stream kind. Each kind whose bit is absent is dropped with its `-?n` flag.
 */
module FFmpegCopyMuxer {
  import opened Arguments

  /** `CopyMode: OptionSet` over a `UInt8` raw value. */
  datatype CopyMode = CopyMode(rawValue: bv8)

  const VIDEO: CopyMode := CopyMode(1 << 0)
  const AUDIO: CopyMode := CopyMode(1 << 1)
  const SUBTITLE: CopyMode := CopyMode(1 << 2)
  /** `copyAll = [.video, .audio, .subtitle]`. */
  const COPY_ALL: CopyMode := Union(Union(VIDEO, AUDIO), SUBTITLE)
  /** The deprecated aliases `videoOnly` and `audioOnly`. */
  const VIDEO_ONLY: CopyMode := VIDEO
  const AUDIO_ONLY: CopyMode := AUDIO

  /** Set union of two option sets (the array-literal form of `OptionSet`). */
  function Union(a: CopyMode, b: CopyMode): (r: CopyMode)
  {
    CopyMode(a.rawValue | b.rawValue)
  }

  /** `OptionSet.contains`: every bit of `member` is set in `mode`. */
  predicate Contains(mode: CopyMode, member: CopyMode)
  {
    mode.rawValue & member.rawValue == member.rawValue
  }

  /** The record the two initializers build. */
  datatype Muxer = Muxer(input: string, output: string, mode: CopyMode)

  /** `init(input:output:)`: copy every stream kind. */
  function WithDefaultMode(input: string, output: string): (m: Muxer)
    ensures m.input == input && m.output == output
    ensures Contains(m.mode, VIDEO) && Contains(m.mode, AUDIO) && Contains(m.mode, SUBTITLE)
  {
    Muxer(input, output, COPY_ALL)
  }

  /** The fixed head of every command: quiet, no stdin, overwrite, the input, stream copy. */
  function Prefix(input: string): (r: seq<string>)
  {
    ["-v", "quiet", "-nostdin", "-y", "-i", input, "-c", "copy"]
  }

  /** The drop flags, in video, audio, subtitle order. */
  function DropFlags(mode: CopyMode): (r: seq<string>)
  {
    FlagTokens("-vn", !Contains(mode, VIDEO)) + FlagTokens("-an", !Contains(mode, AUDIO)) + FlagTokens("-sn", !Contains(mode, SUBTITLE))
  }

  /** `arguments`. */
  function ArgumentTokens(m: Muxer): (r: seq<string>)
  {
    Prefix(m.input) + DropFlags(m.mode) + [m.output]
  }

  /** How many of the three stream kinds the mode leaves out. */
  function AbsentCount(mode: CopyMode): (n: nat)
    ensures n <= 3
  {
    (if Contains(mode, VIDEO) then 0 else 1) + (if Contains(mode, AUDIO) then 0 else 1) + (if Contains(mode, SUBTITLE) then 0 else 1)
  }

  /** `copyAll` is the raw value 7: the three stream bits and nothing else. */
  lemma CopyAllBits()
    ensures COPY_ALL.rawValue == 7
    ensures Contains(COPY_ALL, VIDEO) && Contains(COPY_ALL, AUDIO) && Contains(COPY_ALL, SUBTITLE)
  {
  }

  /**
   * The command is the fixed prefix, one drop flag per absent stream kind,
   * and the output; each drop flag is present exactly when its bit is absent.
   */
  lemma ArgumentsShape(m: Muxer)
    ensures var r := ArgumentTokens(m);
      && |r| == 9 + AbsentCount(m.mode)
      && r[..8] == Prefix(m.input)
      && r[5] == m.input
      && r[|r| - 1] == m.output
      && r[8..|r| - 1] == DropFlags(m.mode)
    ensures ("-vn" in DropFlags(m.mode) <==> !Contains(m.mode, VIDEO))
      && ("-an" in DropFlags(m.mode) <==> !Contains(m.mode, AUDIO))
      && ("-sn" in DropFlags(m.mode) <==> !Contains(m.mode, SUBTITLE))
  {
    var r := ArgumentTokens(m);
    assert r == Prefix(m.input) + (DropFlags(m.mode) + [m.output]);
    DropFlagsMembers(m.mode);
  }

  lemma DropFlagsMembers(mode: CopyMode)
    ensures |DropFlags(mode)| == AbsentCount(mode)
    ensures ("-vn" in DropFlags(mode) <==> !Contains(mode, VIDEO))
      && ("-an" in DropFlags(mode) <==> !Contains(mode, AUDIO))
      && ("-sn" in DropFlags(mode) <==> !Contains(mode, SUBTITLE))
  {
    var v := FlagTokens("-vn", !Contains(mode, VIDEO));
    var a := FlagTokens("-an", !Contains(mode, AUDIO));
    var s := FlagTokens("-sn", !Contains(mode, SUBTITLE));
    assert DropFlags(mode) == v + a + s;
    assert "-vn" in v + a + s <==> "-vn" in v;
    assert "-an" in v + a + s <==> "-an" in a;
    assert "-sn" in v + a + s <==> "-sn" in s;
  }

  /** With every stream kind copied, nothing is dropped: the prefix and the output only. */
  lemma CopyAllDropsNothing(input: string, output: string)
    ensures ArgumentTokens(WithDefaultMode(input, output)) == Prefix(input) + [output]
    ensures |ArgumentTokens(WithDefaultMode(input, output))| == 9
  {
    CopyAllBits();
  }

  /** Bits other than the three stream bits never change the command. */
  lemma OtherBitsIgnored(m: Muxer)
    ensures ArgumentTokens(m) == ArgumentTokens(m.(mode := CopyMode(m.mode.rawValue & 7)))
  {
    var low := CopyMode(m.mode.rawValue & 7);
    assert Contains(m.mode, VIDEO) <==> Contains(low, VIDEO);
    assert Contains(m.mode, AUDIO) <==> Contains(low, AUDIO);
    assert Contains(m.mode, SUBTITLE) <==> Contains(low, SUBTITLE);
  }

  /** `arguments`, appending to a local array as the source does. */
  method CommandArguments(m: Muxer) returns (arguments: seq<string>)
    ensures arguments == ArgumentTokens(m)
  {
    arguments := ["-v", "quiet", "-nostdin", "-y", "-i", m.input, "-c", "copy"];
    if !Contains(m.mode, VIDEO) {
      arguments := arguments + ["-vn"];
    }
    if !Contains(m.mode, AUDIO) {
      arguments := arguments + ["-an"];
    }
    if !Contains(m.mode, SUBTITLE) {
      arguments := arguments + ["-sn"];
    }
    arguments := arguments + [m.output];
  }
}
