/**
 * `FFmpegMuxer` from Sources/MediaTools/FFmpegMuxer.swift: the older
 * stream-copy remux, whose `CopyMode` is a three-case enum and whose
 * `arguments` returns one array literal per case.
 */
module FFmpegMuxer {
  import FFmpegCopyMuxer

  /** `CopyMode`. */
  datatype CopyMode = CopyAll | VideoOnly | AudioOnly

  /** The record the two initializers build. */
  datatype Muxer = Muxer(input: string, output: string, mode: CopyMode)

  /** `init(input:output:)`. */
  function WithDefaultMode(input: string, output: string): (m: Muxer)
    ensures m.input == input && m.output == output && m.mode == CopyAll
  {
    Muxer(input, output, CopyAll)
  }

  /** `arguments`. */
  function ArgumentTokens(m: Muxer): (r: seq<string>)
  {
    match m.mode
    case AudioOnly => ["-v", "quiet", "-nostdin", "-y", "-i", m.input, "-c", "copy", "-vn", "-sn", m.output]
    case CopyAll => ["-v", "quiet", "-nostdin", "-y", "-i", m.input, "-c", "copy", m.output]
    case VideoOnly => ["-v", "quiet", "-nostdin", "-y", "-i", m.input, "-c", "copy", "-an", "-sn", m.output]
  }

  /** Every mode shares the eight-token prefix, puts the input at index 5 and the output last. */
  lemma ArgumentsShape(m: Muxer)
    ensures var r := ArgumentTokens(m);
      && |r| == (if m.mode == CopyAll then 9 else 11)
      && r[..8] == FFmpegCopyMuxer.Prefix(m.input)
      && r[5] == m.input
      && r[|r| - 1] == m.output
  {
  }

  /** The option set of the newer variant that copies the same streams. */
  function Bits(mode: CopyMode): (r: FFmpegCopyMuxer.CopyMode)
  {
    match mode
    case CopyAll => FFmpegCopyMuxer.COPY_ALL
    case VideoOnly => FFmpegCopyMuxer.VIDEO
    case AudioOnly => FFmpegCopyMuxer.AUDIO
  }

  /**
   * Both variants agree: each enum case renders exactly as the newer
   * variant's option set with the same streams (`copyAll`, `video`, `audio`).
   */
  lemma AgreesWithCopyMuxer(m: Muxer)
    ensures ArgumentTokens(m) == FFmpegCopyMuxer.ArgumentTokens(FFmpegCopyMuxer.Muxer(m.input, m.output, Bits(m.mode)))
  {
    FFmpegCopyMuxer.CopyAllBits();
  }

  /** The default initializers of the two variants build the same command. */
  lemma DefaultsAgree(input: string, output: string)
    ensures ArgumentTokens(WithDefaultMode(input, output))
      == FFmpegCopyMuxer.ArgumentTokens(FFmpegCopyMuxer.WithDefaultMode(input, output))
  {
    AgreesWithCopyMuxer(WithDefaultMode(input, output));
  }
}
