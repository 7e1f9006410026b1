/**
 * `TimedText` and `SRTSubtitle.export` from Sources/MediaUtility/Subtitle.swift.
 *
 * A cue list is exported as SubRip-style blocks: the 1-based cue number, the
 * line `start --> end` with both times written by `Timestamp.description`
 * (`HH:MM:SS.mmm`, with a period), the text, and a newline; the blocks are
 * joined by a newline, so consecutive blocks are separated by an empty line.
 *
 * The source has no reader (`init(srt:)` is marked unavailable).  `ReadSrt`
 * below is a reference reader written for this model, the partner the export
 * is proved against: it reads the non-empty lines three at a time.
 */
module Subtitles {
  import opened Wrappers
  import opened Text
  import Timestamps

  /** One cue.  Equality is field by field, like Swift's synthesized `Equatable`. */
  datatype TimedText = TimedText(startTime: Timestamps.Timestamp, endTime: Timestamps.Timestamp, text: string)

  /** `start --> end`, each time rendered by its description. */
  function TimingLine(t: TimedText): string
  {
    Timestamps.Description(t.startTime) + " --> " + Timestamps.Description(t.endTime)
  }

  /** The block of cue `number`: the number, timing and text lines, each ended by a newline. */
  function Block(number: int, timing: string, text: string): string
  {
    IntToString(number) + "\n" + timing + "\n" + text + "\n"
  }

  /** The block of each cue, numbered from 1. */
  function Blocks(subtitles: seq<TimedText>): (blocks: seq<string>)
    ensures |blocks| == |subtitles|
    ensures forall i :: 0 <= i < |subtitles| ==> blocks[i] == Block(i + 1, TimingLine(subtitles[i]), subtitles[i].text)
  {
    seq(|subtitles|, i requires 0 <= i < |subtitles| => Block(i + 1, TimingLine(subtitles[i]), subtitles[i].text))
  }

  /** `export()`: the blocks joined by newlines. */
  function Export(subtitles: seq<TimedText>): string
  {
    Join(Blocks(subtitles), "\n")
  }

  /** Joined blocks are empty exactly when there are none, and otherwise open with the first. */
  lemma JoinedBlocksStart(blocks: seq<string>)
    requires forall i :: 0 <= i < |blocks| ==> |blocks[i]| > 0
    ensures Join(blocks, "\n") == "" <==> |blocks| == 0
    ensures |blocks| > 0 ==> blocks[0] <= Join(blocks, "\n")
  {
    if |blocks| > 1 {
      assert Join(blocks, "\n") == blocks[0] + ("\n" + Join(blocks[1..], "\n"));
    }
  }

  /** The export is empty exactly when there are no cues, and otherwise opens with `1` and a newline. */
  lemma ExportEmpty(subtitles: seq<TimedText>)
    ensures Export(subtitles) == "" <==> |subtitles| == 0
    ensures |subtitles| > 0 ==> Export(subtitles)[..2] == "1\n"
  {
    var blocks := Blocks(subtitles);
    forall i | 0 <= i < |blocks|
      ensures |blocks[i]| > 0
    {
      BlockStart(i + 1, TimingLine(subtitles[i]), subtitles[i].text);
    }
    JoinedBlocksStart(blocks);
    if |subtitles| > 0 {
      BlockStart(1, TimingLine(subtitles[0]), subtitles[0].text);
      assert Export(subtitles)[..2] == blocks[0][..2];
    }
  }

  /** A block opens with its number and a newline; block 1 with `1` and a newline. */
  lemma BlockStart(number: int, timing: string, text: string)
    ensures IntToString(number) + "\n" <= Block(number, timing, text)
    ensures number == 1 ==> |Block(number, timing, text)| >= 2 && Block(number, timing, text)[..2] == "1\n"
  {
    var head := IntToString(number) + "\n";
    assert Block(number, timing, text) == head + (timing + "\n" + text + "\n");
    if number == 1 {
      assert IntToString(1) == "1";
    }
  }

  // ----- The lines of joined blocks, for any timing and text lines -----

  /** The lines of the first `k` blocks, four per cue: number, timing, text and the empty line the block's final newline opens. */
  function LinesUpTo(timings: seq<string>, texts: seq<string>, k: nat): seq<string>
    requires k <= |timings| == |texts|
  {
    if k == 0 then [] else LinesUpTo(timings, texts, k - 1) + [IntToString(k), timings[k - 1], texts[k - 1], ""]
  }

  lemma {:induction false} LinesUpToElements(timings: seq<string>, texts: seq<string>, k: nat)
    requires k <= |timings| == |texts|
    ensures |LinesUpTo(timings, texts, k)| == 4 * k
    ensures forall i :: 0 <= i < k ==> LinesUpTo(timings, texts, k)[4 * i] == IntToString(i + 1)
                                       && LinesUpTo(timings, texts, k)[4 * i + 1] == timings[i]
                                       && LinesUpTo(timings, texts, k)[4 * i + 2] == texts[i]
                                       && LinesUpTo(timings, texts, k)[4 * i + 3] == ""
  {
    if k > 0 {
      LinesUpToElements(timings, texts, k - 1);
      var prev := LinesUpTo(timings, texts, k - 1);
      var lines := LinesUpTo(timings, texts, k);
      forall i | 0 <= i < k
        ensures lines[4 * i] == IntToString(i + 1) && lines[4 * i + 1] == timings[i]
                && lines[4 * i + 2] == texts[i] && lines[4 * i + 3] == ""
      {
        if i < k - 1 {
          assert lines[4 * i] == prev[4 * i] && lines[4 * i + 1] == prev[4 * i + 1];
          assert lines[4 * i + 2] == prev[4 * i + 2] && lines[4 * i + 3] == prev[4 * i + 3];
        }
      }
    }
  }

  /** Joining four-line blocks is joining their lines. */
  lemma {:induction false} JoinQuads(blocks: seq<string>, lines: seq<string>, k: nat)
    requires k <= |blocks| && |lines| == 4 * |blocks|
    requires forall i :: 0 <= i < |blocks| ==>
               blocks[i] == lines[4 * i] + "\n" + lines[4 * i + 1] + "\n" + lines[4 * i + 2] + "\n" + lines[4 * i + 3]
    ensures Join(blocks[..k], "\n") == Join(lines[..4 * k], "\n")
  {
    if k == 1 {
      assert blocks[..1] == [blocks[0]];
      assert lines[..4] == [lines[0], lines[1], lines[2], lines[3]];
      JoinQuad(lines[0], lines[1], lines[2], lines[3]);
    } else if k > 1 {
      var n := 4 * (k - 1);
      JoinQuads(blocks, lines, k - 1);
      JoinQuadStep(blocks[..k - 1], lines[..n], blocks[k - 1], lines[n], lines[n + 1], lines[n + 2], lines[n + 3]);
      assert blocks[..k] == blocks[..k - 1] + [blocks[k - 1]];
      assert lines[..n + 4] == lines[..n] + [lines[n], lines[n + 1], lines[n + 2], lines[n + 3]];
    }
  }

  /** Four lines joined on their own. */
  lemma JoinQuad(a: string, b: string, c: string, d: string)
    ensures Join([a, b, c, d], "\n") == a + "\n" + b + "\n" + c + "\n" + d
  {
    assert [c, d][1..] == [d];
    assert Join([c, d], "\n") == c + "\n" + d;
    assert [b, c, d][1..] == [c, d];
    assert Join([b, c, d], "\n") == b + "\n" + (c + "\n" + d);
    assert [a, b, c, d][1..] == [b, c, d];
    assert Join([a, b, c, d], "\n") == a + "\n" + (b + "\n" + (c + "\n" + d));
    Concat5(a, b, c, d, "\n");
  }

  lemma Concat5(a: string, b: string, c: string, d: string, sep: string)
    ensures a + sep + (b + sep + (c + sep + d)) == a + sep + b + sep + c + sep + d
  {
  }

  /** One more block on the left is four more lines on the right. */
  lemma JoinQuadStep(blocks: seq<string>, lines: seq<string>, block: string, a: string, b: string, c: string, d: string)
    requires |blocks| > 0 && |lines| > 0 && Join(blocks, "\n") == Join(lines, "\n")
    requires block == a + "\n" + b + "\n" + c + "\n" + d
    ensures Join(blocks + [block], "\n") == Join(lines + [a, b, c, d], "\n")
  {
    var l1, l2, l3 := lines + [a], lines + [a, b], lines + [a, b, c];
    JoinAppend(blocks, block, "\n");
    JoinAppend(lines, a, "\n");
    assert l1 + [b] == l2;
    JoinAppend(l1, b, "\n");
    assert l2 + [c] == l3;
    JoinAppend(l2, c, "\n");
    assert l3 + [d] == lines + [a, b, c, d];
    JoinAppend(l3, d, "\n");
    Concat6(Join(lines, "\n"), a, b, c, d, "\n");
  }

  lemma Concat6(head: string, a: string, b: string, c: string, d: string, sep: string)
    ensures head + sep + (a + sep + b + sep + c + sep + d) == head + sep + a + sep + b + sep + c + sep + d
  {
  }

  lemma QuadsOfBlocks(blocks: seq<string>, timings: seq<string>, texts: seq<string>)
    requires |blocks| == |timings| == |texts|
    requires forall i :: 0 <= i < |blocks| ==> blocks[i] == Block(i + 1, timings[i], texts[i])
    ensures var lines := LinesUpTo(timings, texts, |blocks|);
            |lines| == 4 * |blocks| &&
            forall i :: 0 <= i < |blocks| ==>
              blocks[i] == lines[4 * i] + "\n" + lines[4 * i + 1] + "\n" + lines[4 * i + 2] + "\n" + lines[4 * i + 3]
  {
    var lines := LinesUpTo(timings, texts, |blocks|);
    LinesUpToElements(timings, texts, |blocks|);
    forall i | 0 <= i < |blocks|
      ensures blocks[i] == lines[4 * i] + "\n" + lines[4 * i + 1] + "\n" + lines[4 * i + 2] + "\n" + lines[4 * i + 3]
    {
      assert lines[4 * i] == IntToString(i + 1) && lines[4 * i + 1] == timings[i];
      assert lines[4 * i + 2] == texts[i] && lines[4 * i + 3] == "";
    }
  }

  /** Joined blocks are their four-line view joined by newlines. */
  lemma JoinedBlockLines(blocks: seq<string>, timings: seq<string>, texts: seq<string>)
    requires |blocks| == |timings| == |texts|
    requires forall i :: 0 <= i < |blocks| ==> blocks[i] == Block(i + 1, timings[i], texts[i])
    ensures Join(blocks, "\n") == Join(LinesUpTo(timings, texts, |blocks|), "\n")
  {
    var lines := LinesUpTo(timings, texts, |blocks|);
    QuadsOfBlocks(blocks, timings, texts);
    JoinQuads(blocks, lines, |blocks|);
    assert blocks[..|blocks|] == blocks;
    assert lines[..4 * |blocks|] == lines;
  }

  /** The non-empty lines of the first `k` blocks: number, timing and text of each cue. */
  function CueLinesUpTo(timings: seq<string>, texts: seq<string>, k: nat): seq<string>
    requires k <= |timings| == |texts|
  {
    if k == 0 then [] else CueLinesUpTo(timings, texts, k - 1) + [IntToString(k), timings[k - 1], texts[k - 1]]
  }

  lemma {:induction false} CueLinesUpToElements(timings: seq<string>, texts: seq<string>, k: nat)
    requires k <= |timings| == |texts|
    ensures |CueLinesUpTo(timings, texts, k)| == 3 * k
    ensures forall i :: 0 <= i < k ==> CueLinesUpTo(timings, texts, k)[3 * i] == IntToString(i + 1)
                                       && CueLinesUpTo(timings, texts, k)[3 * i + 1] == timings[i]
                                       && CueLinesUpTo(timings, texts, k)[3 * i + 2] == texts[i]
  {
    if k > 0 {
      CueLinesUpToElements(timings, texts, k - 1);
      var prev := CueLinesUpTo(timings, texts, k - 1);
      var lines := CueLinesUpTo(timings, texts, k);
      forall i | 0 <= i < k
        ensures lines[3 * i] == IntToString(i + 1) && lines[3 * i + 1] == timings[i] && lines[3 * i + 2] == texts[i]
      {
        if i < k - 1 {
          assert lines[3 * i] == prev[3 * i] && lines[3 * i + 1] == prev[3 * i + 1] && lines[3 * i + 2] == prev[3 * i + 2];
        }
      }
    }
  }

  lemma {:induction false} NonEmptyAppend(a: seq<string>, b: seq<string>)
    ensures NonEmpty(a + b) == NonEmpty(a) + NonEmpty(b)
  {
    if |a| > 0 {
      assert (a + b)[1..] == a[1..] + b;
      NonEmptyAppend(a[1..], b);
    } else {
      assert a + b == b;
    }
  }

  /** Dropping the empty line of each block leaves the cue lines. */
  lemma {:induction false} NonEmptyOfLines(timings: seq<string>, texts: seq<string>, k: nat)
    requires k <= |timings| == |texts|
    requires forall i :: 0 <= i < |timings| ==> |timings[i]| > 0 && |texts[i]| > 0
    ensures NonEmpty(LinesUpTo(timings, texts, k)) == CueLinesUpTo(timings, texts, k)
  {
    if k > 0 {
      NonEmptyOfLines(timings, texts, k - 1);
      var quad := [IntToString(k), timings[k - 1], texts[k - 1], ""];
      NonEmptyAppend(LinesUpTo(timings, texts, k - 1), quad);
      NonEmptyQuad(IntToString(k), timings[k - 1], texts[k - 1]);
    }
  }

  lemma NonEmptyQuad(a: string, b: string, c: string)
    requires |a| > 0 && |b| > 0 && |c| > 0
    ensures NonEmpty([a, b, c, ""]) == [a, b, c]
  {
    var quad := [a, b, c, ""];
    assert quad[1..] == [b, c, ""] && quad[1..][1..] == [c, ""] && quad[1..][1..][1..] == [""];
    assert NonEmpty([""]) == [];
    assert NonEmpty([c, ""]) == [c];
    assert NonEmpty([b, c, ""]) == [b, c];
  }

  /** Splitting joined blocks at newlines gives the cue lines when no timing or text line is empty or holds a newline. */
  lemma SplitJoinedBlocks(blocks: seq<string>, timings: seq<string>, texts: seq<string>)
    requires |blocks| == |timings| == |texts|
    requires forall i :: 0 <= i < |blocks| ==> blocks[i] == Block(i + 1, timings[i], texts[i])
    requires forall i :: 0 <= i < |timings| ==> |timings[i]| > 0 && '\n' !in timings[i]
    requires forall i :: 0 <= i < |texts| ==> |texts[i]| > 0 && '\n' !in texts[i]
    ensures Split(Join(blocks, "\n"), '\n') == CueLinesUpTo(timings, texts, |blocks|)
  {
    var lines := LinesUpTo(timings, texts, |blocks|);
    JoinedBlockLines(blocks, timings, texts);
    LinesWithoutBreaks(timings, texts, |blocks|);
    SplitJoinSkipsEmpty(lines, '\n');
    NonEmptyOfLines(timings, texts, |blocks|);
  }

  /** No line of the four-line view holds a line break. */
  lemma LinesWithoutBreaks(timings: seq<string>, texts: seq<string>, k: nat)
    requires k <= |timings| == |texts|
    requires forall i :: 0 <= i < |timings| ==> '\n' !in timings[i]
    requires forall i :: 0 <= i < |texts| ==> '\n' !in texts[i]
    ensures forall j :: 0 <= j < |LinesUpTo(timings, texts, k)| ==> '\n' !in LinesUpTo(timings, texts, k)[j]
  {
    var lines := LinesUpTo(timings, texts, k);
    LinesUpToElements(timings, texts, k);
    forall j | 0 <= j < |lines|
      ensures '\n' !in lines[j]
    {
      var i := j / 4;
      IntToStringCharacters(i + 1);
      assert j == 4 * i || j == 4 * i + 1 || j == 4 * i + 2 || j == 4 * i + 3;
    }
  }

  // ----- Lines of the export -----

  /** The timing line of each cue. */
  function Timings(subtitles: seq<TimedText>): (r: seq<string>)
    ensures |r| == |subtitles| && forall i :: 0 <= i < |subtitles| ==> r[i] == TimingLine(subtitles[i])
  {
    seq(|subtitles|, i requires 0 <= i < |subtitles| => TimingLine(subtitles[i]))
  }

  /** The text of each cue. */
  function Texts(subtitles: seq<TimedText>): (r: seq<string>)
    ensures |r| == |subtitles| && forall i :: 0 <= i < |subtitles| ==> r[i] == subtitles[i].text
  {
    seq(|subtitles|, i requires 0 <= i < |subtitles| => subtitles[i].text)
  }

  /** The non-empty lines of an export, three per cue. */
  function CueLines(subtitles: seq<TimedText>): seq<string>
  {
    CueLinesUpTo(Timings(subtitles), Texts(subtitles), |subtitles|)
  }

  /** A description is a non-empty word: no space and no newline. */
  lemma DescriptionWord(t: Timestamps.Timestamp)
    ensures |Timestamps.Description(t)| > 0 && ' ' !in Timestamps.Description(t) && '\n' !in Timestamps.Description(t)
  {
    Timestamps.DescriptionCharacters(t);
  }

  /** `start --> end` holds no newline. */
  lemma TimingCharacters(s: string, e: string)
    requires '\n' !in s && '\n' !in e
    ensures '\n' !in s + " --> " + e
  {
    var line := s + " --> " + e;
    forall j | 0 <= j < |line|
      ensures line[j] != '\n'
    {
      if j < |s| {
        assert line[j] == s[j];
      } else if j >= |s| + 5 {
        assert line[j] == e[j - |s| - 5];
      }
    }
  }

  lemma TimingLineCharacters(t: TimedText)
    ensures |TimingLine(t)| > 0 && '\n' !in TimingLine(t)
  {
    DescriptionWord(t.startTime);
    DescriptionWord(t.endTime);
    TimingCharacters(Timestamps.Description(t.startTime), Timestamps.Description(t.endTime));
  }

  /**
   * With non-empty single-line texts, the non-empty lines of the export are,
   * for the cue at index i, its 1-based number `i + 1`, its timing line and
   * its text, in order: numbering starts at 1 and is consecutive.
   */
  lemma SplitExport(subtitles: seq<TimedText>)
    requires forall i :: 0 <= i < |subtitles| ==> |subtitles[i].text| > 0 && '\n' !in subtitles[i].text
    ensures Split(Export(subtitles), '\n') == CueLines(subtitles)
    ensures |CueLines(subtitles)| == 3 * |subtitles|
    ensures forall i :: 0 <= i < |subtitles| ==> CueLines(subtitles)[3 * i] == IntToString(i + 1)
                                                 && CueLines(subtitles)[3 * i + 1] == TimingLine(subtitles[i])
                                                 && CueLines(subtitles)[3 * i + 2] == subtitles[i].text
  {
    var blocks, timings, texts := Blocks(subtitles), Timings(subtitles), Texts(subtitles);
    forall i | 0 <= i < |timings|
      ensures |timings[i]| > 0 && '\n' !in timings[i]
    {
      TimingLineCharacters(subtitles[i]);
    }
    SplitJoinedBlocks(blocks, timings, texts);
    CueLinesUpToElements(timings, texts, |subtitles|);
  }

  // ----- A reference reader -----

  /** Reads `start --> end`: three space-separated words, both times in the strict format. */
  function ReadTiming(line: string): (r: Option<(Timestamps.Timestamp, Timestamps.Timestamp)>)
    ensures r.Some? ==> |Split(line, ' ')| == 3 && Split(line, ' ')[1] == "-->"
  {
    var words := Split(line, ' ');
    if |words| == 3 && words[1] == "-->" then
      match (Timestamps.Parse(words[0]), Timestamps.Parse(words[2]))
      case (Some(start), Some(end)) => Some((start, end))
      case _ => None
    else
      None
  }

  /** Reads the cue numbered `number` from its three lines. */
  function ReadCue(number: int, numberLine: string, timingLine: string, textLine: string): (r: Option<TimedText>)
    ensures r.Some? ==> numberLine == IntToString(number) && r.value.text == textLine
  {
    if numberLine != IntToString(number) then None
    else
      match ReadTiming(timingLine)
      case None => None
      case Some(times) => Some(TimedText(times.0, times.1, textLine))
  }

  /** The reader of one cue from its number and its three lines. */
  type CueReader = (int, string, string, string) -> Option<TimedText>

  /** Reads the first `k` cues, three lines each, with `read` for each cue. */
  function ReadUpTo(read: CueReader, lines: seq<string>, k: nat): Option<seq<TimedText>>
    requires 3 * k <= |lines|
  {
    if k == 0 then Some([])
    else
      match ReadUpTo(read, lines, k - 1)
      case None => None
      case Some(cues) =>
        match read(k, lines[3 * k - 3], lines[3 * k - 2], lines[3 * k - 1])
        case None => None
        case Some(cue) => Some(cues + [cue])
  }

  /** Reads a whole text: its non-empty lines, three per cue. */
  function ReadSrt(text: string): Option<seq<TimedText>>
  {
    var lines := Split(text, '\n');
    if |lines| % 3 != 0 then None else ReadUpTo(ReadCue, lines, |lines| / 3)
  }

  /** Three words joined by single spaces split back into them. */
  lemma TimingWords(s: string, e: string)
    requires |s| > 0 && |e| > 0 && ' ' !in s && ' ' !in e
    ensures Split(s + " --> " + e, ' ') == [s, "-->", e]
  {
    var words := [s, "-->", e];
    assert words[1..] == ["-->", e] && words[1..][1..] == [e];
    assert Join(["-->", e], " ") == "-->" + " " + e;
    assert Join(words, " ") == s + " " + Join(["-->", e], " ");
    assert " --> " == " " + "-->" + " ";
    assert s + " --> " + e == Join(words, [' ']);
    SplitJoin(words, ' ');
  }

  /** A timing line of canonical times reads back as its two times. */
  lemma ReadTimingLine(t: TimedText)
    requires Timestamps.Canonical(t.startTime) && Timestamps.Canonical(t.endTime)
    ensures ReadTiming(TimingLine(t)) == Some((t.startTime, t.endTime))
  {
    var s, e := Timestamps.Description(t.startTime), Timestamps.Description(t.endTime);
    DescriptionWord(t.startTime);
    DescriptionWord(t.endTime);
    TimingWords(s, e);
    Timestamps.ParseDescription(t.startTime);
    Timestamps.ParseDescription(t.endTime);
  }

  /** Triples that each read back as their cue read back as the whole list. */
  lemma {:induction false} ReadTriples(read: CueReader, lines: seq<string>, cues: seq<TimedText>, k: nat)
    requires k <= |cues| && |lines| == 3 * |cues|
    requires forall i :: 0 <= i < |cues| ==> read(i + 1, lines[3 * i], lines[3 * i + 1], lines[3 * i + 2]) == Some(cues[i])
    ensures ReadUpTo(read, lines, k) == Some(cues[..k])
  {
    if k > 0 {
      ReadTriples(read, lines, cues, k - 1);
      var i := k - 1;
      assert read(i + 1, lines[3 * i], lines[3 * i + 1], lines[3 * i + 2]) == Some(cues[i]);
      assert 3 * i == 3 * k - 3;
      assert cues[..k] == cues[..i] + [cues[i]];
    }
  }

  lemma CueTriples(subtitles: seq<TimedText>)
    requires forall i :: 0 <= i < |subtitles| ==>
               Timestamps.Canonical(subtitles[i].startTime) && Timestamps.Canonical(subtitles[i].endTime)
    ensures |CueLines(subtitles)| == 3 * |subtitles|
    ensures forall i :: 0 <= i < |subtitles| ==>
              ReadCue(i + 1, CueLines(subtitles)[3 * i], CueLines(subtitles)[3 * i + 1], CueLines(subtitles)[3 * i + 2]) == Some(subtitles[i])
  {
    var lines := CueLines(subtitles);
    CueLinesUpToElements(Timings(subtitles), Texts(subtitles), |subtitles|);
    forall i | 0 <= i < |subtitles|
      ensures ReadCue(i + 1, lines[3 * i], lines[3 * i + 1], lines[3 * i + 2]) == Some(subtitles[i])
    {
      ReadTimingLine(subtitles[i]);
    }
  }

  /** A text whose lines read back as the cues reads back as the cues. */
  lemma ReadSrtOfLines(text: string, lines: seq<string>, cues: seq<TimedText>)
    requires Split(text, '\n') == lines
    requires |lines| == 3 * |cues| && ReadUpTo(ReadCue, lines, |cues|) == Some(cues)
    ensures ReadSrt(text) == Some(cues)
  {
    DivModUnique(|lines|, 3, |cues|, 0);
  }

  /**
   * Exporting then reading gives the cues back, when every text is a
   * non-empty single line and every time is whole milliseconds under 100 hours.
   */
  lemma ExportReadBack(subtitles: seq<TimedText>)
    requires forall i :: 0 <= i < |subtitles| ==> |subtitles[i].text| > 0 && '\n' !in subtitles[i].text
    requires forall i :: 0 <= i < |subtitles| ==>
               Timestamps.Canonical(subtitles[i].startTime) && Timestamps.Canonical(subtitles[i].endTime)
    ensures ReadSrt(Export(subtitles)) == Some(subtitles)
  {
    var lines := CueLines(subtitles);
    SplitExport(subtitles);
    CueTriples(subtitles);
    ReadTriples(ReadCue, lines, subtitles, |subtitles|);
    assert subtitles[..|subtitles|] == subtitles;
    ReadSrtOfLines(Export(subtitles), lines, subtitles);
  }
}
