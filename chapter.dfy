/**
 * `Chapter` from Sources/MediaUtility/Chapter.swift: a list of titled
 * timestamps read from a one-chapter-per-line text, from OGM chapter text,
 * or numbered from bare timestamps, and exported as OGM chapter text.
 * Files are not read: the parsers take the file's contents.  A Swift trap
 * (a force unwrap, an index past the end) is an explicit outcome.
 */
module Chapters {
  import opened Wrappers
  import opened Text
  import Timestamps

  datatype ChapterNode = ChapterNode(title: string, timestamp: Timestamps.Timestamp)

  datatype Chapter = Chapter(nodes: seq<ChapterNode>)

  /** `isEmpty`: a chapter list with at most one node carries no chapter break. */
  predicate IsEmpty(c: Chapter)
  {
    |c.nodes| <= 1
  }

  // ----- the line format: "00:00:00.000 ChapterName" -----

  /**
   * One non-empty line of `init(fileURL:)`: the first space-separated word is
   * a strict timestamp and the second the title.  `None` is a trap: fewer
   * than two words, or a first word the strict parser refuses.
   */
  function ParseLine(line: string): (r: Option<ChapterNode>)
    ensures r.Some? <==> |Split(line, ' ')| >= 2 && Timestamps.Parse(Split(line, ' ')[0]).Some?
    ensures r.Some? ==> r.value.title == Split(line, ' ')[1]
  {
    var words := Split(line, ' ');
    if |words| < 2 then None
    else
      match Timestamps.Parse(words[0])
      case None => None
      case Some(t) => Some(ChapterNode(words[1], t))
  }

  /** Reads one non-empty line; `None` is a trap. */
  type LineReader = string -> Option<ChapterNode>

  /** The `compactMap` over the lines: empty lines are skipped, any trapping line traps the whole parse. */
  function LineNodes(read: LineReader, lines: seq<string>): (r: Option<seq<ChapterNode>>)
  {
    if |lines| == 0 then Some([])
    else
      match LineNodes(read, lines[..|lines| - 1])
      case None => None
      case Some(nodes) =>
        var line := lines[|lines| - 1];
        if |line| == 0 then Some(nodes)
        else
          match read(line)
          case None => None
          case Some(node) => Some(nodes + [node])
  }

  /** `init(fileURL:)` on the file's contents; `None` is a trap. */
  function ParseLines(content: string): (r: Option<Chapter>)
  {
    match LineNodes(ParseLine, Split(content, '\n'))
    case None => None
    case Some(nodes) => Some(Chapter(nodes))
  }

  /** Lines that all parse give one node each, in order. */
  lemma {:induction false} LineNodesCount(read: LineReader, lines: seq<string>)
    requires forall i :: 0 <= i < |lines| ==> |lines[i]| > 0 && read(lines[i]).Some?
    ensures LineNodes(read, lines).Some?
    ensures |LineNodes(read, lines).value| == |lines|
    ensures forall i :: 0 <= i < |lines| ==> LineNodes(read, lines).value[i] == read(lines[i]).value
  {
    if |lines| > 0 {
      LineNodesCount(read, lines[..|lines| - 1]);
    }
  }

  /**
   * Only the second word is the title: words after it are dropped, and a
   * line of a single word traps.
   */
  lemma LineParseOfWords(words: seq<string>)
    requires |words| >= 1
    requires forall i :: 0 <= i < |words| ==> |words[i]| > 0 && ' ' !in words[i]
    ensures |words| == 1 ==> ParseLine(Join(words, " ")).None?
    ensures |words| >= 2 && Timestamps.Parse(words[0]).Some? ==>
              ParseLine(Join(words, " ")) == Some(ChapterNode(words[1], Timestamps.Parse(words[0]).value))
    ensures Timestamps.Parse(words[0]).None? ==> ParseLine(Join(words, " ")).None?
  {
    SplitJoin(words, ' ');
  }

  /** The text of a node in the line format. */
  function LineText(node: ChapterNode): string
  {
    Timestamps.Description(node.timestamp) + " " + node.title
  }

  /** A node written as a line reads back when its title is one word and its time is canonical. */
  lemma LineTextParse(node: ChapterNode)
    requires Timestamps.Canonical(node.timestamp)
    requires |node.title| > 0 && ' ' !in node.title
    ensures ParseLine(LineText(node)) == Some(node)
  {
    var d := Timestamps.Description(node.timestamp);
    Timestamps.DescriptionCharacters(node.timestamp);
    Timestamps.DescriptionShape(node.timestamp);
    assert ' ' !in d;
    assert Join([d, node.title], " ") == LineText(node);
    LineParseOfWords([d, node.title]);
    Timestamps.ParseDescription(node.timestamp);
  }

  /** A chapter list in the line format, one line per node. */
  function LinesText(c: Chapter): (lines: seq<string>)
    ensures |lines| == |c.nodes| && forall i :: 0 <= i < |c.nodes| ==> lines[i] == LineText(c.nodes[i])
  {
    seq(|c.nodes|, i requires 0 <= i < |c.nodes| => LineText(c.nodes[i]))
  }

  /** A whole file of such lines reads back as the same chapter list. */
  lemma LinesRoundTrip(c: Chapter)
    requires |c.nodes| > 0
    requires forall i :: 0 <= i < |c.nodes| ==> Timestamps.Canonical(c.nodes[i].timestamp)
    requires forall i :: 0 <= i < |c.nodes| ==> |c.nodes[i].title| > 0 && ' ' !in c.nodes[i].title && '\n' !in c.nodes[i].title
    ensures ParseLines(Join(LinesText(c), "\n")) == Some(c)
  {
    var lines := LinesText(c);
    forall i | 0 <= i < |lines|
      ensures |lines[i]| > 0 && '\n' !in lines[i] && ParseLine(lines[i]) == Some(c.nodes[i])
    {
      Timestamps.DescriptionCharacters(c.nodes[i].timestamp);
      LineTextParse(c.nodes[i]);
    }
    SplitJoin(lines, '\n');
    LineNodesCount(ParseLine, lines);
    assert LineNodes(ParseLine, lines).value == c.nodes;
  }

  // ----- numbering -----

  /** `init(timestamps:)`: the timestamps in order, titled `Chapter %02d` from 1. */
  function FromTimestamps(timestamps: seq<Timestamps.Timestamp>): (c: Chapter)
    ensures |c.nodes| == |timestamps|
    ensures forall i :: 0 <= i < |timestamps| ==> c.nodes[i].timestamp == timestamps[i]
    ensures forall i :: 0 <= i < |timestamps| ==> c.nodes[i].title == NumberedTitle(i + 1)
  {
    Chapter(seq(|timestamps|, i requires 0 <= i < |timestamps| => ChapterNode(NumberedTitle(i + 1), timestamps[i])))
  }

  /** `String(format: "Chapter %02d", n)`: `Chapter ` and the number in at least two digits. */
  function NumberedTitle(n: nat): (t: string)
    ensures |t| >= 10 && t[..8] == "Chapter " && AllDigits(t[8..]) && DigitsValue(t[8..]) == n
    ensures n < 100 ==> |t| == 10
  {
    ZeroPadValue(n, 2);
    PaddingIsZeroPad(n);
    var t := "Chapter " + ZeroPad(n, 2);
    assert t[8..] == ZeroPad(n, 2);
    t
  }

  /** The generated titles are pairwise distinct. */
  lemma FromTimestampsTitlesDistinct(timestamps: seq<Timestamps.Timestamp>)
    ensures var c := FromTimestamps(timestamps);
            forall i, j :: 0 <= i < j < |c.nodes| ==> c.nodes[i].title != c.nodes[j].title
  {
    var c := FromTimestamps(timestamps);
    forall i, j | 0 <= i < j < |c.nodes|
      ensures c.nodes[i].title != c.nodes[j].title
    {
      NumberedTitlesDiffer(i + 1, j + 1);
    }
  }

  lemma NumberedTitlesDiffer(m: nat, n: nat)
    requires m != n
    ensures "Chapter " + ZeroPad(m, 2) != "Chapter " + ZeroPad(n, 2)
  {
    ZeroPadValue(m, 2);
    ZeroPadValue(n, 2);
    var a, b := ZeroPad(m, 2), ZeroPad(n, 2);
    assert ("Chapter " + a)[8..] == a;
    assert ("Chapter " + b)[8..] == b;
  }

  /** The first title is `Chapter 01`, and the list is empty exactly when at most one timestamp is given. */
  lemma FromTimestampsFirst(timestamps: seq<Timestamps.Timestamp>)
    ensures |timestamps| > 0 ==> FromTimestamps(timestamps).nodes[0].title == "Chapter 01"
    ensures IsEmpty(FromTimestamps(timestamps)) <==> |timestamps| <= 1
  {
    if |timestamps| > 0 {
      PaddingIsZeroPad(1);
      assert Padding(1) == "01";
    }
  }

  /** `padding(number:)`: a leading `0` below 10, the decimal text otherwise. */
  function Padding(number: int): (s: string)
  {
    if number < 10 then "0" + IntToString(number) else IntToString(number)
  }

  /** For non-negative numbers `padding` is `%02d`: exactly two digits below 100, the plain digits above. */
  lemma PaddingIsZeroPad(number: nat)
    ensures Padding(number) == ZeroPad(number, 2)
    ensures number < 100 ==> |Padding(number)| == 2 && AllDigits(Padding(number))
  {
    assert Pow10(2) == 100;
    if number < 10 {
      assert FixedDigits(number, 2) == FixedDigits(0, 1) + [DigitChar(number)];
      assert FixedDigits(0, 1) == "0";
    } else if number < 100 {
      var tens := number / 10;
      assert tens < 10 && tens % 10 == tens && tens / 10 == 0;
      assert FixedDigits(tens, 1) == FixedDigits(0, 0) + [DigitChar(tens)];
      assert FixedDigits(number, 2) == FixedDigits(tens, 1) + [DigitChar(number % 10)];
      assert NatToString(tens) == [DigitChar(tens)];
      assert NatToString(number) == NatToString(tens) + [DigitChar(number % 10)];
    }
    if number < 100 {
      ZeroPadFits(number, 2);
    }
  }

  // ----- OGM export -----

  /** `CHAPTERnn=HH:MM:SS.mmm` for the 1-based `index`. */
  function TimeLine(index: int, node: ChapterNode): string
  {
    "CHAPTER" + Padding(index) + "=" + Timestamps.Description(node.timestamp)
  }

  /** `CHAPTERnnNAME=title` for the 1-based `index`. */
  function NameLine(index: int, node: ChapterNode): string
  {
    "CHAPTER" + Padding(index) + "NAME=" + node.title
  }

  /** Writes one line of a node's block from its 1-based index. */
  type LineWriter = (int, ChapterNode) -> string

  /** The two-line block of each node, written by `first` and `second`. */
  function Blocks(first: LineWriter, second: LineWriter, nodes: seq<ChapterNode>): (blocks: seq<string>)
    ensures |blocks| == |nodes|
    ensures forall i :: 0 <= i < |nodes| ==> blocks[i] == first(i + 1, nodes[i]) + "\n" + second(i + 1, nodes[i])
  {
    seq(|nodes|, i requires 0 <= i < |nodes| => first(i + 1, nodes[i]) + "\n" + second(i + 1, nodes[i]))
  }

  /** The lines of the first `k` blocks, two per node. */
  function PairLines(first: LineWriter, second: LineWriter, nodes: seq<ChapterNode>, k: nat): seq<string>
    requires k <= |nodes|
  {
    if k == 0 then [] else PairLines(first, second, nodes, k - 1) + [first(k, nodes[k - 1]), second(k, nodes[k - 1])]
  }

  /** The OGM block of each node: its time line, a newline, its name line. */
  function OgmBlocks(c: Chapter): seq<string>
  {
    Blocks(TimeLine, NameLine, c.nodes)
  }

  /** `exportOgm`: the blocks joined by newlines, with no newline at the end. */
  function ExportOgm(c: Chapter): string
  {
    Join(OgmBlocks(c), "\n")
  }

  /** The lines of the export, two per node. */
  function OgmLines(c: Chapter): seq<string>
  {
    PairLines(TimeLine, NameLine, c.nodes, |c.nodes|)
  }

  lemma {:induction false} PairLinesElements(first: LineWriter, second: LineWriter, nodes: seq<ChapterNode>, k: nat)
    requires k <= |nodes|
    ensures |PairLines(first, second, nodes, k)| == 2 * k
    ensures forall i :: 0 <= i < k ==> PairLines(first, second, nodes, k)[2 * i] == first(i + 1, nodes[i])
                                       && PairLines(first, second, nodes, k)[2 * i + 1] == second(i + 1, nodes[i])
  {
    if k > 0 {
      PairLinesElements(first, second, nodes, k - 1);
      var prev := PairLines(first, second, nodes, k - 1);
      var lines := PairLines(first, second, nodes, k);
      assert lines == prev + [first(k, nodes[k - 1]), second(k, nodes[k - 1])];
      forall i | 0 <= i < k
        ensures lines[2 * i] == first(i + 1, nodes[i]) && lines[2 * i + 1] == second(i + 1, nodes[i])
      {
        if i < k - 1 {
          assert lines[2 * i] == prev[2 * i] && lines[2 * i + 1] == prev[2 * i + 1];
        }
      }
    }
  }

  /** The lines of the export: the time line and the name line of each node, in order. */
  lemma OgmLinesElements(c: Chapter)
    ensures |OgmLines(c)| == 2 * |c.nodes|
    ensures forall i :: 0 <= i < |c.nodes| ==>
              OgmLines(c)[2 * i] == TimeLine(i + 1, c.nodes[i]) && OgmLines(c)[2 * i + 1] == NameLine(i + 1, c.nodes[i])
  {
    PairLinesElements(TimeLine, NameLine, c.nodes, |c.nodes|);
  }

  /** Joining two-line blocks is joining their lines. */
  lemma {:induction false} JoinBlocks(blocks: seq<string>, lines: seq<string>, k: nat)
    requires k <= |blocks| && |lines| == 2 * |blocks|
    requires forall i :: 0 <= i < |blocks| ==> blocks[i] == lines[2 * i] + "\n" + lines[2 * i + 1]
    ensures Join(blocks[..k], "\n") == Join(lines[..2 * k], "\n")
  {
    if k == 1 {
      assert blocks[..1] == [blocks[0]];
      assert lines[..2] == [lines[0], lines[1]];
    } else if k > 1 {
      JoinBlocks(blocks, lines, k - 1);
      JoinBlockStep(blocks[..k - 1], lines[..2 * k - 2], blocks[k - 1], lines[2 * k - 2], lines[2 * k - 1]);
      assert blocks[..k] == blocks[..k - 1] + [blocks[k - 1]];
      assert lines[..2 * k] == lines[..2 * k - 2] + [lines[2 * k - 2], lines[2 * k - 1]];
    }
  }

  /** One more block on the left is two more lines on the right. */
  lemma JoinBlockStep(blocks: seq<string>, lines: seq<string>, block: string, first: string, second: string)
    requires |blocks| > 0 && |lines| > 0 && Join(blocks, "\n") == Join(lines, "\n")
    requires block == first + "\n" + second
    ensures Join(blocks + [block], "\n") == Join(lines + [first, second], "\n")
  {
    var head, l1 := Join(blocks, "\n"), lines + [first];
    JoinAppend(blocks, block, "\n");
    JoinAppend(lines, first, "\n");
    JoinAppend(l1, second, "\n");
    assert l1 + [second] == lines + [first, second];
    JoinedBlock(head, first, second);
  }

  lemma JoinedBlock(head: string, first: string, second: string)
    ensures head + "\n" + (first + "\n" + second) == head + "\n" + first + "\n" + second
  {
  }

  /** Joining the blocks is joining their lines. */
  lemma BlocksJoin(first: LineWriter, second: LineWriter, nodes: seq<ChapterNode>)
    ensures Join(Blocks(first, second, nodes), "\n") == Join(PairLines(first, second, nodes, |nodes|), "\n")
  {
    var blocks, lines := Blocks(first, second, nodes), PairLines(first, second, nodes, |nodes|);
    PairLinesElements(first, second, nodes, |nodes|);
    JoinBlocks(blocks, lines, |blocks|);
    assert blocks[..|blocks|] == blocks;
    assert lines[..2 * |blocks|] == lines;
  }

  /** The export is the OGM lines joined by newlines. */
  lemma ExportOgmLines(c: Chapter)
    ensures ExportOgm(c) == Join(OgmLines(c), "\n")
  {
    BlocksJoin(TimeLine, NameLine, c.nodes);
  }

  // ----- OGM parse -----

  datatype OgmParseError = Empty | ExtraLine(line: string)

  /** What `init(ogmFileURL:)` ends in: a chapter list, a thrown error, or a trap. */
  datatype OgmOutcome = Parsed(chapter: Chapter) | Thrown(error: OgmParseError) | Trapped

  /**
   * One loop step: the title is the name line past its 14-character
   * `CHAPTERnnNAME=` prefix, the timestamp the time line past its
   * 10-character `CHAPTERnn=` prefix, read by the strict parser.  `None` is
   * a trap: a line shorter than its prefix, or a timestamp that does not parse.
   */
  function OgmNode(timeLine: string, nameLine: string): (r: Option<ChapterNode>)
    ensures r.Some? ==> |timeLine| >= 10 && |nameLine| >= 14 && r.value.title == nameLine[14..]
                        && Timestamps.Parse(timeLine[10..]) == Some(r.value.timestamp)
  {
    if |nameLine| < 14 || |timeLine| < 10 then None
    else
      match Timestamps.Parse(timeLine[10..])
      case None => None
      case Some(t) => Some(ChapterNode(nameLine[14..], t))
  }

  /** Reads a node from a time line and a name line; `None` is a trap. */
  type PairReader = (string, string) -> Option<ChapterNode>

  /** The first `k` nodes read from line pairs `(2i, 2i + 1)`. */
  function OgmPrefix(read: PairReader, lines: seq<string>, k: nat): Option<seq<ChapterNode>>
    requires 2 * k <= |lines|
  {
    if k == 0 then Some([])
    else
      match OgmPrefix(read, lines, k - 1)
      case None => None
      case Some(nodes) =>
        match read(lines[2 * k - 2], lines[2 * k - 1])
        case None => None
        case Some(node) => Some(nodes + [node])
  }

  /** The guards and the loop of `init(ogmFileURL:)` over the split lines. */
  function ParseOgmLines(lines: seq<string>): OgmOutcome
  {
    if |lines| == 0 then Thrown(Empty)
    else if !(|lines| % 2 == 0 || |lines[|lines| - 1]| != 0) then Thrown(ExtraLine(lines[|lines| - 1]))
    else
      match OgmPrefix(OgmNode, lines, |lines| / 2)
      case None => Trapped
      case Some(nodes) => Parsed(Chapter(nodes))
  }

  /** `init(ogmFileURL:)` on the file's contents: lines are the non-empty pieces between newlines. */
  function ParseOgm(text: string): OgmOutcome
  {
    ParseOgmLines(Split(text, '\n'))
  }

  /** `init(ogmFileURL:)`: split the contents into lines, then read them. */
  method ReadOgm(text: string) returns (r: OgmOutcome)
    ensures r == ParseOgm(text)
  {
    var lines := Split(text, '\n');
    r := ReadOgmLines(lines);
  }

  /** The two guards of `init(ogmFileURL:)`, then its loop. */
  method ReadOgmLines(lines: seq<string>) returns (r: OgmOutcome)
    ensures r == ParseOgmLines(lines)
  {
    if |lines| == 0 {
      return Thrown(Empty);
    }
    if !(|lines| % 2 == 0 || |lines[|lines| - 1]| != 0) {
      return Thrown(ExtraLine(lines[|lines| - 1]));
    }
    var nodes := ReadNodes(lines, |lines| / 2);
    r := if nodes.None? then Trapped else Parsed(Chapter(nodes.value));
  }

  /** The loop of `init(ogmFileURL:)`: one node appended per line pair; `None` is a trap. */
  method ReadNodes(lines: seq<string>, nodesCount: nat) returns (r: Option<seq<ChapterNode>>)
    requires 2 * nodesCount <= |lines|
    ensures r == OgmPrefix(OgmNode, lines, nodesCount)
  {
    var read: PairReader := OgmNode;
    var nodes: seq<ChapterNode> := [];
    var index := 0;
    while index < nodesCount
      invariant index <= nodesCount && OgmPrefix(read, lines, index) == Some(nodes)
    {
      var node := read(lines[2 * index], lines[2 * index + 1]);
      OgmPrefixStep(read, lines, index, nodes, node);
      if node.None? {
        OgmPrefixTrapStays(read, lines, index + 1, nodesCount);
        return None;
      }
      nodes := nodes + [node.value];
      index := index + 1;
    }
    r := Some(nodes);
  }

  /** One more line pair adds the node read from it, or traps. */
  lemma OgmPrefixStep(read: PairReader, lines: seq<string>, k: nat, nodes: seq<ChapterNode>, node: Option<ChapterNode>)
    requires 2 * k + 2 <= |lines| && OgmPrefix(read, lines, k) == Some(nodes)
    requires node == read(lines[2 * k], lines[2 * k + 1])
    ensures node.None? ==> OgmPrefix(read, lines, k + 1).None?
    ensures node.Some? ==> OgmPrefix(read, lines, k + 1) == Some(nodes + [node.value])
  {
    assert 2 * (k + 1) - 2 == 2 * k;
  }

  /** Once a line pair traps, every longer prefix traps. */
  lemma {:induction false} OgmPrefixTrapStays(read: PairReader, lines: seq<string>, k: nat, n: nat)
    requires k <= n && 2 * n <= |lines| && OgmPrefix(read, lines, k).None?
    ensures OgmPrefix(read, lines, n).None?
    decreases n - k
  {
    if k < n {
      OgmPrefixTrapStays(read, lines, k + 1, n);
    }
  }

  /**
   * `split` drops empty pieces, so the last line is never empty and
   * `extraLine` is never thrown; `empty` is thrown exactly for text with no
   * non-empty line.
   */
  lemma OgmErrors(text: string)
    ensures ParseOgm(text).Thrown? ==> ParseOgm(text).error == Empty
    ensures ParseOgm(text) == Thrown(Empty) <==> Split(text, '\n') == []
  {
  }

  lemma {:induction false} OgmPrefixOfPrefix(read: PairReader, lines: seq<string>, n: nat, k: nat)
    requires 2 * k <= n <= |lines|
    ensures OgmPrefix(read, lines[..n], k) == OgmPrefix(read, lines, k)
  {
    if k > 0 {
      OgmPrefixOfPrefix(read, lines, n, k - 1);
    }
  }

  /** An odd trailing line is silently ignored: the result is that of the lines before it. */
  lemma OddLineIgnored(lines: seq<string>)
    requires |lines| % 2 == 1 && |lines| > 1
    requires forall i :: 0 <= i < |lines| ==> |lines[i]| > 0
    ensures ParseOgmLines(lines) == ParseOgmLines(lines[..|lines| - 1])
  {
    var short := lines[..|lines| - 1];
    assert |short| / 2 == |lines| / 2 && |short| % 2 == 0 && |short| > 0;
    assert |lines[|lines| - 1]| != 0;
    OgmPrefixOfPrefix(OgmNode, lines, |lines| - 1, |lines| / 2);
  }

  /**
   * The guards of `init(ogmFileURL:)` as evidently intended: an odd number
   * of lines throws `extraLine` with the last line instead of dropping it.
   */
  function ParseOgmLinesIntended(lines: seq<string>): (r: OgmOutcome)
    ensures r == Thrown(Empty) <==> |lines| == 0
    ensures |lines| % 2 == 1 <==> r.Thrown? && r.error.ExtraLine?
    ensures r.Thrown? && r.error.ExtraLine? ==> r.error.line == lines[|lines| - 1]
    ensures |lines| > 0 && |lines| % 2 == 0 ==> r == ParseOgmLines(lines)
  {
    if |lines| == 0 then Thrown(Empty)
    else if |lines| % 2 == 1 then Thrown(ExtraLine(lines[|lines| - 1]))
    else
      match OgmPrefix(OgmNode, lines, |lines| / 2)
      case None => Trapped
      case Some(nodes) => Parsed(Chapter(nodes))
  }

  lemma Halves(n: nat)
    ensures (2 * n) % 2 == 0 && (2 * n) / 2 == n
  {
  }

  /**
   * The discrepancy: on an odd number of non-empty lines the written guard
   * lets the text through while the intended one throws `extraLine`.
   */
  lemma OddLinesDisagree(lines: seq<string>)
    requires |lines| % 2 == 1
    requires forall i :: 0 <= i < |lines| ==> |lines[i]| > 0
    ensures ParseOgmLinesIntended(lines) == Thrown(ExtraLine(lines[|lines| - 1]))
    ensures ParseOgmLines(lines) != ParseOgmLinesIntended(lines)
  {
    assert |lines[|lines| - 1]| != 0;
  }

  /** The corrected reader on the file's contents. */
  function ParseOgmIntended(text: string): (r: OgmOutcome)
  {
    ParseOgmLinesIntended(Split(text, '\n'))
  }

  /** The corrected reader still reads every export back. */
  lemma IntendedExportParses(c: Chapter)
    requires 0 < |c.nodes| <= 99
    requires forall i :: 0 <= i < |c.nodes| ==> '\n' !in c.nodes[i].title
    requires forall i :: 0 <= i < |c.nodes| ==> Timestamps.Canonical(c.nodes[i].timestamp)
    ensures ParseOgmIntended(ExportOgm(c)) == Parsed(c)
  {
    SplitExport(c);
    ExportParses(c);
    var lines := Split(ExportOgm(c), '\n');
    Halves(|c.nodes|);
    assert |lines| > 0 && |lines| % 2 == 0;
    assert ParseOgmIntended(ExportOgm(c)) == ParseOgmLines(lines);
  }

  /** The lines of the export hold no newline and are never empty. */
  lemma OgmLinesShape(c: Chapter)
    requires forall i :: 0 <= i < |c.nodes| ==> '\n' !in c.nodes[i].title
    ensures forall j :: 0 <= j < |OgmLines(c)| ==> |OgmLines(c)[j]| > 0 && '\n' !in OgmLines(c)[j]
  {
    var lines := OgmLines(c);
    OgmLinesElements(c);
    forall j | 0 <= j < |lines|
      ensures |lines[j]| > 0 && '\n' !in lines[j]
    {
      var i := HalfIndex(j, |c.nodes|);
      OgmLineShape(i + 1, c.nodes[i]);
    }
  }

  /** The node a line of the export belongs to. */
  lemma HalfIndex(j: nat, n: nat) returns (i: nat)
    requires j < 2 * n
    ensures i < n && (j == 2 * i || j == 2 * i + 1)
  {
    i := j / 2;
  }

  /** Both lines of a node's block are single non-empty lines. */
  lemma OgmLineShape(index: nat, node: ChapterNode)
    requires '\n' !in node.title
    ensures |TimeLine(index, node)| > 0 && '\n' !in TimeLine(index, node)
    ensures |NameLine(index, node)| > 0 && '\n' !in NameLine(index, node)
  {
    PaddingDigits(index);
    Timestamps.DescriptionCharacters(node.timestamp);
    var p := Padding(index);
    NoNewlineIn("CHAPTER", p, "=", Timestamps.Description(node.timestamp));
    NoNewlineIn("CHAPTER", p, "NAME=", node.title);
  }

  lemma NoNewlineIn(a: string, p: string, b: string, c: string)
    requires '\n' !in a && '\n' !in b && '\n' !in c && AllDigits(p)
    ensures |a + p + b + c| >= |a| && '\n' !in a + p + b + c
  {
  }

  /** `padding` of a positive number holds only digits. */
  lemma PaddingDigits(number: nat)
    ensures AllDigits(Padding(number))
  {
    PaddingIsZeroPad(number);
    ZeroPadValue(number, 2);
  }

  /** Each exported line pair reads back as its node when the index has two digits and the time is canonical. */
  lemma OgmNodeOfLines(index: nat, node: ChapterNode)
    requires 1 <= index <= 99 && Timestamps.Canonical(node.timestamp)
    ensures OgmNode(TimeLine(index, node), NameLine(index, node)) == Some(node)
  {
    PaddingIsZeroPad(index);
    var p := Padding(index);
    assert TimeLine(index, node)[10..] == Timestamps.Description(node.timestamp);
    assert NameLine(index, node)[14..] == node.title;
    Timestamps.ParseDescription(node.timestamp);
  }

  /** Line pairs that each read back as their node read back as the whole list. */
  lemma {:induction false} OgmPrefixOfPairs(read: PairReader, lines: seq<string>, nodes: seq<ChapterNode>, k: nat)
    requires k <= |nodes| && |lines| == 2 * |nodes|
    requires forall i :: 0 <= i < |nodes| ==> read(lines[2 * i], lines[2 * i + 1]) == Some(nodes[i])
    ensures OgmPrefix(read, lines, k) == Some(nodes[..k])
  {
    if k > 0 {
      OgmPrefixOfPairs(read, lines, nodes, k - 1);
      assert read(lines[2 * (k - 1)], lines[2 * (k - 1) + 1]) == Some(nodes[k - 1]);
      assert nodes[..k] == nodes[..k - 1] + [nodes[k - 1]];
    }
  }

  /** With single-line titles, splitting the export at newlines gives back its lines. */
  lemma SplitExport(c: Chapter)
    requires forall i :: 0 <= i < |c.nodes| ==> '\n' !in c.nodes[i].title
    ensures |OgmLines(c)| == 2 * |c.nodes|
    ensures Split(ExportOgm(c), '\n') == OgmLines(c)
  {
    ExportOgmLines(c);
    OgmLinesShape(c);
    OgmLinesElements(c);
    SplitJoin(OgmLines(c), '\n');
  }

  lemma PairsOfExport(c: Chapter)
    requires |c.nodes| <= 99
    requires forall i :: 0 <= i < |c.nodes| ==> Timestamps.Canonical(c.nodes[i].timestamp)
    ensures |OgmLines(c)| == 2 * |c.nodes|
    ensures forall i :: 0 <= i < |c.nodes| ==> OgmNode(OgmLines(c)[2 * i], OgmLines(c)[2 * i + 1]) == Some(c.nodes[i])
  {
    var lines := OgmLines(c);
    OgmLinesElements(c);
    forall i | 0 <= i < |c.nodes|
      ensures OgmNode(lines[2 * i], lines[2 * i + 1]) == Some(c.nodes[i])
    {
      OgmNodeOfLines(i + 1, c.nodes[i]);
    }
  }

  lemma ParsedPairs(lines: seq<string>, nodes: seq<ChapterNode>)
    requires |nodes| > 0 && |lines| == 2 * |nodes| && OgmPrefix(OgmNode, lines, |nodes|) == Some(nodes)
    ensures ParseOgmLines(lines) == Parsed(Chapter(nodes))
  {
    assert |lines| / 2 == |nodes|;
  }

  /**
   * Exporting then parsing gives the chapter list back for 1 to 99 nodes
   * with single-line titles and canonical times; no nodes exports the empty
   * text, which throws `empty`.
   */
  lemma OgmRoundTrip(c: Chapter)
    requires |c.nodes| <= 99
    requires forall i :: 0 <= i < |c.nodes| ==> '\n' !in c.nodes[i].title
    requires forall i :: 0 <= i < |c.nodes| ==> Timestamps.Canonical(c.nodes[i].timestamp)
    ensures |c.nodes| > 0 ==> ParseOgm(ExportOgm(c)) == Parsed(c)
    ensures |c.nodes| == 0 ==> ExportOgm(c) == "" && ParseOgm(ExportOgm(c)) == Thrown(Empty)
  {
    if |c.nodes| == 0 {
      assert OgmBlocks(c) == [];
      assert ParseOgm(ExportOgm(c)) == ParseOgmLines(Split("", '\n'));
    } else {
      ExportParses(c);
    }
  }

  lemma ExportParses(c: Chapter)
    requires 0 < |c.nodes| <= 99
    requires forall i :: 0 <= i < |c.nodes| ==> '\n' !in c.nodes[i].title
    requires forall i :: 0 <= i < |c.nodes| ==> Timestamps.Canonical(c.nodes[i].timestamp)
    ensures ParseOgm(ExportOgm(c)) == Parsed(c)
  {
    var lines := OgmLines(c);
    assert Split(ExportOgm(c), '\n') == lines && |lines| == 2 * |c.nodes| by {
      SplitExport(c);
    }
    assert OgmPrefix(OgmNode, lines, |c.nodes|) == Some(c.nodes) by {
      PairsOfExport(c);
      OgmPrefixOfPairs(OgmNode, lines, c.nodes, |c.nodes|);
      assert c.nodes[..|c.nodes|] == c.nodes;
    }
    ParsedPairs(lines, c.nodes);
  }
}
