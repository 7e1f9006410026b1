/**
 * `MkvPropEdit` from Sources/MediaTools/MkvPropEdit.swift: the command line
 * of mkvpropedit.  `writeArguments(to:)` drives a token builder: the parse
 * mode, the file, one `--edit <selector>` group per action followed by its
 * modifications, the track-statistics action, `--chapters` and `--verbose`.
 *
 * Swift's `Int` is 64-bit; indices and track numbers are `int` here and the
 * selector round trip is stated for values inside that range.
 */
module MkvPropEdit {
  import opened Wrappers
  import opened Text
  import opened Arguments
  import MediaTrackTypes

  datatype ParseMode = Fast | Full

  /** `ParseMode.description`, its raw value. */
  function ParseModeText(m: ParseMode): (s: string)
    ensures s == "fast" <==> m == Fast
    ensures s == "full" <==> m == Full
  {
    match m
    case Fast => "fast"
    case Full => "full"
  }

  datatype TrackStatisticsTagsAction = AddTags | DeleteTags

  /** The raw value of a `TrackStatisticsTagsAction`. */
  function TagsActionRaw(a: TrackStatisticsTagsAction): string
  {
    match a
    case AddTags => "add"
    case DeleteTags => "delete"
  }

  /** `--<raw>-track-statistics-tags`. */
  function TagsActionFlag(a: TrackStatisticsTagsAction): string
  {
    "--" + TagsActionRaw(a) + "-track-statistics-tags"
  }

  /** The two actions render mkvpropedit's two flags, which differ in their third character. */
  lemma TagsActionFlags()
    ensures TagsActionFlag(AddTags) == "--add-track-statistics-tags"
    ensures TagsActionFlag(DeleteTags) == "--delete-track-statistics-tags"
    ensures TagsActionFlag(AddTags)[2] != TagsActionFlag(DeleteTags)[2]
  {
    AddTagsFlag();
    DeleteTagsFlag();
  }

  lemma AddTagsFlag()
    ensures TagsActionFlag(AddTags) == "--add-track-statistics-tags"
  {
  }

  lemma DeleteTagsFlag()
    ensures TagsActionFlag(DeleteTags) == "--delete-track-statistics-tags"
  {
  }

  datatype Modification = Add(name: string, value: string) | Set(name: string, value: string) | Delete(name: string)

  /** The flag and value a modification adds: `--add name=value`, `--set name=value` or `--delete name`. */
  function ModificationTokens(m: Modification): (r: seq<string>)
    ensures |r| == 2
    ensures m.Add? <==> r[0] == "--add"
    ensures m.Set? <==> r[0] == "--set"
    ensures m.Delete? <==> r[0] == "--delete"
    ensures m.Delete? ==> r[1] == m.name
    ensures !m.Delete? ==> m.name + "=" <= r[1] && r[1][|m.name| + 1..] == m.value
  {
    match m
    case Add(name, value) => ["--add", name + "=" + value]
    case Set(name, value) => ["--set", name + "=" + value]
    case Delete(name) => ["--delete", name]
  }

  /** `index` counts from 1; `trackType` narrows the count to one kind of track. */
  datatype TrackSelector = Index(index: int, trackType: Option<MediaTrackTypes.MediaTrackType>) | Uid(uid: string) | TrackNumber(trackNumber: int)

  datatype EditSelector = SegmentInformation | Track(selector: TrackSelector)

  /** The letter that narrows an index to one track type; each type has its own. */
  function TypeLetter(t: MediaTrackTypes.MediaTrackType): (s: string)
    ensures s == "v" <==> t == MediaTrackTypes.Video
    ensures s == "a" <==> t == MediaTrackTypes.Audio
    ensures s == "s" <==> t == MediaTrackTypes.Subtitles
  {
    match t
    case Video => "v"
    case Audio => "a"
    case Subtitles => "s"
  }

  function TypePrefix(t: Option<MediaTrackTypes.MediaTrackType>): (s: string)
    ensures t.None? <==> s == ""
  {
    match t
    case None => ""
    case Some(kind) => TypeLetter(kind)
  }

  /** `EditSelector.description`: `info`, `track:` + optional type letter + index, `track:=uid` or `track:@number`. */
  function SelectorText(s: EditSelector): (r: string)
  {
    match s
    case SegmentInformation => "info"
    case Track(selector) => "track:" + TrackText(selector)
  }

  // ----- A reference reader for selectors -----

  function TypeOfLetter(c: char): Option<MediaTrackTypes.MediaTrackType>
  {
    if c == 'v' then Some(MediaTrackTypes.Video)
    else if c == 'a' then Some(MediaTrackTypes.Audio)
    else if c == 's' then Some(MediaTrackTypes.Subtitles)
    else None
  }

  /** Reads what follows `track:`. */
  function ReadTrackSelector(rest: string): Option<TrackSelector>
  {
    if |rest| == 0 then None
    else if rest[0] == '=' then Some(Uid(rest[1..]))
    else if rest[0] == '@' then
      match ParseInt(rest[1..])
      case None => None
      case Some(n) => Some(TrackNumber(n))
    else
      var kind := TypeOfLetter(rest[0]);
      var digits := if kind.Some? then rest[1..] else rest;
      match ParseInt(digits)
      case None => None
      case Some(n) => Some(Index(n, kind))
  }

  /** Reads a selector back from its text. */
  function ReadSelector(text: string): Option<EditSelector>
  {
    if text == "info" then Some(SegmentInformation)
    else if |text| >= 6 && text[..6] == "track:" then
      match ReadTrackSelector(text[6..])
      case None => None
      case Some(selector) => Some(Track(selector))
    else None
  }

  /** Selectors whose numbers fit Swift's `Int`. */
  predicate InRange(s: EditSelector)
  {
    match s
    case SegmentInformation => true
    case Track(Index(index, _)) => INT64_MIN <= index <= INT64_MAX
    case Track(Uid(_)) => true
    case Track(TrackNumber(n)) => INT64_MIN <= n <= INT64_MAX
  }

  /**
   * Every selector's text reads back as the selector, so distinct selectors
   * render distinct texts: the segment is `info`, every track selector
   * starts with `track:`.
   */
  lemma SelectorRoundTrip(s: EditSelector)
    requires InRange(s)
    ensures ReadSelector(SelectorText(s)) == Some(s)
    ensures s.SegmentInformation? <==> SelectorText(s) == "info"
    ensures s.Track? ==> |SelectorText(s)| > 6 && SelectorText(s)[..6] == "track:"
  {
    if s.Track? {
      var rest := TrackText(s.selector);
      assert SelectorText(s) == "track:" + rest;
      TrackTextRoundTrip(s.selector);
      assert ("track:" + rest)[6..] == rest;
    }
  }

  /** The text after `track:`. */
  function TrackText(t: TrackSelector): (r: string)
    ensures |r| > 0
  {
    match t
    case Index(index, trackType) => TypePrefix(trackType) + IntToString(index)
    case Uid(uid) => "=" + uid
    case TrackNumber(n) => "@" + IntToString(n)
  }

  lemma TrackTextRoundTrip(t: TrackSelector)
    requires InRange(Track(t))
    ensures ReadTrackSelector(TrackText(t)) == Some(t)
  {
    match t
    case Index(index, trackType) => IndexRoundTrip(index, trackType);
    case Uid(uid) => assert TrackText(t)[1..] == uid;
    case TrackNumber(n) =>
      ParseIntOfIntToString(n);
      assert TrackText(t)[1..] == IntToString(n);
  }

  lemma IndexRoundTrip(index: int, trackType: Option<MediaTrackTypes.MediaTrackType>)
    requires INT64_MIN <= index <= INT64_MAX
    ensures ReadTrackSelector(TypePrefix(trackType) + IntToString(index)) == Some(Index(index, trackType))
  {
    match trackType
    case None =>
      UntypedIndexRoundTrip(index);
      assert TypePrefix(trackType) + IntToString(index) == IntToString(index);
    case Some(kind) =>
      TypedIndexRoundTrip(index, kind);
      assert TypePrefix(trackType) == TypeLetter(kind);
  }

  /** An index without a type letter starts with `-` or a digit, so it reads as a plain index. */
  lemma UntypedIndexRoundTrip(index: int)
    requires INT64_MIN <= index <= INT64_MAX
    ensures ReadTrackSelector(IntToString(index)) == Some(Index(index, None))
  {
    var digits := IntToString(index);
    ParseIntOfIntToString(index);
    IntToStringCharacters(index);
    assert digits[0] == '-' || IsDigit(digits[0]);
    assert TypeOfLetter(digits[0]) == None;
  }

  /** A type letter is read as the type, and the digits after it as the index. */
  lemma TypedIndexRoundTrip(index: int, kind: MediaTrackTypes.MediaTrackType)
    requires INT64_MIN <= index <= INT64_MAX
    ensures ReadTrackSelector(TypeLetter(kind) + IntToString(index)) == Some(Index(index, Some(kind)))
  {
    ParseIntOfIntToString(index);
    var letter := TypeLetter(kind);
    assert letter == [letter[0]];
    assert TypeOfLetter(letter[0]) == Some(kind);
    ReadLetterDigits(letter[0], kind, IntToString(index), index);
  }

  lemma ReadLetterDigits(c: char, kind: MediaTrackTypes.MediaTrackType, digits: string, n: int)
    requires TypeOfLetter(c) == Some(kind) && ParseInt(digits) == Some(n)
    ensures ReadTrackSelector([c] + digits) == Some(Index(n, Some(kind)))
  {
    assert ([c] + digits)[1..] == digits;
  }

  /** The selectors different parts of the source's test expect. */
  lemma SelectorExamples()
    ensures SelectorText(Track(Index(1, Some(MediaTrackTypes.Audio)))) == "track:a1"
    ensures SelectorText(Track(Index(2, None))) == "track:2"
    ensures SelectorText(Track(TrackNumber(3))) == "track:@3"
    ensures SelectorText(Track(Uid("123"))) == "track:=123"
  {
    assert IntToString(1) == "1" && IntToString(2) == "2" && IntToString(3) == "3";
  }

  // ----- The command line -----

  datatype Action = Action(selector: EditSelector, modifications: seq<Modification>)

  datatype PropEditCommand = PropEditCommand(
    parseMode: Option<ParseMode>,
    filepath: string,
    actions: seq<Action>,
    trackStatisticsTagsAction: Option<TrackStatisticsTagsAction>,
    chapter: Option<string>,
    verbose: bool)

  /** `init(filepath:)`: everything else at its default. */
  function NewCommand(filepath: string): PropEditCommand
  {
    PropEditCommand(None, filepath, [], None, None, false)
  }

  function ModificationsTokens(mods: seq<Modification>): (r: seq<string>)
    ensures |r| == 2 * |mods|
  {
    if |mods| == 0 then [] else ModificationsTokens(mods[..|mods| - 1]) + ModificationTokens(mods[|mods| - 1])
  }

  /** `--edit <selector>`, then the action's modifications in order. */
  function ActionTokens(a: Action): (r: seq<string>)
  {
    ["--edit", SelectorText(a.selector)] + ModificationsTokens(a.modifications)
  }

  function ActionsTokens(actions: seq<Action>): seq<string>
  {
    if |actions| == 0 then [] else ActionsTokens(actions[..|actions| - 1]) + ActionTokens(actions[|actions| - 1])
  }

  function ParseModeValue(m: Option<ParseMode>): (r: Option<string>)
    ensures m.None? <==> r.None?
  {
    match m
    case None => None
    case Some(mode) => Some(ParseModeText(mode))
  }

  function TagsActionTokens(a: Option<TrackStatisticsTagsAction>): (r: seq<string>)
    ensures a.None? <==> r == []
  {
    match a
    case None => []
    case Some(action) => [TagsActionFlag(action)]
  }

  /** The tokens after the actions: statistics action, chapters, verbose. */
  function TailTokens(c: PropEditCommand): seq<string>
  {
    TagsActionTokens(c.trackStatisticsTagsAction) + ValueTokens("--chapters", c.chapter) + FlagTokens("--verbose", c.verbose)
  }

  /** The tokens `writeArguments(to:)` appends. */
  function CommandTokens(c: PropEditCommand): seq<string>
  {
    ValueTokens("--parse-mode", ParseModeValue(c.parseMode)) + [c.filepath] + ActionsTokens(c.actions) + TailTokens(c)
  }

  /** `writeArguments(to:)`: appends the command's tokens to the builder. */
  method WriteArguments(c: PropEditCommand, builder: ArgumentBuilder)
    modifies builder
    ensures builder.arguments == old(builder.arguments) + CommandTokens(c)
  {
    ghost var start := builder.arguments;
    ghost var head := ValueTokens("--parse-mode", ParseModeValue(c.parseMode)) + [c.filepath];
    AddHead(c, builder);
    AddActions(builder, c.actions);
    AddTail(c, builder);
    AppendAssociates4(start, head, ActionsTokens(c.actions), TailTokens(c));
  }

  /** The parse mode, if set, then the file. */
  method AddHead(c: PropEditCommand, builder: ArgumentBuilder)
    modifies builder
    ensures builder.arguments == old(builder.arguments) + ValueTokens("--parse-mode", ParseModeValue(c.parseMode)) + [c.filepath]
  {
    var mode: Option<string> := None;
    if c.parseMode.Some? {
      mode := Some(ParseModeText(c.parseMode.value));
    }
    builder.AddValue("--parse-mode", mode);
    builder.Add(c.filepath);
  }

  /** The statistics action, the chapters and the verbose switch. */
  method AddTail(c: PropEditCommand, builder: ArgumentBuilder)
    modifies builder
    ensures builder.arguments == old(builder.arguments) + TailTokens(c)
  {
    ghost var start := builder.arguments;
    if c.trackStatisticsTagsAction.Some? {
      builder.Add(TagsActionFlag(c.trackStatisticsTagsAction.value));
    }
    assert builder.arguments == start + TagsActionTokens(c.trackStatisticsTagsAction);
    builder.AddValue("--chapters", c.chapter);
    builder.AddWhen("--verbose", c.verbose);
  }

  /** The outer `forEach`: one `--edit` group per action, in order. */
  method AddActions(builder: ArgumentBuilder, actions: seq<Action>)
    modifies builder
    ensures builder.arguments == old(builder.arguments) + ActionsTokens(actions)
  {
    ghost var head := builder.arguments;
    for i := 0 to |actions|
      invariant builder.arguments == head + ActionsTokens(actions[..i])
    {
      assert actions[..i + 1][..i] == actions[..i];
      ghost var before := builder.arguments;
      var selector := SelectorText(actions[i].selector);
      builder.AddValue("--edit", Some(selector));
      assert builder.arguments == before + ["--edit", selector];
      AddModifications(builder, actions[i].modifications);
      assert builder.arguments == before + ["--edit", selector] + ModificationsTokens(actions[i].modifications);
      AppendAssociates(before, ["--edit", selector], ModificationsTokens(actions[i].modifications));
      AppendAssociates(head, ActionsTokens(actions[..i]), ActionTokens(actions[i]));
    }
    assert actions[..|actions|] == actions;
  }

  /** The inner `forEach`: each modification's flag and value, in order. */
  method AddModifications(builder: ArgumentBuilder, mods: seq<Modification>)
    modifies builder
    ensures builder.arguments == old(builder.arguments) + ModificationsTokens(mods)
  {
    ghost var head := builder.arguments;
    for i := 0 to |mods|
      invariant builder.arguments == head + ModificationsTokens(mods[..i])
    {
      assert mods[..i + 1][..i] == mods[..i];
      var flag: string;
      var value: string;
      match mods[i] {
        case Add(name, v) =>
          flag := "--add";
          value := name + "=" + v;
        case Set(name, v) =>
          flag := "--set";
          value := name + "=" + v;
        case Delete(name) =>
          flag := "--delete";
          value := name;
      }
      builder.AddValue(flag, Some(value));
      AppendAssociates(head, ModificationsTokens(mods[..i]), ModificationTokens(mods[i]));
    }
    assert mods[..|mods|] == mods;
  }

  /**
   * The file comes right after the optional parse mode, and nothing but the
   * file is written for a fresh command.
   */
  lemma CommandStart(c: PropEditCommand)
    ensures c.parseMode.None? ==> |CommandTokens(c)| > 0 && CommandTokens(c)[0] == c.filepath
    ensures c.parseMode.Some? ==> |CommandTokens(c)| > 2 && CommandTokens(c)[..3] == ["--parse-mode", ParseModeText(c.parseMode.value), c.filepath]
    ensures CommandTokens(NewCommand(c.filepath)) == [c.filepath]
  {
    CommandSplit(c);
    NewCommandTokens(c.filepath);
  }

  /** The command is its head, the parse mode and the file, then the rest. */
  lemma CommandSplit(c: PropEditCommand)
    ensures var head := ValueTokens("--parse-mode", ParseModeValue(c.parseMode)) + [c.filepath];
      CommandTokens(c) == head + (ActionsTokens(c.actions) + TailTokens(c))
  {
    var head := ValueTokens("--parse-mode", ParseModeValue(c.parseMode)) + [c.filepath];
    AppendAssociates(head, ActionsTokens(c.actions), TailTokens(c));
  }

  lemma NewCommandTokens(filepath: string)
    ensures CommandTokens(NewCommand(filepath)) == [filepath]
  {
    var c := NewCommand(filepath);
    assert ActionsTokens(c.actions) == [] && TailTokens(c) == [];
  }

  /**
   * The command ends with the statistics flag, `--chapters <value>` and
   * `--verbose`, each present exactly when set; an empty chapter value is
   * still written (it asks mkvpropedit to remove the chapters).
   */
  lemma CommandTail(c: PropEditCommand)
    ensures var r := CommandTokens(c); var n := if c.verbose then 1 else 0;
            (c.verbose ==> r[|r| - 1] == "--verbose")
            && (c.chapter.Some? ==> |r| >= 2 + n && r[|r| - 2 - n..|r| - n] == ["--chapters", c.chapter.value])
            && (c.chapter.None? && c.trackStatisticsTagsAction.Some? ==>
                  r[|r| - 1 - n] == TagsActionFlag(c.trackStatisticsTagsAction.value))
            && (c.chapter.None? && c.trackStatisticsTagsAction.None? && !c.verbose ==>
                  r == ValueTokens("--parse-mode", ParseModeValue(c.parseMode)) + [c.filepath] + ActionsTokens(c.actions))
  {
    var head := ValueTokens("--parse-mode", ParseModeValue(c.parseMode)) + [c.filepath] + ActionsTokens(c.actions);
    assert CommandTokens(c) == head + TagsActionTokens(c.trackStatisticsTagsAction) + ValueTokens("--chapters", c.chapter) + FlagTokens("--verbose", c.verbose);
  }
}
