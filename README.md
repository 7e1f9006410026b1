# MediaUtility in Dafny

A model of the MediaUtility Swift package. The package builds the command
lines of media tools, and this project covers:

- ffmpeg, including the stream-copy muxers;
- mkvmerge and mkvextract, old and new variants;
- mkvpropedit;
- flac and metaflac;
- mediainfo;
- vspipe, together with the parser for vspipe's `--info` report.

It also models the text formats the package reads and writes:

- `HH:MM:SS.mmm` timestamps and their arithmetic;
- OGM chapter files, in both the simple and the paired line format;
- SubRip subtitle export;
- the element-level encoding of Matroska chapter XML, the tri-state flags
  and the filling of edition and chapter UIDs.

There is one Dafny module per Swift source file. `Wrappers` holds
`Option`/`Result`, and `Text` holds the integer, digit and split/join
helpers the renderers share.

The form follows the source:

- **Rendering and parsing.** Where the source computes by expression and
  recursion (specifier rendering, option constructors, templates, chapter
  and subtitle text), the model is datatypes and functions, and lemmas state
  round trips, orderings and shapes.
- **Renderers that append.** Where the source appends to a local array or
  drives the append-only `ArgumentBuilder` (an object whose `arguments`
  field grows in place), the model is a method with a `while` loop or a
  `new ArgumentBuilder()`. Each such method is proved equal to a
  declarative function of its inputs, and the lemmas are stated about that
  function.
- **Objects that mutate.** The UID generator behind `fillUIDs` and
  `MatroskaChapter` itself are classes whose methods update their fields.
  `Timestamp` is a value type, so its `+=` and `-=` on an `inout` operand
  are methods that return the updated value.

Swift traps are modelled as an explicit `Trapped` outcome when they sit in a
parser: a force unwrap, an index out of range, a `fatalError`. Traps in
arithmetic operators, such as `UInt64` overflow, are preconditions of the
operation instead.

## Model

| member | source | states |
|---|---|---|
| Timestamps.FromFields | Sources/MediaUtility/Timestamp.swift:12-14 | the field initializer yields whole milliseconds; fields inside their clock ranges are exactly what the clock decomposition recovers |
| Timestamps.Components | Sources/MediaUtility/Timestamp.swift:34-41 | the `/` and `%` chain of `description` yields minutes and seconds below 60 and milliseconds below 1000 |
| Timestamps.ComponentsRecompose | Sources/MediaUtility/Timestamp.swift:34-41 | hours, minutes, seconds and milliseconds recompose to the raw value minus only the sub-millisecond nanoseconds |
| Timestamps.ComponentsOfFields | Sources/MediaUtility/Timestamp.swift:12-14 | a value built from in-range fields decomposes back into the same fields |
| Timestamps.DescriptionShape | Sources/MediaUtility/Timestamp.swift:34-43 | below 100 hours the text is 12 characters `HH:MM:SS.mmm` whose digit groups read back as the clock components |
| Timestamps.DescriptionCharacters | Sources/MediaUtility/Timestamp.swift:42 | a description holds only digits, `:` and `.` |
| Timestamps.Parse | Sources/MediaUtility/Timestamp.swift:19-32 | the strict parser succeeds exactly on 12-character text of the regex shape, and then yields whole milliseconds computed by the field formula |
| Timestamps.ParseDescription | Sources/MediaUtility/Timestamp.swift:19-43 | parsing a description gives the timestamp back for whole milliseconds under 100 hours |
| Timestamps.DescriptionParse | Sources/MediaUtility/Timestamp.swift:19-43 | describing a parsed text gives the text back when position 8 is `.` and minutes, seconds are below 60 |
| Timestamps.LessIsStrictTotalOrder | Sources/MediaUtility/Timestamp.swift:47-55 | `<` compares raw values: irreflexive, transitive, total, and equality is equality of the value |
| Timestamps.Scale | Sources/MediaUtility/Timestamp.swift:71-73 | multiplication requires no UInt64 overflow; a factor of at least 1 never makes it smaller, 0 gives zero |
| Timestamps.ScaleStep | Sources/MediaUtility/Timestamp.swift:71-73 | the product is tied to the factor: a factor of 1 keeps the timestamp, and scaling by `k` is scaling by `k - 1` plus the timestamp once more, with no overflow on the way |
| Timestamps.Add | Sources/MediaUtility/Timestamp.swift:79-81 | addition requires no UInt64 overflow, is at least each operand, and subtraction undoes it |
| Timestamps.Sub | Sources/MediaUtility/Timestamp.swift:75-77 | subtraction requires lhs ≥ rhs, is at most lhs, and adding rhs back restores lhs |
| Timestamps.AddAssign | Sources/MediaUtility/Timestamp.swift:83-85 | `+=` replaces the left operand by the sum, which `-` undoes |
| Timestamps.SubAssign | Sources/MediaUtility/Timestamp.swift:87-89 | `-=` replaces the left operand by the difference, which `+` undoes |
| Timestamps.UnitConstants | Sources/MediaUtility/Timestamp.swift:59-69 | hour = 3600 seconds = 60 minutes, each decomposes to one unit, and the hour describes as `01:00:00.000` |
| Arguments.ValueTokens | Sources/MediaTools/ArgumentBuilder.swift:8-13 | an absent value contributes nothing; a present one exactly `[flag, value]` |
| Arguments.FlagTokens | Sources/MediaTools/ArgumentBuilder.swift:19-23 | the flag alone exactly when enabled, nothing otherwise |
| Arguments.ArgumentBuilder.constructor | Sources/MediaTools/ArgumentBuilder.swift:2-4 | a new builder holds no tokens |
| Arguments.ArgumentBuilder.AddValue | Sources/MediaTools/ArgumentBuilder.swift:8-13 | appends `[flag, value]` or nothing; the old list is a prefix and the length grows by 0 or 2 |
| Arguments.ArgumentBuilder.Add | Sources/MediaTools/ArgumentBuilder.swift:15-17 | appends exactly one token; the old list is a prefix |
| Arguments.ArgumentBuilder.AddWhen | Sources/MediaTools/ArgumentBuilder.swift:19-23 | appends the flag iff enabled and otherwise changes nothing; growth is 0 or 1 |
| Arguments.ArgumentBuilder.AppendAll | Sources/MediaTools/MediaInfo.swift:37 | `append(argumentsFrom:)` appends the whole list after the old one |
| MediaTrackTypes.FromRawValue | Sources/MediaUtility/MediaTrackType.swift:1-4 | a raw string yields a case exactly when it is `video`, `audio` or `subtitles`, and that case's raw value is the string |
| MediaTrackTypes.Description | Sources/MediaUtility/MediaTrackType.swift:6-8 | `description` is the raw value: it reads back as the same case |
| MediaTrackTypes.RawValueBijection | Sources/MediaUtility/MediaTrackType.swift:1-4 | raw values and cases are in one-to-one correspondence |
| FFmpeg.StreamTypeLetter | Sources/MediaTools/FFmpeg.swift:406-415 | every stream type is named by a single letter from `v V a s d t` |
| FFmpeg.StreamTypeLetterInjective | Sources/MediaTools/FFmpeg.swift:406-415 | no two stream types share a letter, so the letter identifies the type |
| FFmpeg.StreamArgument | Sources/MediaTools/FFmpeg.swift:379-394 | every stream specifier renders as a suffix of at least two characters starting with `:` |
| FFmpeg.StreamArgumentIsChainOfSuffixes | Sources/MediaTools/FFmpeg.swift:379-394 | the rendering of a nested specifier is the concatenation of each level's own suffix, outermost first |
| FFmpeg.MetadataArgument | Sources/MediaTools/FFmpeg.swift:346-357 | every metadata specifier starts with `:`; the stream form is `:s` followed by the optional stream suffix |
| FFmpeg.OptionalStreamArgument | Sources/MediaTools/FFmpeg.swift:453 | a missing specifier contributes the empty suffix, and only a missing one does |
| FFmpeg.OptionalMetadataArgument | Sources/MediaTools/FFmpeg.swift:506 | a missing metadata specifier contributes the empty suffix, and only a missing one does |
| FFmpeg.SpecifierExamples | Tests/MediaUtilityTests/FFmpegTests.swift:11-14 | `:a:1` and `:a` for the audio specifiers of the tests, and `:g`, `:s`, `:s:0`, `:c:3`, `:p:2` for the metadata specifiers |
| FFmpeg.Named | Sources/MediaTools/FFmpeg.swift:452-454 | the flag is `-`, then the name, then the specifier suffix exactly when a specifier is given; the value is kept as is |
| FFmpeg.Map | Sources/MediaTools/FFmpeg.swift:473-481 | the `-map` value is a `-` exactly for a negative mapping, the file id, the specifier suffix and a trailing `?` exactly when optional |
| FFmpeg.MapMetadata | Sources/MediaTools/FFmpeg.swift:505-507 | the output specifier is glued to `-map_metadata`, the input specifier to the index; the value starts with `-` exactly for a negative index |
| FFmpeg.Format | Sources/MediaTools/FFmpeg.swift:520-522 | the flag is the bare `f` and the value is kept |
| FFmpeg.BareFormatFlag | Sources/MediaTools/FFmpeg.swift:520-522 | as written, the format option renders the tokens `f` and the value, the first without any dash |
| FFmpeg.FormatIntended | Sources/MediaTools/FFmpeg.swift:520-522 | the corrected format option renders `-f` and the value |
| FFmpeg.Raw | Sources/MediaTools/FFmpeg.swift:579-581 | a raw option has no value and renders as the single given token |
| FFmpeg.DoubledDashFlags | Sources/MediaTools/FFmpeg.swift:463-469 | as written, the hardware acceleration and filter reinitialisation options render `--hwaccel` and `--reinit_filter`; the boolean renders as `1` or `0` |
| FFmpeg.HardwareAccelerationIntended | Sources/MediaTools/FFmpeg.swift:463-465 | the corrected option's flag is `-hwaccel` followed by the specifier suffix only |
| FFmpeg.ReinitFilterIntended | Sources/MediaTools/FFmpeg.swift:467-469 | the corrected option's flag is `-reinit_filter`, valued `1` or `0` |
| FFmpeg.HardwareAccelerationDropsOneDash | Sources/MediaTools/FFmpeg.swift:463-465 | the written flag is the corrected flag with one extra leading dash, for every value and specifier |
| FFmpeg.ReinitFilterDropsOneDash | Sources/MediaTools/FFmpeg.swift:467-469 | the written flag is the corrected flag with one extra leading dash, for every value and specifier |
| FFmpeg.SpecifierSuffixFlags | Sources/MediaTools/FFmpeg.swift:452-454 | `-c copy`, `-c:v libx264` and `-b:a:1 128k`: the specifier is glued to the flag, never to the value |
| FFmpeg.NumericValues | Sources/MediaTools/FFmpeg.swift:562-564 | integers render in decimal with a leading `-` when negative: `-strict -2`, `-strict 2`, `-stream_loop -1`, `-map_chapters -1` |
| FFmpeg.FrameSizeValue | Sources/MediaTools/FFmpeg.swift:554-556 | a frame size renders as `-s 1920x1080` |
| FFmpeg.OptionTokensLength | Sources/MediaTools/FFmpeg.swift:37-44 | the options render as one token per option plus one per present value |
| FFmpeg.AppendOptions | Sources/MediaTools/FFmpeg.swift:37-44 | the loop appends, in order, each option's flag and then its value when present |
| FFmpeg.LogLevelArgument | Sources/MediaTools/FFmpeg.swift:209-226 | the loop-built log level text equals the reference rendering: `+flag` for each enabled and `-flag` for each disabled flag, then the level |
| FFmpeg.LogLevelLevelJoin | Sources/MediaTools/FFmpeg.swift:209-226 | a bare level stands alone; after flags it is joined with `+`; without a level only the signed flags remain, starting with `+` or `-` accordingly |
| FFmpeg.LogLevelExample | Sources/MediaTools/FFmpeg.swift:209-226 | two enabled flags and a level render as `+repeat+level+info` |
| FFmpeg.DisabledLogLevelExample | Sources/MediaTools/FFmpeg.swift:209-226 | a disabled flag alone renders as `-repeat`, and a level alone as the bare `quiet` |
| FFmpeg.HardwareDeviceArgument | Sources/MediaTools/FFmpeg.swift:250-273 | the loop-built device text equals the reference rendering: type, `=name`, then `:device,key=value...` or `@source` |
| FFmpeg.HardwareDeviceShape | Sources/MediaTools/FFmpeg.swift:250-273 | the text starts with the type, then `=name` when named; `videotoolbox`, `cuda=gpu:0,a=1` and `vaapi@gpu` for three sample devices |
| FFmpeg.LogLevelValue | Sources/MediaTools/FFmpeg.swift:171 | a log level value is present exactly when a log level is set |
| FFmpeg.HardwareTokens | Sources/MediaTools/FFmpeg.swift:196-198 | every hardware device contributes exactly two tokens, `-init_hw_device` and its text |
| FFmpeg.GlobalArguments | Sources/MediaTools/FFmpeg.swift:169-200 | the builder-driven global options equal the reference token list |
| FFmpeg.AddHardwareDevices | Sources/MediaTools/FFmpeg.swift:196-198 | the builder gains exactly the hardware device tokens after what it held |
| FFmpeg.DefaultGlobalOptionsRenderNothing | Sources/MediaTools/FFmpeg.swift:49-60 | the default global options contribute no token |
| FFmpeg.SingleGlobalOptions | Sources/MediaTools/FFmpeg.swift:176-195 | changing one default gives exactly `-nostats`, `-nostdin`, `-y`, `-n` or `-loglevel error` |
| FFmpeg.InputTokens | Sources/MediaTools/FFmpeg.swift:22-25 | an input renders its options, then `-i` and its url as the last two tokens |
| FFmpeg.OutputTokens | Sources/MediaTools/FFmpeg.swift:26-29 | an output renders its options, then its url as the last token |
| FFmpeg.CommandArguments | Sources/MediaTools/FFmpeg.swift:19-33 | the loops over inputs and outputs produce the global tokens, then every input, then every output, in order |
| FFmpeg.AppendInputs | Sources/MediaTools/FFmpeg.swift:22-25 | the loop appends the tokens of every input in order |
| FFmpeg.AppendOutputs | Sources/MediaTools/FFmpeg.swift:26-29 | the loop appends the tokens of every output in order |
| FFmpeg.DefaultCommandIsEmpty | Tests/MediaUtilityTests/FFmpegTests.swift:6-9 | a default command has no argument at all |
| FFmpeg.CommandEndsWithOutput | Sources/MediaTools/FFmpeg.swift:19-33 | with at least one output, the last token is the last output's url |
| FFmpeg.SimpleCommand | Sources/MediaTools/FFmpeg.swift:19-33 | with no global token, one bare input and one output, the command is `-i input`, the output's options, and the output url |
| FFmpeg.MapMetadataStreamZero | Sources/MediaTools/FFmpeg.swift:504-507 | mapping the metadata of stream 0 of file 0 is `-map_metadata 0:s:0` |
| FFmpeg.MetadataMapExample | Sources/MediaTools/FFmpeg.swift:505-507 | the full command for that mapping is `-i in.ogg -map_metadata 0:s:0 out.mp3` |
| MkvMerge.ClampPadding | Sources/MediaTools/MkvMerge.swift:140-143 | the nanosecond padding lands in 1...9 and a padding already there is kept |
| MkvMerge.FormatArgument | Sources/MediaTools/MkvMerge.swift:134-149 | every non-raw timestamp format is a `%` directive; the nanosecond one is `%`, the clamped digit, `n` |
| MkvMerge.ComponentArgument | Sources/MediaTools/MkvMerge.swift:152-168 | the chapter number is `<NUM>` exactly when no positive padding is given, and `<NUM:p>` otherwise |
| MkvMerge.TemplateAppend | Sources/MediaTools/MkvMerge.swift:172-179 | a template's text grows by exactly the appended component's text |
| MkvMerge.TemplateExample | Sources/MediaTools/MkvMerge.swift:98-179 | `Chapter <NUM:2>` from either form; a zero padding gives `<NUM>`; nanosecond paddings 12 and 0 clamp to `%9n` and `%1n` |
| MkvMerge.DurationArgument | Sources/MediaTools/MkvMerge.swift:240-247 | a duration in seconds is the number followed by `s`; a timestamp is `duration:` followed by its clock text |
| MkvMerge.SplitListsReadBack | Sources/MediaTools/MkvMerge.swift:255-270 | `frames:` and `chapters:` lists split at the commas back into the decimal texts of the given numbers |
| MkvMerge.SplitExamples | Sources/MediaTools/MkvMerge.swift:255-270 | `chapters:all`, `30s`, `1024` and `frames:10,20` for four sample split modes |
| MkvMerge.GenerateChaptersArgument | Sources/MediaTools/MkvMerge.swift:186-193 | `when-appending`, or `interval:` followed by the duration text |
| MkvMerge.AppendModeArgument | Sources/MediaTools/MkvMerge.swift:273-278 | the text is `file` exactly for file mode and `track` exactly for track mode |
| MkvMerge.TrackOrderArgument | Sources/MediaTools/MkvMerge.swift:284 | the file id, a `:`, then the track id |
| MkvMerge.FeatureName | Sources/MediaTools/MkvMerge.swift:196-222 | every experimental feature has a non-empty name |
| MkvMerge.GlobalArguments | Sources/MediaTools/MkvMerge.swift:292-319 | the builder-driven global options equal the reference token list, option by option in the source's order |
| MkvMerge.GlobalDefaults | Sources/MediaTools/MkvMerge.swift:292-319 | the defaults render only `--quiet` when quiet; an empty track order or title still renders its flag and an empty value |
| MkvMerge.Checked | Sources/MediaTools/MkvMerge.swift:335-351 | a selection becomes empty exactly when it is empty already or lists no id or language; otherwise it is kept |
| MkvMerge.CheckedIdempotent | Sources/MediaTools/MkvMerge.swift:335-351 | checking twice is checking once |
| MkvMerge.SelectArgument | Sources/MediaTools/MkvMerge.swift:353-367 | a selection has a text exactly when it lists something; disabled selections start with `!` |
| MkvMerge.SelectionTokens | Sources/MediaTools/MkvMerge.swift:398-457 | no token for an empty selection, the removal flag alone for remove-all, otherwise the list flag and the selection text |
| MkvMerge.SelectionOfIds | Sources/MediaTools/MkvMerge.swift:355-359 | an id list renders as the comma-joined ids, prefixed by `!` when disabled, and splits back into the ids' texts |
| MkvMerge.OptionArguments | Sources/MediaTools/MkvMerge.swift:396-469 | every input option renders at most two tokens; a track flag renders `--name-flag` and `tid:1` or `tid:0` |
| MkvMerge.InputArguments | Sources/MediaTools/MkvMerge.swift:486-496 | the loop-built input tokens equal the reference list |
| MkvMerge.InputTokensShape | Sources/MediaTools/MkvMerge.swift:486-496 | the options come first, then `+` when appending, `=` unless other parts are looked for, and the file last |
| MkvMerge.Spill | Sources/MediaTools/MkvMerge.swift:30-39 | at 4096 tokens or more the command becomes the single `@path` token and the tokens go to the options file; below that they are passed as is |
| MkvMerge.SpillPreservesTokens | Sources/MediaTools/MkvMerge.swift:30-39 | expanding the options file recovers exactly the naive tokens, and the command itself stays below the limit |
| MkvMerge.CommandArguments | Sources/MediaTools/MkvMerge.swift:21-40 | the command and the options file are the spill of the naive tokens built from globals, output and inputs |
| MkvMerge.NaiveArguments | Sources/MediaTools/MkvMerge.swift:23-28 | the builder-driven naive tokens equal the reference list |
| MkvMerge.AppendInputs | Sources/MediaTools/MkvMerge.swift:26-28 | the builder gains the tokens of every input, in order |
| MkvMerge.NaiveTokensStart | Sources/MediaTools/MkvMerge.swift:24-25 | the naive tokens start with the global options, then `--output` and the output |
| MkvMerge.NaiveTokensEnd | Sources/MediaTools/MkvMerge.swift:26-28 | with at least one input, the last naive token is the last input's file |
| Mkvmerge.SplitValue | Sources/MediaTools/Mkvmerge.swift:91-101 | a size renders in decimal, all chapters as `chapters:all`, chapter numbers as `chapters:` and the comma-joined numbers |
| Mkvmerge.SplitAgreesWithNewer | Sources/MediaTools/Mkvmerge.swift:91-101 | every legacy split value renders exactly as the newer builder's split argument for the same mode |
| Mkvmerge.NonEmptyTokens | Sources/MediaTools/Mkvmerge.swift:79-90 | a flag and its value are emitted exactly when the value is present and non-empty |
| Mkvmerge.GlobalArguments | Sources/MediaTools/Mkvmerge.swift:64-103 | the appending global options equal the reference token list |
| Mkvmerge.AppendValues | Sources/MediaTools/Mkvmerge.swift:76-101 | the optional values are appended after the given prefix in the source's order |
| Mkvmerge.GlobalTokensStart | Sources/MediaTools/Mkvmerge.swift:66-75 | the set switches come first, then `--title` and the title, which is always emitted |
| Mkvmerge.EmptyValuesDropped | Sources/MediaTools/Mkvmerge.swift:75-90 | the defaults render `--title ""` (after `--quiet` when quiet); an empty track order, chapter language or chapter file is dropped, unlike the newer builder, which keeps an empty track order |
| Mkvmerge.OptionArguments | Sources/MediaTools/Mkvmerge.swift:165-236 | each legacy input option renders exactly as the same option of the newer builder |
| Mkvmerge.NewerOptions | Sources/MediaTools/Mkvmerge.swift:154-163 | each legacy option maps, position by position, to its newer counterpart |
| Mkvmerge.InputArguments | Sources/MediaTools/Mkvmerge.swift:250-260 | the appending input tokens equal the reference list |
| Mkvmerge.OptionsAgree | Sources/MediaTools/Mkvmerge.swift:251 | a list of legacy options renders exactly as the newer builder renders its counterparts |
| Mkvmerge.InputAgreesWithNewer | Sources/MediaTools/Mkvmerge.swift:250-260 | a legacy input renders exactly as the same input of the newer builder |
| Mkvmerge.CommandArguments | Sources/MediaTools/Mkvmerge.swift:263-272 | expanding the result gives the naive tokens, the command stays below 4096 tokens, and an options file is written exactly when the naive tokens reach 4096; when it is, the command is just `@` and the file's path, and otherwise it is the naive tokens themselves |
| Mkvmerge.NaiveTokensLength | Sources/MediaTools/Mkvmerge.swift:264 | the naive tokens hold at least `--title`, the title, `--output`, the output and every input token |
| Matroska.FlagRaw | Sources/MediaTools/MatroskaChapter.swift:35-41 | an absent flag has no raw value; a present one is 0 or 1 |
| Matroska.FlagFromRaw | Sources/MediaTools/MatroskaChapter.swift:25-31 | an absent raw value is an absent flag; any positive raw value reads as true and 0 as false |
| Matroska.FlagRoundTrip | Sources/MediaTools/MatroskaChapter.swift:25-41 | encoding then decoding a flag gives it back; decoding then encoding normalises a raw value to 0 or 1, so 2 comes back as 1 |
| Matroska.NewDisplay | Sources/MediaTools/MatroskaChapter.swift:146-150 | the display initializer keeps string, language and country and leaves the IETF language absent |
| Matroska.NewChapterAtom | Sources/MediaTools/MatroskaChapter.swift:110-116 | the atom initializer keeps every argument (uid, start, end, hidden flag, displays) and leaves the enabled flag absent |
| Matroska.Lookup | Sources/MediaTools/MatroskaChapter.swift:159-162 | `decodeIfPresent`: a value exactly when the key is present, and then the stored one |
| Matroska.DecodeDisplay | Sources/MediaTools/MatroskaChapter.swift:157-163 | a missing chapter string decodes as the empty string; the three optional fields are present exactly when their keys are |
| Matroska.EncodeDisplay | Sources/MediaTools/MatroskaChapter.swift:145-170 | the chapter string is always written; each optional field is written exactly when present |
| Matroska.DisplayRoundTrip | Sources/MediaTools/MatroskaChapter.swift:145-170 | decoding an encoded display gives it back; an empty element decodes as an empty string with no language |
| Matroska.RawLookup | Sources/MediaTools/MatroskaChapter.swift:5-9 | a missing flag element reads as absent rather than failing |
| Matroska.EncodeEditionFlags | Sources/MediaTools/MatroskaChapter.swift:100-107 | each of the four flag elements (hidden, managed, ordered, default) is written exactly when its flag is present, and only as 0 or 1 |
| Matroska.DecodeEditionFlags | Sources/MediaTools/MatroskaChapter.swift:100-107 | each of the four edition flags is decoded from its own element name |
| Matroska.EditionFlagsRoundTrip | Sources/MediaTools/MatroskaChapter.swift:100-107 | decoding the encoded flags of an edition gives the edition back |
| Matroska.EditionKeysDistinct | Sources/MediaTools/MatroskaChapter.swift:100-107 | the four edition flag element names are pairwise distinct |
| Matroska.ExportXML | Sources/MediaTools/MatroskaChapter.swift:187-192 | an encoding failure is passed on unchanged; otherwise the document is the fixed header followed by the encoded body |
| Matroska.HeaderLines | Sources/MediaTools/MatroskaChapter.swift:175-178 | the header is the XML declaration, a newline, the commented DOCTYPE and a newline |
| Matroska.IsEmptyMeaning | Sources/MediaTools/MatroskaChapter.swift:230-242 | an edition is empty exactly when it has at most one chapter and that chapter starts at zero |
| Matroska.Dedup | Sources/MediaTools/MatroskaChapter.swift:246-255 | the accepted draws are never more than the draws |
| Matroska.DedupDistinct | Sources/MediaTools/MatroskaChapter.swift:246-255 | the accepted draws are pairwise distinct and are exactly the drawn values |
| Matroska.DedupPrefix | Sources/MediaTools/MatroskaChapter.swift:246-255 | more draws only extend the accepted sequence |
| Matroska.EditionUIDs | Sources/MediaTools/MatroskaChapter.swift:256-261 | an edition needs one UID for itself and one per chapter |
| Matroska.AllUIDsLength | Sources/MediaTools/MatroskaChapter.swift:256-261 | the UIDs of all editions fill exactly the slot count |
| Matroska.UIDGenerator.constructor | Sources/MediaTools/MatroskaChapter.swift:246 | a generator starts with its draws, an empty UID set and nothing issued |
| Matroska.UIDGenerator.Next | Sources/MediaTools/MatroskaChapter.swift:247-255 | skips drawn values already issued; a found UID is new and joins the set; when the draws run out nothing changes but the position |
| Matroska.MatroskaChapter.constructor | Sources/MediaTools/MatroskaChapter.swift:65-67 | the chapter list holds the given editions |
| Matroska.MatroskaChapter.FillUIDs | Sources/MediaTools/MatroskaChapter.swift:245-262 | only UIDs change; with enough distinct draws every edition and chapter gets the next new draw in order and all UIDs are pairwise distinct |
| Matroska.FillEdition | Sources/MediaTools/MatroskaChapter.swift:256-260 | the edition keeps everything but UIDs and receives its own UID then its chapters' UIDs |
| Matroska.FillChapters | Sources/MediaTools/MatroskaChapter.swift:258-260 | each chapter keeps everything but its UID and the UIDs are issued in chapter order |
| Chapters.ParseLine | Sources/MediaUtility/Chapter.swift:26-33 | a line yields a node exactly when it has two words and the first is a timestamp; the title is the second word |
| Chapters.LineNodesCount | Sources/MediaUtility/Chapter.swift:24-34 | when every line parses, the list has one node per line, in order |
| Chapters.LineParseOfWords | Sources/MediaUtility/Chapter.swift:26-33 | a one-word line traps; with two or more words the first is the time and the second the title, later words being dropped |
| Chapters.LineTextParse | Sources/MediaUtility/Chapter.swift:26-33 | a line written as time, space, one-word title parses back into the node |
| Chapters.LinesText | Sources/MediaUtility/Chapter.swift:18 | one `time title` line per node, in order |
| Chapters.LinesRoundTrip | Sources/MediaUtility/Chapter.swift:20-35 | reading the line file written for a chapter list gives the list back |
| Chapters.FromTimestamps | Sources/MediaUtility/Chapter.swift:42-48 | one node per timestamp, in order, keeping each timestamp; node i is titled with its 1-based number (`Chapters.NumberedTitle`) |
| Chapters.NumberedTitle | Sources/MediaUtility/Chapter.swift:45 | the title is `Chapter ` followed by decimal digits whose value is the number, exactly two digits below 100 |
| Chapters.FromTimestampsTitlesDistinct | Sources/MediaUtility/Chapter.swift:42-48 | the generated `Chapter %02d` titles are pairwise distinct |
| Chapters.FromTimestampsFirst | Sources/MediaUtility/Chapter.swift:42-48 | the first title is `Chapter 01`; the list is empty exactly when at most one timestamp is given |
| Chapters.PaddingIsZeroPad | Sources/MediaUtility/Chapter.swift:50-56 | `padding(number:)` is two-digit zero padding: exactly two digits below 100 |
| Chapters.Blocks | Sources/MediaUtility/Chapter.swift:88-96 | one block per node, its time line and name line joined by a newline, numbered from 1 |
| Chapters.OgmLinesElements | Sources/MediaUtility/Chapter.swift:88-96 | the exported lines alternate `CHAPTERnn=time` and `CHAPTERnnNAME=title`, node by node |
| Chapters.ExportOgmLines | Sources/MediaUtility/Chapter.swift:88-96 | the export is those lines joined by newlines |
| Chapters.OgmNode | Sources/MediaUtility/Chapter.swift:79-84 | a node is read only when the name line is at least 14 and the time line at least 10 characters; the title and time are what follows those prefixes |
| Chapters.ReadOgm | Sources/MediaUtility/Chapter.swift:64-86 | reading OGM text gives exactly the reference outcome: parsed chapters, a thrown error or a trap |
| Chapters.ReadOgmLines | Sources/MediaUtility/Chapter.swift:69-86 | the two guards and the loop give exactly the reference outcome |
| Chapters.ReadNodes | Sources/MediaUtility/Chapter.swift:75-85 | the loop reads the line pairs into nodes, or traps at the first pair that does not read |
| Chapters.OgmErrors | Sources/MediaUtility/Chapter.swift:68-74 | as written, `extraLine` is never thrown; `empty` is thrown exactly when there is no non-empty line |
| Chapters.OddLineIgnored | Sources/MediaUtility/Chapter.swift:72-78 | as written, an odd trailing line is dropped without error |
| Chapters.ParseOgmLinesIntended | Sources/MediaUtility/Chapter.swift:69-74 | corrected guards: `empty` exactly for no line, `extraLine` with the last line exactly for an odd count, otherwise the written loop |
| Chapters.OddLinesDisagree | Sources/MediaUtility/Chapter.swift:72-74 | on an odd number of non-empty lines the corrected reader throws `extraLine` and the written one does not |
| Chapters.IntendedExportParses | Sources/MediaUtility/Chapter.swift:64-96 | the corrected reader still reads every export back |
| Chapters.OgmRoundTrip | Sources/MediaUtility/Chapter.swift:64-96 | exporting then reading gives the chapter list back for 1 to 99 nodes with one-line titles; no node exports the empty text, which throws `empty` |
| Chapters.ExportParses | Sources/MediaUtility/Chapter.swift:64-96 | for 1 to 99 nodes, reading the export gives back exactly the exported nodes |
| Chapters.SplitExport | Sources/MediaUtility/Chapter.swift:88-96 | splitting the export at newlines recovers its two lines per node |
| Chapters.OgmNodeOfLines | Sources/MediaUtility/Chapter.swift:79-84 | each exported pair of lines reads back as its node |
| Subtitles.Blocks | Sources/MediaUtility/Subtitle.swift:31-40 | one block per cue, numbered from 1: the number, the `start --> end` line and the text, each ended by a newline |
| Subtitles.ExportEmpty | Sources/MediaUtility/Subtitle.swift:31-40 | the export is empty exactly when there is no cue, and otherwise starts with `1` and a newline |
| Subtitles.BlockStart | Sources/MediaUtility/Subtitle.swift:33-38 | every block opens with its number and a newline |
| Subtitles.Timings | Sources/MediaUtility/Subtitle.swift:35 | one timing line per cue, in order |
| Subtitles.Texts | Sources/MediaUtility/Subtitle.swift:36 | one text line per cue, in order |
| Subtitles.TimingLineCharacters | Sources/MediaUtility/Subtitle.swift:35 | a timing line is non-empty and holds no newline |
| Subtitles.SplitExport | Sources/MediaUtility/Subtitle.swift:31-40 | splitting the export at newlines gives, per cue, its number, timing line and text, with the empty separator lines dropped |
| Subtitles.ReadTiming | Sources/MediaUtility/Subtitle.swift:35 | a timing line reads only when it has the three words `start`, `-->` and `end` |
| Subtitles.ReadCue | Sources/MediaUtility/Subtitle.swift:33-38 | a cue reads only under its expected number and keeps its text line |
| Subtitles.ReadTimingLine | Sources/MediaUtility/Subtitle.swift:35 | a written timing line reads back as the cue's two times |
| Subtitles.CueTriples | Sources/MediaUtility/Subtitle.swift:31-40 | each exported triple of lines reads back as its cue |
| Subtitles.ExportReadBack | Sources/MediaUtility/Subtitle.swift:31-40 | reading the export back gives exactly the cues, for one-line non-empty texts and canonical times |
| MkvPropEdit.ParseModeText | Sources/MediaTools/MkvPropEdit.swift:61-65 | the text is `fast` exactly for fast parsing and `full` exactly for full parsing |
| MkvPropEdit.TagsActionFlags | Sources/MediaTools/MkvPropEdit.swift:51-53 | the statistics tag action renders `--add-track-statistics-tags` or `--delete-track-statistics-tags`, and the two differ |
| MkvPropEdit.ModificationTokens | Sources/MediaTools/MkvPropEdit.swift:33-48 | every modification is two tokens: `--add`, `--set` or `--delete` by kind, then `name=value`, or the bare name for a deletion |
| MkvPropEdit.TypeLetter | Sources/MediaTools/MkvPropEdit.swift:106-112 | the letter is `v`, `a` or `s` exactly for video, audio or subtitles |
| MkvPropEdit.TypePrefix | Sources/MediaTools/MkvPropEdit.swift:106-112 | no type adds no prefix, and only no type does |
| MkvPropEdit.SelectorRoundTrip | Sources/MediaTools/MkvPropEdit.swift:99-123 | every selector text reads back as its selector; it is `info` exactly for the segment information, and `track:` then the track selector otherwise |
| MkvPropEdit.TrackText | Sources/MediaTools/MkvPropEdit.swift:104-120 | a track selector always renders some text |
| MkvPropEdit.TrackTextRoundTrip | Sources/MediaTools/MkvPropEdit.swift:104-120 | index, `=uid` and `@number` selectors read back from their texts |
| MkvPropEdit.IndexRoundTrip | Sources/MediaTools/MkvPropEdit.swift:105-113 | an index with or without its type letter reads back as the same index and type |
| MkvPropEdit.SelectorExamples | Sources/MediaTools/MkvPropEdit.swift:99-123 | `track:a1`, `track:2`, `track:@3` and `track:=123` for four sample selectors |
| MkvPropEdit.ModificationsTokens | Sources/MediaTools/MkvPropEdit.swift:33-48 | every modification contributes exactly two tokens |
| MkvPropEdit.ParseModeValue | Sources/MediaTools/MkvPropEdit.swift:27 | the parse mode value is present exactly when a mode is set |
| MkvPropEdit.TagsActionTokens | Sources/MediaTools/MkvPropEdit.swift:51-53 | no token exactly when no statistics tag action is set |
| MkvPropEdit.WriteArguments | Sources/MediaTools/MkvPropEdit.swift:25-57 | the builder gains exactly the reference command tokens after what it held |
| MkvPropEdit.AddHead | Sources/MediaTools/MkvPropEdit.swift:27-28 | the builder gains the optional parse mode pair, then the file path |
| MkvPropEdit.AddTail | Sources/MediaTools/MkvPropEdit.swift:51-56 | the builder gains the statistics tag flag, the chapters pair and `--verbose`, each when set |
| MkvPropEdit.AddActions | Sources/MediaTools/MkvPropEdit.swift:31-49 | the builder gains, per action, `--edit` and its selector and then its modifications, in order |
| MkvPropEdit.AddModifications | Sources/MediaTools/MkvPropEdit.swift:33-48 | the builder gains the two tokens of each modification, in order |
| MkvPropEdit.CommandStart | Sources/MediaTools/MkvPropEdit.swift:21-28 | the file path comes first, or after `--parse-mode` and the mode; a new command is the file path alone |
| MkvPropEdit.CommandTail | Sources/MediaTools/MkvPropEdit.swift:51-56 | `--verbose` is last when set, preceded by the chapters pair when set, preceded by the statistics tag flag; with none of them the command ends after the actions |
| VsPipes.GraphRaw | Sources/MediaTools/VsPipe.swift:50-53 | the text is `simple` exactly for the simple graph and `full` exactly for the full one |
| VsPipes.PathAcceptsReserved | Sources/MediaTools/VsPipe.swift:58-62 | as written, the checks compare the literal `"value"`, so `path("-")` is stdout and `path(".")` is no output, while the checked version refuses `-`, `--` and `.` |
| VsPipes.CheckedPath | Sources/MediaTools/VsPipe.swift:58-62 | corrected: a path is refused exactly when it is `-`, `--` or `.`; an accepted path keeps its text and is neither stdout nor no output |
| VsPipes.ContainerRaw | Sources/MediaTools/VsPipe.swift:84-86 | the text is `y4m`, `wav` or `w64` exactly for the matching container |
| VsPipes.WriteArguments | Sources/MediaTools/VsPipe.swift:88-109 | the builder gains exactly the reference tokens after what it held |
| VsPipes.AddOptions | Sources/MediaTools/VsPipe.swift:89-97 | the builder gains the common options in the source's order |
| VsPipes.AddRange | Sources/MediaTools/VsPipe.swift:89-92 | the builder gains the range, output index and request pairs, each when set |
| VsPipes.AddOutputOptions | Sources/MediaTools/VsPipe.swift:93-97 | the builder gains the container, timecodes and JSON pairs and the two switches, each when set |
| VsPipes.AddOutput | Sources/MediaTools/VsPipe.swift:98-108 | the builder gains `-i script`, `-g option script`, or `script path`, by output kind |
| VsPipes.OutputComesLast | Sources/MediaTools/VsPipe.swift:98-108 | the command always ends with the output part, whatever options precede it |
| VsPipes.DefaultArguments | Sources/MediaTools/VsPipe.swift:88-109 | without options the command is the output part alone: `-i script` for info, `script path` for a file |
| VsPipes.RangeArguments | Sources/MediaTools/VsPipe.swift:89-107 | a start and an end give `-s start -e end script path` |
| VsPipes.Examples | Sources/MediaTools/VsPipe.swift:58-109 | sample commands: `-i script.vpy`, `script.vpy -`, `script.vpy .`, and `-s 5 -e 100 script.vpy output.raw` |
| VsPipes.SplitFirst | Sources/MediaTools/VsPipe.swift:143 | at most two non-empty pieces, the first free of the separator |
| VsPipes.SplitFirstOfPair | Sources/MediaTools/VsPipe.swift:143 | a key, the separator and a value split into exactly that key and value |
| VsPipes.ParseFps | Sources/MediaTools/VsPipe.swift:133-138 | a rate reads only when the part before the first space has exactly two `/`-separated pieces |
| VsPipes.FpsRoundTrip | Sources/MediaTools/VsPipe.swift:133-138 | `num/den` followed by an optional note starting with a space reads back as the pair |
| VsPipes.FpsNoteIgnored | Sources/MediaTools/VsPipe.swift:134 | whatever follows the first space never changes the rate |
| VsPipes.FpsExample | Sources/MediaTools/VsPipe.swift:124 | `30000/1001 (29.970 fps)` reads as 30000 over 1001 |
| VsPipes.Entry | Sources/MediaTools/VsPipe.swift:143-145 | a line reads as a key and a value only with a non-empty key free of `:` |
| VsPipes.EntryOfField | Sources/MediaTools/VsPipe.swift:143-145 | a written `key: value` line reads back as its key and trimmed value |
| VsPipes.PropsTraps | Sources/MediaTools/VsPipe.swift:142-146 | reading the lines traps exactly when some line is not a key and value |
| VsPipes.PropsLastWins | Sources/MediaTools/VsPipe.swift:145 | a key keeps the value of its last line |
| VsPipes.PropsKeysFromLines | Sources/MediaTools/VsPipe.swift:142-146 | every key read comes from some line |
| VsPipes.ReadProps | Sources/MediaTools/VsPipe.swift:141-146 | the loop over the lines gives exactly the reference property map |
| VsPipes.InfoOfProps | Sources/MediaTools/VsPipe.swift:148-155 | reading the fields from the map throws or succeeds but never traps |
| VsPipes.InfoOfPropsIgnoresOtherKeys | Sources/MediaTools/VsPipe.swift:148-155 | only the six keys `Width`, `Height`, `Frames`, `FPS`, `Format Name` and `Bits` matter |
| VsPipes.Parse | Sources/MediaTools/VsPipe.swift:140-156 | parsing gives exactly the reference outcome |
| VsPipes.LineWithoutColonTraps | Sources/MediaTools/VsPipe.swift:143-144 | any line without a `:` traps the whole parse |
| VsPipes.ReportLines | Sources/MediaTools/VsPipe.swift:121-128 | a report of the six fields has six lines |
| VsPipes.InfoOfReportProps | Sources/MediaTools/VsPipe.swift:148-155 | the six fields written into any map read back as the same info |
| VsPipes.ParseReport | Sources/MediaTools/VsPipe.swift:140-156 | a report of an info, after any other well-formed lines, parses back as that info |
| Text.IntToString | Sources/MediaTools/FFmpeg.swift:475 | `Int.description`: non-empty decimal text that starts with `-` exactly for a negative number |
| Text.NatToString | Sources/MediaTools/FFmpeg.swift:510 | the decimal text of a natural number is all digits, with no leading zero |
| Text.IntToStringCharacters | Sources/MediaTools/FFmpeg.swift:475 | every character of the text is a digit, except a leading `-` for a negative number |
| Text.ParseInt | Sources/MediaTools/VsPipe.swift:137 | `Int(_:)` accepts only values in the 64-bit range |
| Text.ParseIntOfIntToString | Sources/MediaTools/VsPipe.swift:149-154 | the decimal text of any 64-bit integer reads back as that integer |
| Text.DigitsValueOfNatToString | Sources/MediaTools/FFmpeg.swift:510 | the digits of a natural number's text have that number as value |
| Text.NatToStringOfDigitsValue | Sources/MediaTools/VsPipe.swift:137 | digit text without leading zeros is the text of its value |
| Text.ZeroPadFits | Sources/MediaUtility/Chapter.swift:45 | `%0wd` of a number with at most w digits is exactly w digits with that value |
| Text.ZeroPadValue | Sources/MediaUtility/Chapter.swift:45 | zero padding is at least w digits and keeps the value |
| Text.IndexOf | Sources/MediaTools/VsPipe.swift:134 | the first position of the character, or the length when it is absent |
| Text.Split | Sources/MediaUtility/Chapter.swift:24 | `split(separator:)` pieces are never empty and never hold the separator |
| Text.SplitJoin | Sources/MediaUtility/Chapter.swift:24 | splitting what was joined with the separator gives the pieces back, when they are non-empty and free of it |
| Text.SplitJoinSkipsEmpty | Sources/MediaUtility/Subtitle.swift:39 | splitting a join drops exactly its empty pieces |
| Text.JoinAppend | Sources/MediaUtility/Subtitle.swift:39 | joining one more piece adds the separator and the piece |
| Text.IntStrings | Sources/MediaTools/MkvMerge.swift:264 | one decimal text per number, in order |
| Text.JoinIntsSplit | Sources/MediaTools/MkvMerge.swift:264-268 | comma-joined numbers split back into their texts, each reading back as its number |
| Text.Trim | Sources/MediaTools/VsPipe.swift:145 | trimming never lengthens the text and leaves no space or tab at either end |
| Text.TrimKeepsInfix | Sources/MediaTools/VsPipe.swift:145 | the trimmed text is a contiguous piece of the input with only spaces and tabs cut away before and after it |
| MkvExtract.CliMode | Sources/MediaTools/MkvExtract.swift:17-27 | every extraction mode has a non-empty mode word |
| MkvExtract.CliModeNamesMode | Sources/MediaTools/MkvExtract.swift:17-27 | two extractions share a mode word exactly when they are the same kind of extraction, so the seven words are distinct |
| MkvExtract.ChapterTo | Sources/MediaTools/MkvExtract.swift:29-31 | the shorthand builds a chapter extraction that is not simple, has no language and writes to the given file |
| MkvExtract.OutputRoundTrip | Sources/MediaTools/MkvExtract.swift:74-76 | an output rendered as `ID:filename` reads back as the same track ID and file name, for every 64-bit track ID |
| MkvExtract.OutputTexts | Sources/MediaTools/MkvExtract.swift:74-76 | one `ID:filename` token per output, in order |
| MkvExtract.ChapterTokens | Sources/MediaTools/MkvExtract.swift:61-67 | a chapter extraction is `chapters`, then `-s` only when simple, then `--simple-language` and the language only when simple and a language is set, then the file name |
| MkvExtract.ChapterToTokens | Sources/MediaTools/MkvExtract.swift:29-31 | the chapter shorthand renders as `chapters` and the file name alone |
| MkvExtract.SingleFileTokens | Sources/MediaTools/MkvExtract.swift:77-79 | tags and cuesheet extractions are the mode word followed by the file name |
| MkvExtract.TrackLikeTokens | Sources/MediaTools/MkvExtract.swift:68-76 | tracks, timestamps, cues and attachments with no outputs contribute nothing; otherwise the mode word then one token per output that reads back as that output |
| MkvExtract.OutputsGroupTokens | Sources/MediaTools/MkvExtract.swift:68-76 | the group of a mode word and a list of outputs is empty for no outputs, else the word followed by the outputs in order, each reading back |
| MkvExtract.ExtractionsConcat | Sources/MediaTools/MkvExtract.swift:59-81 | the tokens of two lists of extractions joined are the tokens of each list joined |
| MkvExtract.NoExtractions | Sources/MediaTools/MkvExtract.swift:58 | with no extraction the command line is the file path alone |
| MkvExtract.AppendExtraction | Sources/MediaTools/MkvExtract.swift:60-80 | appending one extraction adds exactly that extraction's tokens after the ones already there |
| MkvExtract.AppendChapter | Sources/MediaTools/MkvExtract.swift:61-67 | the chapter branch appends the chapter group and nothing else |
| MkvExtract.AppendOutputs | Sources/MediaTools/MkvExtract.swift:68-76 | the track-like branch appends nothing for no outputs (the early return) and otherwise the mode word and the outputs |
| MkvExtract.AppendOutputTexts | Sources/MediaTools/MkvExtract.swift:74-76 | the loop over outputs appends one `ID:filename` token per output, in order |
| MkvExtract.CommandArguments | Sources/MediaTools/MkvExtract.swift:57-83 | the command line is the file path followed by the tokens of every extraction in order |
| Mkvextract.ChapterTokens | Sources/MediaTools/Mkvextract.swift:51-56 | a chapter extraction is `chapters`, `-s` exactly when simple, then the output file name |
| Mkvextract.ChapterExtractions | Sources/MediaTools/Mkvextract.swift:49-61 | the extractions kept are chapter extractions drawn from the list, no more than the list holds, and a list of chapter extractions only is kept whole |
| Mkvextract.TracksIgnored | Sources/MediaTools/Mkvextract.swift:57-59 | track extractions contribute no token: the command equals the one built from the chapter extractions alone |
| Mkvextract.AgreesWithNewer | Sources/MediaTools/Mkvextract.swift:47-63 | a chapter extraction renders as the newer `MkvExtract` renders the same chapter; a track extraction agrees with it exactly when it has no outputs |
| Mkvextract.CommandArguments | Sources/MediaTools/Mkvextract.swift:47-63 | the command line is the file path followed by the tokens of every extraction in order |
| FFmpegCopyMuxer.WithDefaultMode | Sources/MediaTools/FFmpegCopyMuxer.swift:32-36 | the short initializer keeps input and output and copies video, audio and subtitles |
| FFmpegCopyMuxer.AbsentCount | Sources/MediaTools/FFmpegCopyMuxer.swift:46-54 | at most three stream kinds can be dropped |
| FFmpegCopyMuxer.CopyAllBits | Sources/MediaTools/FFmpegCopyMuxer.swift:21-24 | `copyAll` is the raw value 7 and contains each of video, audio and subtitle |
| FFmpegCopyMuxer.ArgumentsShape | Sources/MediaTools/FFmpegCopyMuxer.swift:44-57 | the eight-token prefix with the input at index 5, then one drop flag per absent stream kind, then the output last |
| FFmpegCopyMuxer.DropFlagsMembers | Sources/MediaTools/FFmpegCopyMuxer.swift:46-54 | `-vn`, `-an` and `-sn` appear exactly when video, audio and subtitles are not in the option set |
| FFmpegCopyMuxer.CopyAllDropsNothing | Sources/MediaTools/FFmpegCopyMuxer.swift:32-57 | the default mode adds no drop flag: nine tokens, the prefix then the output |
| FFmpegCopyMuxer.OtherBitsIgnored | Sources/MediaTools/FFmpegCopyMuxer.swift:46-54 | bits of the raw value above the three defined ones never change the command line |
| FFmpegCopyMuxer.CommandArguments | Sources/MediaTools/FFmpegCopyMuxer.swift:44-57 | the method that appends flag by flag builds exactly the specified command line |
| FFmpegMuxer.WithDefaultMode | Sources/MediaTools/FFmpegMuxer.swift:15-19 | the short initializer keeps input and output and copies everything |
| FFmpegMuxer.ArgumentsShape | Sources/MediaTools/FFmpegMuxer.swift:27-46 | every mode shares the eight-token prefix with the input at index 5 and ends with the output; copy-all has nine tokens, the other modes eleven |
| FFmpegMuxer.AgreesWithCopyMuxer | Sources/MediaTools/FFmpegMuxer.swift:27-46 | each enum case renders exactly as the option-set muxer with the same streams (`copyAll`, `video`, `audio`) |
| FFmpegMuxer.DefaultsAgree | Sources/MediaTools/FFmpegMuxer.swift:15-19 | the default initializers of the two muxers build the same command line |
| Flac.WithDefaults | Sources/MediaTools/Flac.swift:7-22 | the short initializer uses level 5, no silence, no padding and no forced overwrite |
| Flac.ClampRange | Sources/MediaTools/Flac.swift:25-32 | the used level lies in 0...8, equals the requested level exactly when that is in range, saturates at 0 and 8, and clamping twice changes nothing |
| Flac.LevelTokenDigit | Sources/MediaTools/Flac.swift:33-34 | the level option is a dash and one digit whose value is the clamped level |
| Flac.ArgumentsShape | Sources/MediaTools/Flac.swift:24-50 | level, `-o`, output and input first; then `-s` exactly when silent, `-f` exactly when overwriting is forced, and `-P` followed by a size that reads back as the padding exactly when padding is set |
| Flac.DefaultArguments | Sources/MediaTools/Flac.swift:19-38 | the default encoder's command line is `-5 -o output input` |
| Flac.CommandArguments | Sources/MediaTools/Flac.swift:24-50 | the method that clamps into a local level and appends optional flags builds exactly the specified command line |
| Flac.Md5Calculator | Sources/MediaTools/Flac.swift:56-61 | metaflac with `--no-filename --show-md5sum` followed by the inputs in order |
| MediaInfo.RawValueBijection | Sources/MediaTools/MediaInfo.swift:18-28 | every output format's raw value reads back as that format, and a text reads as a format exactly when it is that format's raw value |
| MediaInfo.WithDefaults | Sources/MediaTools/MediaInfo.swift:7-11 | the short initializer asks for no full report and no output format |
| MediaInfo.OutputTokenRoundTrip | Sources/MediaTools/MediaInfo.swift:34-36 | the `--Output=` token reads back as the format it was built from |
| MediaInfo.ArgumentsShape | Sources/MediaTools/MediaInfo.swift:30-40 | `-f` first exactly when the full report is asked for, one format token exactly when a format is set and naming that format, then the files last and in order |
| MediaInfo.NothingRequested | Sources/MediaTools/MediaInfo.swift:30-40 | with defaults and no files the command line is empty |
| MediaInfo.CommandArguments | Sources/MediaTools/MediaInfo.swift:30-40 | the builder-based method produces exactly the specified command line |
| MkvmergeIdentification.FirstOfType | Sources/MediaTools/MkvmergeIdentification.swift:274-275 | absent exactly when no track has the type; otherwise a track of the type with no track of that type before it |
| MkvmergeIdentification.LanguageOfFirst | Sources/MediaTools/MkvmergeIdentification.swift:272-277 | the language is that of the first track of the type, or `und` when that track has no language |
| MkvmergeIdentification.NoTrackUndetermined | Sources/MediaTools/MkvmergeIdentification.swift:274-275 | without a track of the type the language is `und` |
| MkvmergeIdentification.LaterTracksIgnored | Sources/MediaTools/MkvmergeIdentification.swift:274-275 | once a track of the type is present, appending tracks changes neither the first track nor the language |
| MkvmergeIdentification.SubtitlesIgnored | Sources/MediaTools/MkvmergeIdentification.swift:272-277 | inserting a subtitle track anywhere never changes the primary languages |
| MkvmergeIdentification.SkipOne | Sources/MediaTools/MkvmergeIdentification.swift:274-275 | inserting a track of another type anywhere never changes the first track of a type |
| MkvmergeIdentification.PrimaryLanguagesOf | Sources/MediaTools/MkvmergeIdentification.swift:272-277 | two languages, the video one first and the audio one second |

## Left out

- Launching processes is not modelled. This covers `MkvmergeIdentification.init(filePath:)`, the contents of Sources/MediaTools/MkvMergeIdentification+.swift, `MediaTools.executable`, and the `Executable`/`AnyExecutable` protocols beyond the executable name and arguments pair.
- The JSON decoding schemas of mkvmerge's identification output are not modelled. Only the two track fields that `primaryLanguages` reads are kept.
- XML encoding and decoding of Matroska chapters is not modelled. Chapters are encoded and decoded at the element level: fields and their presence, not XML text.
- File I/O is not modelled:
  - the spill file of mkvmerge is not written; its path is a parameter, and its content is the token list it would hold;
  - `Chapter` parses text handed to it instead of reading a file.
- UUID generation is not modelled: the spill file's path is a parameter.
- `Matroska.MatroskaChapter.FillUIDs` takes the random draws from its caller as a finite sequence. When the draws hold too few distinct values it stops and reports it, where the source would keep drawing forever. Distinctness is proved; the distribution is not.
- The lenient `Timestamp(string:strictMode:)` parser, `toString(displayNanoSecond:)` and `Timestamp.zero` are not part of this model. `isEmpty` takes the lenient parser as a function parameter.
- The external `ArgumentsBuilder` and `append(argumentsFrom:)` are not part of this model. They are given the append-only semantics of `ArgumentBuilder`, and `AppendAll` stands for `append(argumentsFrom:)`.
- `ArgumentBuilder.add(flag:value:)` renders its value with `description`. The model receives the value already rendered, and each caller renders it with the type's own `argument` text where one exists.
- `Double` options (`maxErrorRate`, `statsPeriod`, `timelimit`) carry their rendered text as an opaque string. Floating-point formatting is not modelled.
- `Dictionary` and `Set` iteration order is not modelled:
  - the parameters of a hardware device are a sequence of pairs;
  - mkvmerge's language selections are sequences;
  - no lemma claims an order the source does not fix.
- Strings are sequences of ASCII characters. Grapheme-cluster counting and Unicode `\d` are not modelled.
- `lazySplit` comes from a package that is not part of this model. It is taken to behave like the standard `split`, which omits empty pieces.
- The `assertionFailure` for track extractions in Sources/MediaTools/Mkvextract.swift:58 fires only in debug builds. The model follows the release behaviour, in which the extraction contributes nothing.
- The errors that VsPipe throws while parsing are one error variant, not the source's individual error values.
- Sources/MediaTools/FFmpeg.swift:175 spells `--filter_complex_threads` with a doubled dash. The model renders the flag as written and does not claim a finding for it.
- Chapters.ParseLines, Chapters.ParseOgm, Chapters.ReadOgm, VsPipes.ParseInfo and VsPipes.Parse assume text with LF line ends only. In Swift a CR LF pair is one `Character`, so splitting on `"\n"` does not cut it. The model splits between the CR and the LF instead, so for CRLF text its outcome differs from the source's.
- The input-only options (`streamLoop`, `hardwareAcceleration`, `reinitFilter`) and the output-only options share one option type, `FFmpeg.IOOption`. The model accepts any option on an input or an output; the rendering of each option is unaffected.
- MkvMerge.ClampPadding: the `assert` that the padding lies in 1...9 fires only in debug builds. The model follows the release behaviour and clamps.
- Package.swift and the test target's call to a `FlacMD5` type are not part of this model, because that type is not in the source.

## Findings

| source | as written | input that shows it | evidently intended | confidence | as-written member | corrected member |
|---|---|---|---|---|---|---|
| Sources/MediaTools/VsPipe.swift:58-62 | the two asserts of `FileOutput.path` compare the string literal `"value"` with `"-"` and `"."`, so they never fail | `path("-")`, which builds the same output as `stdout` | the asserts check the `value` parameter and reject `"-"` and `"."` | not executed | VsPipes.PathAcceptsReserved | VsPipes.CheckedPath |
| Sources/MediaTools/FFmpeg.swift:463-469 | `hardwareAcceleration` and `reinitFilter` pass names that already start with `-` to `init(name:)`, which adds another dash | `hardwareAcceleration("cuda", streamSpecifier: nil)` renders the flag `--hwaccel` | the flags `-hwaccel` and `-reinit_filter` | not executed | FFmpeg.HardwareAccelerationDropsOneDash | FFmpeg.HardwareAccelerationIntended |
| Sources/MediaTools/FFmpeg.swift:463-469 | as above, for `reinitFilter` | `reinitFilter(true, streamSpecifier: nil)` renders the flag `--reinit_filter` | the flag `-reinit_filter` | not executed | FFmpeg.ReinitFilterDropsOneDash | FFmpeg.ReinitFilterIntended |
| Sources/MediaTools/FFmpeg.swift:520-522 | `format` uses the flag `f` with no leading dash | `format("mp4")` renders the tokens `f mp4` | the option `-f mp4` | not executed | FFmpeg.BareFormatFlag | FFmpeg.FormatIntended |
| Sources/MediaUtility/Chapter.swift:72-74 | the guard (an even line count, or a non-empty last line) never fails, because `split` omits empty lines; `extraLine` is never thrown and an odd last line is dropped | the text `CHAPTER01=00:00:00.000\nCHAPTER01NAME=A\nCHAPTER02=00:00:01.000` parses as one chapter | an odd number of lines throws `extraLine` with the last line | not executed | Chapters.OddLinesDisagree | Chapters.ParseOgmLinesIntended |
