/**
 * Matroska chapter values of Sources/MediaTools/MatroskaChapter.swift at
 * the element level: the tri-state flags (absent, 0, 1), the defaults of a
 * decoded `ChapterDisplay`, the fixed header `exportXML` writes before the
 * encoded document, `EditionEntry.isEmpty`, and `fillUIDs`, which gives
 * every edition and chapter a fresh random UID.
 *
 * XML text itself is not modelled: an element's children are a map from
 * child name to its content.  Random draws are a sequence the caller
 * supplies.
 */
module Matroska {
  import opened Wrappers
  import Timestamps

  type UInt = Timestamps.u64

  // ----- tri-state flags -----

  /** `MatroskaChapterBool.rawValue`: absent stays absent, false is 0, true is 1. */
  function FlagRaw(b: Option<bool>): (r: Option<UInt>)
    ensures r.None? <==> b.None?
    ensures r.Some? ==> r.value in {0, 1}
  {
    match b
    case None => None
    case Some(v) => Some(if v then 1 else 0)
  }

  /** `MatroskaChapterBool.init(_:)` on a decoded element: absent stays absent, any positive raw value is true. */
  function FlagFromRaw(raw: Option<UInt>): (b: Option<bool>)
    ensures b.None? <==> raw.None?
    ensures b.Some? ==> (b.value <==> raw.value > 0)
  {
    match raw
    case None => None
    case Some(v) => Some(v > 0)
  }

  /** Decoding inverts encoding for all three states; any raw value re-encodes as 0 or 1. */
  lemma FlagRoundTrip(b: Option<bool>, raw: Option<UInt>)
    ensures FlagFromRaw(FlagRaw(b)) == b
    ensures raw.Some? ==> FlagRaw(FlagFromRaw(raw)) == Some(if raw.value > 0 then 1 else 0)
    ensures FlagRaw(FlagFromRaw(Some(2))) == Some(1)
  {
  }

  // ----- the value types -----

  datatype ChapterDisplay = ChapterDisplay(chapterString: string, language: Option<string>, country: Option<string>, languageIETF: Option<string>)

  datatype ChapterAtom = ChapterAtom(
    uid: UInt,
    startTime: string,
    endTime: Option<string>,
    isHidden: Option<bool>,
    isEnabled: Option<bool>,
    displays: Option<seq<ChapterDisplay>>)

  datatype EditionEntry = EditionEntry(
    uid: UInt,
    isHidden: Option<bool>,
    isManaged: Option<bool>,
    isOrdered: Option<bool>,
    isDefault: Option<bool>,
    chapters: seq<ChapterAtom>)

  /** `ChapterDisplay.init(string:language:country:)`: the IETF tag is left absent.  The `string` field is `chapterString` here. */
  function NewDisplay(chapterString: string, language: Option<string>, country: Option<string>): (d: ChapterDisplay)
    ensures d.chapterString == chapterString && d.language == language && d.country == country && d.languageIETF.None?
  {
    ChapterDisplay(chapterString, language, country, None)
  }

  /** `ChapterAtom.init(uid:startTime:endTime:isHidden:displays:)`: `isEnabled` is left absent. */
  function NewChapterAtom(uid: UInt, startTime: string, endTime: Option<string>, isHidden: Option<bool>,
                          displays: Option<seq<ChapterDisplay>>): (c: ChapterAtom)
    ensures c.isEnabled.None? && c.uid == uid && c.startTime == startTime && c.displays == displays
    ensures c.endTime == endTime && c.isHidden == isHidden
  {
    ChapterAtom(uid, startTime, endTime, isHidden, None, displays)
  }

  // ----- ChapterDisplay at the element level -----

  const CHAPTER_STRING := "ChapterString"
  const CHAPTER_LANGUAGE := "ChapterLanguage"
  const CHAPTER_COUNTRY := "ChapterCountry"
  const CHAP_LANGUAGE_IETF := "ChapLanguageIETF"

  function Lookup(fields: map<string, string>, key: string): (r: Option<string>)
    ensures r.Some? <==> key in fields
    ensures r.Some? ==> r.value == fields[key]
  {
    if key in fields then Some(fields[key]) else None
  }

  /** `ChapterDisplay.init(from:)`: a missing string becomes `""`, missing tags stay absent. */
  function DecodeDisplay(fields: map<string, string>): (d: ChapterDisplay)
    ensures d.chapterString == (if CHAPTER_STRING in fields then fields[CHAPTER_STRING] else "")
    ensures d.language == Lookup(fields, CHAPTER_LANGUAGE)
    ensures d.country == Lookup(fields, CHAPTER_COUNTRY)
    ensures d.languageIETF == Lookup(fields, CHAP_LANGUAGE_IETF)
  {
    ChapterDisplay(Lookup(fields, CHAPTER_STRING).GetOr(""),
                   Lookup(fields, CHAPTER_LANGUAGE), Lookup(fields, CHAPTER_COUNTRY), Lookup(fields, CHAP_LANGUAGE_IETF))
  }

  function Present(key: string, value: Option<string>): map<string, string>
  {
    match value
    case None => map[]
    case Some(v) => map[key := v]
  }

  /** The synthesized encoder: the string always, each optional tag only when present. */
  function EncodeDisplay(d: ChapterDisplay): (fields: map<string, string>)
    ensures CHAPTER_STRING in fields
    ensures CHAPTER_LANGUAGE in fields <==> d.language.Some?
    ensures CHAPTER_COUNTRY in fields <==> d.country.Some?
    ensures CHAP_LANGUAGE_IETF in fields <==> d.languageIETF.Some?
  {
    map[CHAPTER_STRING := d.chapterString] + Present(CHAPTER_LANGUAGE, d.language)
      + Present(CHAPTER_COUNTRY, d.country) + Present(CHAP_LANGUAGE_IETF, d.languageIETF)
  }

  /** A display decodes back to itself, and an element with no children decodes to the defaults. */
  lemma DisplayRoundTrip(d: ChapterDisplay)
    ensures DecodeDisplay(EncodeDisplay(d)) == d
    ensures DecodeDisplay(map[]) == ChapterDisplay("", None, None, None)
  {
  }

  // ----- edition flags at the element level -----

  const EDITION_FLAG_HIDDEN := "EditionFlagHidden"
  const EDITION_MANAGED := "EditionManaged"
  const EDITION_FLAG_ORDERED := "EditionFlagOrdered"
  const EDITION_FLAG_DEFAULT := "EditionFlagDefault"

  function RawLookup(fields: map<string, UInt>, key: string): (r: Option<UInt>)
    ensures r.Some? <==> key in fields
    ensures r.Some? ==> r.value == fields[key]
  {
    if key in fields then Some(fields[key]) else None
  }

  function RawPresent(key: string, value: Option<UInt>): map<string, UInt>
  {
    match value
    case None => map[]
    case Some(v) => map[key := v]
  }

  /** The flag children an edition encodes: one per present flag, holding 0 or 1. */
  function EncodeEditionFlags(e: EditionEntry): (fields: map<string, UInt>)
    ensures EDITION_FLAG_HIDDEN in fields <==> e.isHidden.Some?
    ensures EDITION_MANAGED in fields <==> e.isManaged.Some?
    ensures EDITION_FLAG_ORDERED in fields <==> e.isOrdered.Some?
    ensures EDITION_FLAG_DEFAULT in fields <==> e.isDefault.Some?
    ensures forall k :: k in fields ==> fields[k] in {0, 1}
  {
    RawPresent(EDITION_FLAG_HIDDEN, FlagRaw(e.isHidden)) + RawPresent(EDITION_MANAGED, FlagRaw(e.isManaged))
      + RawPresent(EDITION_FLAG_ORDERED, FlagRaw(e.isOrdered)) + RawPresent(EDITION_FLAG_DEFAULT, FlagRaw(e.isDefault))
  }

  /** The decoded flags of an edition, each missing child giving an absent flag. */
  function DecodeEditionFlags(fields: map<string, UInt>, uid: UInt, chapters: seq<ChapterAtom>): (e: EditionEntry)
    ensures e.isHidden == FlagFromRaw(RawLookup(fields, EDITION_FLAG_HIDDEN))
    ensures e.isManaged == FlagFromRaw(RawLookup(fields, EDITION_MANAGED))
    ensures e.isOrdered == FlagFromRaw(RawLookup(fields, EDITION_FLAG_ORDERED))
    ensures e.isDefault == FlagFromRaw(RawLookup(fields, EDITION_FLAG_DEFAULT))
  {
    EditionEntry(uid,
                 FlagFromRaw(RawLookup(fields, EDITION_FLAG_HIDDEN)), FlagFromRaw(RawLookup(fields, EDITION_MANAGED)),
                 FlagFromRaw(RawLookup(fields, EDITION_FLAG_ORDERED)), FlagFromRaw(RawLookup(fields, EDITION_FLAG_DEFAULT)),
                 chapters)
  }

  /** The four edition flags survive encoding and decoding, absent ones included. */
  lemma EditionFlagsRoundTrip(e: EditionEntry)
    ensures DecodeEditionFlags(EncodeEditionFlags(e), e.uid, e.chapters) == e
  {
    FlagRoundTrip(e.isHidden, None);
    FlagRoundTrip(e.isManaged, None);
    FlagRoundTrip(e.isOrdered, None);
    FlagRoundTrip(e.isDefault, None);
    EditionKeysDistinct();
    FourFieldsLookup(EDITION_FLAG_HIDDEN, EDITION_MANAGED, EDITION_FLAG_ORDERED, EDITION_FLAG_DEFAULT,
                     FlagRaw(e.isHidden), FlagRaw(e.isManaged), FlagRaw(e.isOrdered), FlagRaw(e.isDefault));
  }

  lemma EditionKeysDistinct()
    ensures EDITION_FLAG_HIDDEN != EDITION_MANAGED && EDITION_FLAG_HIDDEN != EDITION_FLAG_ORDERED
    ensures EDITION_FLAG_HIDDEN != EDITION_FLAG_DEFAULT && EDITION_MANAGED != EDITION_FLAG_ORDERED
    ensures EDITION_MANAGED != EDITION_FLAG_DEFAULT && EDITION_FLAG_ORDERED != EDITION_FLAG_DEFAULT
  {
    assert EDITION_FLAG_ORDERED[11] != EDITION_FLAG_DEFAULT[11];
  }

  /** Four children under distinct keys are each found under their own key. */
  lemma FourFieldsLookup(k1: string, k2: string, k3: string, k4: string,
                         a: Option<UInt>, b: Option<UInt>, c: Option<UInt>, d: Option<UInt>)
    requires k1 != k2 && k1 != k3 && k1 != k4 && k2 != k3 && k2 != k4 && k3 != k4
    ensures var m := RawPresent(k1, a) + RawPresent(k2, b) + RawPresent(k3, c) + RawPresent(k4, d);
            RawLookup(m, k1) == a && RawLookup(m, k2) == b && RawLookup(m, k3) == c && RawLookup(m, k4) == d
  {
  }

  // ----- exportXML -----

  const XML_DECLARATION: string := "<?xml version=\"1.0\"?>"
  const DOCTYPE_COMMENT: string := "<!-- <!DOCTYPE Chapters SYSTEM \"matroskachapters.dtd\"> -->"

  /** `header`: the XML declaration and a commented-out DOCTYPE, each ended by a newline. */
  const HEADER: string := XML_DECLARATION + "\n" + DOCTYPE_COMMENT + "\n"

  datatype EncodingError = EncodingError(message: string)

  /**
   * `exportXML` (and `encodedXMLBytes`): the header, then the encoder's
   * document; an encoder failure propagates.
   */
  function ExportXML(encoded: Result<string, EncodingError>): (r: Result<string, EncodingError>)
    ensures r.Ok? <==> encoded.Ok?
    ensures r.Err? ==> r == encoded
    ensures r.Ok? ==> |r.value| == |HEADER| + |encoded.value|
                           && r.value[..|HEADER|] == HEADER && r.value[|HEADER|..] == encoded.value
  {
    match encoded
    case Err(e) => Err(e)
    case Ok(body) => Ok(HEADER + body)
  }

  /** The header is the declaration line, then the comment line, each ended by a newline. */
  lemma HeaderLines()
    ensures |HEADER| == |XML_DECLARATION| + |DOCTYPE_COMMENT| + 2
    ensures HEADER[..|XML_DECLARATION|] == XML_DECLARATION && HEADER[|XML_DECLARATION|] == '\n'
    ensures HEADER[|XML_DECLARATION| + 1..|HEADER| - 1] == DOCTYPE_COMMENT && HEADER[|HEADER| - 1] == '\n'
  {
  }

  // ----- isEmpty -----

  /**
   * `EditionEntry.isEmpty`.  `parse` is the lenient `Timestamp(string:strictMode:)`,
   * which is not part of this model.
   */
  function IsEmpty(e: EditionEntry, parse: string -> Option<Timestamps.Timestamp>): bool
  {
    if |e.chapters| == 0 then true
    else if |e.chapters| == 1 then parse(e.chapters[0].startTime) == Some(Timestamps.Timestamp(0))
    else false
  }

  /** An edition is empty exactly when it has at most one chapter and every chapter it has starts at zero. */
  lemma IsEmptyMeaning(e: EditionEntry, parse: string -> Option<Timestamps.Timestamp>)
    ensures IsEmpty(e, parse) <==>
            |e.chapters| <= 1 && forall c :: c in e.chapters ==> parse(c.startTime) == Some(Timestamps.Timestamp(0))
  {
    if |e.chapters| == 1 {
      assert e.chapters[0] in e.chapters;
    }
  }

  // ----- UIDs -----

  /** The distinct values of `draws`, each at its first occurrence, in order. */
  function Dedup(draws: seq<UInt>): (r: seq<UInt>)
    ensures |r| <= |draws|
  {
    if |draws| == 0 then []
    else
      var prior := Dedup(draws[..|draws| - 1]);
      if draws[|draws| - 1] in prior then prior else prior + [draws[|draws| - 1]]
  }

  predicate Distinct(s: seq<UInt>)
  {
    forall i, j :: 0 <= i < j < |s| ==> s[i] != s[j]
  }

  lemma {:induction false} DedupDistinct(draws: seq<UInt>)
    ensures Distinct(Dedup(draws))
    ensures forall x :: x in Dedup(draws) <==> x in draws
  {
    if |draws| > 0 {
      var init := draws[..|draws| - 1];
      DedupDistinct(init);
      assert draws == init + [draws[|draws| - 1]];
    }
  }

  /** Drawing more only extends the distinct values already drawn. */
  lemma {:induction false} DedupPrefix(draws: seq<UInt>, k: nat)
    requires k <= |draws|
    ensures Dedup(draws[..k]) <= Dedup(draws)
    decreases |draws| - k
  {
    if k < |draws| {
      DedupPrefix(draws, k + 1);
      assert draws[..k + 1][..k] == draws[..k];
    } else {
      assert draws[..k] == draws;
    }
  }

  /** The UIDs of an edition: its own, then its chapters' in order. */
  function EditionUIDs(e: EditionEntry): (r: seq<UInt>)
    ensures |r| == 1 + |e.chapters|
  {
    [e.uid] + ChapterUIDs(e.chapters)
  }

  function ChapterUIDs(chapters: seq<ChapterAtom>): (r: seq<UInt>)
    ensures |r| == |chapters|
  {
    seq(|chapters|, j requires 0 <= j < |chapters| => chapters[j].uid)
  }

  /** Giving chapter `j` a UID extends the UIDs of the chapters before it by that UID. */
  lemma ChapterUIDsUpdate(chapters: seq<ChapterAtom>, j: nat, uid: UInt)
    requires j < |chapters|
    ensures ChapterUIDs(chapters[j := chapters[j].(uid := uid)][..j + 1]) == ChapterUIDs(chapters[..j]) + [uid]
  {
    var updated := chapters[j := chapters[j].(uid := uid)];
    assert updated[..j] == chapters[..j];
  }

  /** Every UID of a chapter list, editions before their chapters, in order. */
  function AllUIDs(entries: seq<EditionEntry>): seq<UInt>
  {
    if |entries| == 0 then [] else AllUIDs(entries[..|entries| - 1]) + EditionUIDs(entries[|entries| - 1])
  }

  /** How many UIDs `fillUIDs` assigns: one per edition and one per chapter. */
  function SlotCount(entries: seq<EditionEntry>): nat
  {
    if |entries| == 0 then 0 else SlotCount(entries[..|entries| - 1]) + 1 + |entries[|entries| - 1].chapters|
  }

  lemma {:induction false} AllUIDsLength(entries: seq<EditionEntry>)
    ensures |AllUIDs(entries)| == SlotCount(entries)
  {
    if |entries| > 0 {
      AllUIDsLength(entries[..|entries| - 1]);
    }
  }

  lemma {:induction false} SlotCountPrefix(entries: seq<EditionEntry>, k: nat)
    requires k <= |entries|
    ensures SlotCount(entries[..k]) <= SlotCount(entries)
    decreases |entries| - k
  {
    if k < |entries| {
      SlotCountPrefix(entries, k + 1);
      assert entries[..k + 1][..k] == entries[..k];
    } else {
      assert entries[..k] == entries;
    }
  }

  /** The same chapter except, perhaps, for its UID. */
  predicate SameAtom(a: ChapterAtom, b: ChapterAtom)
  {
    a.(uid := 0) == b.(uid := 0)
  }

  /** The same edition, flags and chapters, except, perhaps, for UIDs. */
  predicate SameEdition(a: EditionEntry, b: EditionEntry)
  {
    a.(uid := 0, chapters := []) == b.(uid := 0, chapters := [])
    && |a.chapters| == |b.chapters|
    && forall j :: 0 <= j < |a.chapters| ==> SameAtom(a.chapters[j], b.chapters[j])
  }

  lemma RenumberedEdition(e: EditionEntry, uid: UInt, chapters: seq<ChapterAtom>)
    requires |chapters| == |e.chapters| && forall j :: 0 <= j < |chapters| ==> SameAtom(e.chapters[j], chapters[j])
    ensures SameEdition(e, e.(uid := uid, chapters := chapters))
  {
  }

  predicate SameExceptUIDs(a: seq<EditionEntry>, b: seq<EditionEntry>)
  {
    |a| == |b| && forall i :: 0 <= i < |a| ==> SameEdition(a[i], b[i])
  }

  lemma {:induction false} SameExceptUIDsSlots(a: seq<EditionEntry>, b: seq<EditionEntry>)
    requires SameExceptUIDs(a, b)
    ensures SlotCount(a) == SlotCount(b)
  {
    if |a| > 0 {
      SameExceptUIDsSlots(a[..|a| - 1], b[..|b| - 1]);
    }
  }

  /**
   * The `uids` set and the `nextUID` function local to `fillUIDs`.  Each
   * `UInt.random` call is the next element of `draws`.
   */
  class UIDGenerator {
    var uids: set<UInt>
    const draws: seq<UInt>
    var used: nat

    /** The UIDs handed out so far, in order: the distinct draws used up. */
    ghost var issued: seq<UInt>

    ghost predicate Valid()
      reads this
    {
      used <= |draws| && issued == Dedup(draws[..used]) && forall x :: x in uids <==> x in issued
    }

    /** `Set<UInt>()` with the stream of draws still to come. */
    constructor (draws: seq<UInt>)
      ensures Valid() && this.draws == draws && issued == []
    {
      this.draws := draws;
      uids := {};
      used := 0;
      issued := [];
      new;
      assert draws[..0] == [];
    }

    /**
     * `nextUID`: draw until an insertion succeeds and return the inserted
     * value.  When the draws run out first (the source would keep drawing
     * forever), nothing is issued and `found` is false.
     */
    method Next() returns (uid: UInt, found: bool)
      requires Valid()
      modifies this
      ensures Valid() && old(used) <= used
      ensures found ==> uid !in old(uids) && uids == old(uids) + {uid} && |uids| == |old(uids)| + 1
      ensures found ==> issued == old(issued) + [uid]
      ensures !found ==> used == |draws| && issued == old(issued) && uids == old(uids)
    {
      ghost var before := issued;
      uid, found := 0, false;
      while used < |draws|
        invariant Valid() && old(used) <= used && issued == before && uids == old(uids)
        decreases |draws| - used
      {
        var draw := draws[used];
        assert draws[..used + 1] == draws[..used] + [draw];
        used := used + 1;
        if draw !in uids {
          uids := uids + {draw};
          issued := issued + [draw];
          return draw, true;
        }
      }
    }
  }

  /** The chapters of a `MatroskaChapter`, which `fillUIDs` updates in place. */
  class MatroskaChapter {
    var entries: seq<EditionEntry>

    /** `init(entries:)`. */
    constructor (entries: seq<EditionEntry>)
      ensures this.entries == entries
    {
      this.entries := entries;
    }

    /**
     * `fillUIDs`: every edition, then each of its chapters, takes the next
     * fresh draw.  The UIDs assigned are the first distinct draws, so they
     * are pairwise distinct; nothing but UIDs changes.  `filled` is false
     * exactly when the draws hold too few distinct values.
     */
    method FillUIDs(draws: seq<UInt>) returns (filled: bool)
      modifies this
      ensures SameExceptUIDs(old(entries), entries)
      ensures filled <==> SlotCount(old(entries)) <= |Dedup(draws)|
      ensures filled ==> AllUIDs(entries) == Dedup(draws)[..SlotCount(old(entries))]
      ensures filled ==> Distinct(AllUIDs(entries))
    {
      var generator := new UIDGenerator(draws);
      var updated := entries;
      var i := 0;
      while i < |updated|
        invariant 0 <= i <= |updated| == |old(entries)|
        invariant generator.Valid() && generator.draws == draws
        invariant SameExceptUIDs(old(entries), updated)
        invariant AllUIDs(updated[..i]) == generator.issued
        invariant updated[i..] == old(entries)[i..]
      {
        var edition, complete := FillEdition(generator, updated[i]);
        if !complete {
          entries := updated;
          assert draws[..generator.used] == draws;
          Exhausted(old(entries), updated, i, draws, generator.issued);
          return false;
        }
        assert updated[..i + 1][..i] == updated[..i];
        updated := updated[i := edition];
        assert updated[..i + 1] == updated[..i] + [edition];
        i := i + 1;
      }
      entries := updated;
      assert updated[..i] == updated;
      Filled(old(entries), updated, draws, generator.used);
      filled := true;
    }

    /** When the draws run out inside edition `i`, they held fewer distinct values than there are slots. */
    static lemma Exhausted(original: seq<EditionEntry>, updated: seq<EditionEntry>, i: nat, draws: seq<UInt>, issued: seq<UInt>)
      requires i < |original| && SameExceptUIDs(original, updated)
      requires issued == Dedup(draws)
      requires |issued| < |AllUIDs(updated[..i])| + 1 + |original[i].chapters|
      ensures |Dedup(draws)| < SlotCount(original)
    {
      AllUIDsLength(updated[..i]);
      SameExceptUIDsSlots(original[..i], updated[..i]);
      assert original[..i + 1][..i] == original[..i];
      SlotCountPrefix(original, i + 1);
    }

    /** When every slot is filled, the UIDs are the first distinct draws. */
    static lemma Filled(original: seq<EditionEntry>, updated: seq<EditionEntry>, draws: seq<UInt>, used: nat)
      requires SameExceptUIDs(original, updated) && used <= |draws|
      requires AllUIDs(updated) == Dedup(draws[..used])
      ensures SlotCount(original) <= |Dedup(draws)|
      ensures AllUIDs(updated) == Dedup(draws)[..SlotCount(original)]
      ensures Distinct(AllUIDs(updated))
    {
      AllUIDsLength(updated);
      SameExceptUIDsSlots(original, updated);
      DedupPrefix(draws, used);
      DedupDistinct(draws);
    }
  }

  /** One step of `entries.mutateEach`: the edition's UID, then each chapter's, from the generator. */
  method FillEdition(generator: UIDGenerator, e: EditionEntry) returns (r: EditionEntry, complete: bool)
    requires generator.Valid()
    modifies generator
    ensures generator.Valid()
    ensures SameEdition(e, r)
    ensures complete ==> generator.issued == old(generator.issued) + EditionUIDs(r)
    ensures !complete ==> generator.used == |generator.draws|
                          && |generator.issued| < |old(generator.issued)| + 1 + |e.chapters|
  {
    ghost var before := generator.issued;
    var uid, found := generator.Next();
    if !found {
      return e, false;
    }
    ghost var withEdition := generator.issued;
    var chapters;
    chapters, complete := FillChapters(generator, e.chapters);
    r := e.(uid := uid, chapters := chapters);
    RenumberedEdition(e, uid, chapters);
    assert EditionUIDs(r) == [uid] + ChapterUIDs(chapters);
    if complete {
      assert generator.issued == withEdition + ChapterUIDs(chapters);
      assert withEdition == before + [uid];
    }
  }

  /** The inner `chapters.mutateEach`: each chapter, in order, takes the next UID. */
  method FillChapters(generator: UIDGenerator, chapters: seq<ChapterAtom>) returns (r: seq<ChapterAtom>, complete: bool)
    requires generator.Valid()
    modifies generator
    ensures generator.Valid()
    ensures |r| == |chapters| && forall j :: 0 <= j < |r| ==> SameAtom(chapters[j], r[j])
    ensures complete ==> generator.issued == old(generator.issued) + ChapterUIDs(r)
    ensures !complete ==> generator.used == |generator.draws|
                          && |generator.issued| < |old(generator.issued)| + |chapters|
  {
    ghost var before := generator.issued;
    r := chapters;
    var j := 0;
    while j < |r|
      invariant 0 <= j <= |r| == |chapters|
      invariant generator.Valid()
      invariant forall k :: 0 <= k < |r| ==> SameAtom(chapters[k], r[k])
      invariant generator.issued == before + ChapterUIDs(r[..j])
    {
      var uid, ok := generator.Next();
      if !ok {
        return r, false;
      }
      ChapterUIDsUpdate(r, j, uid);
      r := r[j := r[j].(uid := uid)];
      j := j + 1;
    }
    assert r[..j] == r;
    complete := true;
  }
}
