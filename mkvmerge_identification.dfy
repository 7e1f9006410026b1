/**
 * `MkvmergeIdentification.primaryLanguages` from
 * Sources/MediaTools/MkvmergeIdentification.swift: the languages of the
 * first video track and of the first audio track of an identified file,
 * `"und"` standing in for a missing track or a missing language.
 */
module MkvmergeIdentification {
  import opened Wrappers
  import opened MediaTrackTypes

  /** The two fields of an identified track that `primaryLanguages` reads. */
  datatype Track = Track(trackType: MediaTrackType, language: Option<string>)

  /** The language code that stands for "undetermined". */
  const UNDETERMINED: string := "und"

  /** `tracks.first { $0.type == t }`. */
  function FirstOfType(tracks: seq<Track>, t: MediaTrackType): (r: Option<Track>)
    ensures r.None? <==> forall i :: 0 <= i < |tracks| ==> tracks[i].trackType != t
    ensures r.Some? ==> exists i :: (0 <= i < |tracks| && tracks[i] == r.value && tracks[i].trackType == t
                                     && forall j :: 0 <= j < i ==> tracks[j].trackType != t)
  {
    if |tracks| == 0 then None
    else if tracks[0].trackType == t then Some(tracks[0])
    else
      var rest := FirstOfType(tracks[1..], t);
      assert forall i :: 1 <= i < |tracks| ==> tracks[i] == tracks[1..][i - 1];
      rest
  }

  /** `first?.properties.language ?? "und"`. */
  function LanguageOf(tracks: seq<Track>, t: MediaTrackType): (s: string)
  {
    match FirstOfType(tracks, t)
    case None => UNDETERMINED
    case Some(track) => track.language.GetOr(UNDETERMINED)
  }

  /**
   * The language is that of the first track of the type, and `"und"` when
   * there is no such track or that track has no language.
   */
  lemma LanguageOfFirst(tracks: seq<Track>, t: MediaTrackType, i: nat)
    requires i < |tracks| && tracks[i].trackType == t
    requires forall j :: 0 <= j < i ==> tracks[j].trackType != t
    ensures LanguageOf(tracks, t) == tracks[i].language.GetOr(UNDETERMINED)
  {
    var first := FirstOfType(tracks, t);
    var k :| 0 <= k < |tracks| && tracks[k] == first.value && tracks[k].trackType == t
      && forall j :: 0 <= j < k ==> tracks[j].trackType != t;
    assert k == i;
  }

  /** Without a track of the type the language is `"und"`. */
  lemma NoTrackUndetermined(tracks: seq<Track>, t: MediaTrackType)
    requires forall i :: 0 <= i < |tracks| ==> tracks[i].trackType != t
    ensures LanguageOf(tracks, t) == UNDETERMINED
  {
  }

  /**
   * Later tracks are never consulted: once a track of the type is present,
   * appending tracks changes nothing, even when the first one has no language.
   */
  lemma {:induction false} LaterTracksIgnored(tracks: seq<Track>, more: seq<Track>, t: MediaTrackType)
    requires exists i :: 0 <= i < |tracks| && tracks[i].trackType == t
    ensures FirstOfType(tracks + more, t) == FirstOfType(tracks, t)
    ensures LanguageOf(tracks + more, t) == LanguageOf(tracks, t)
  {
    if tracks[0].trackType != t {
      assert (tracks + more)[1..] == tracks[1..] + more;
      var i :| 0 <= i < |tracks| && tracks[i].trackType == t;
      assert tracks[1..][i - 1] == tracks[i];
      LaterTracksIgnored(tracks[1..], more, t);
    }
  }

  /** `primaryLanguages`: video first, then audio. */
  function PrimaryLanguages(tracks: seq<Track>): (r: seq<string>)
  {
    [LanguageOf(tracks, Video), LanguageOf(tracks, Audio)]
  }

  /** Subtitle tracks never affect the result. */
  lemma {:induction false} SubtitlesIgnored(tracks: seq<Track>, i: nat, language: Option<string>)
    requires i <= |tracks|
    ensures PrimaryLanguages(tracks[..i] + [Track(Subtitles, language)] + tracks[i..]) == PrimaryLanguages(tracks)
  {
    SkipOne(tracks, i, Track(Subtitles, language), Video);
    SkipOne(tracks, i, Track(Subtitles, language), Audio);
  }

  lemma {:induction false} SkipOne(tracks: seq<Track>, i: nat, extra: Track, t: MediaTrackType)
    requires i <= |tracks| && extra.trackType != t
    ensures FirstOfType(tracks[..i] + [extra] + tracks[i..], t) == FirstOfType(tracks, t)
  {
    var inserted := tracks[..i] + [extra] + tracks[i..];
    if i == 0 {
      assert inserted[1..] == tracks;
    } else {
      assert inserted[0] == tracks[0];
      assert inserted[1..] == tracks[1..][..i - 1] + [extra] + tracks[1..][i - 1..];
      SkipOne(tracks[1..], i - 1, extra, t);
    }
  }

  /** `primaryLanguages`, appending to a local array twice. */
  method PrimaryLanguagesOf(tracks: seq<Track>) returns (result: seq<string>)
    ensures result == PrimaryLanguages(tracks)
    ensures |result| == 2 && result[0] == LanguageOf(tracks, Video) && result[1] == LanguageOf(tracks, Audio)
  {
    result := [];
    result := result + [LanguageOf(tracks, Video)];
    result := result + [LanguageOf(tracks, Audio)];
  }
}
