/** `MediaTrackType` from Sources/MediaUtility/MediaTrackType.swift: a String-backed enum. */
module MediaTrackTypes {
  import opened Wrappers

  datatype MediaTrackType = Video | Audio | Subtitles

  /** The raw values are the case names. */
  function RawValue(t: MediaTrackType): (s: string)
  {
    match t
    case Video => "video"
    case Audio => "audio"
    case Subtitles => "subtitles"
  }

  /** `init?(rawValue:)`: only the three raw values name a case. */
  function FromRawValue(s: string): (r: Option<MediaTrackType>)
    ensures r.Some? ==> RawValue(r.value) == s
    ensures r.None? <==> s != "video" && s != "audio" && s != "subtitles"
  {
    if s == "video" then Some(Video)
    else if s == "audio" then Some(Audio)
    else if s == "subtitles" then Some(Subtitles)
    else None
  }

  /** `description` is the raw value, so it reads back as the same case. */
  function Description(t: MediaTrackType): (s: string)
    ensures FromRawValue(s) == Some(t)
    ensures |s| > 0
  {
    RawValue(t)
  }

  /** Raw values name their case and no other: the enum and its strings are in bijection. */
  lemma RawValueBijection(t: MediaTrackType, u: MediaTrackType, s: string)
    ensures FromRawValue(RawValue(t)) == Some(t)
    ensures RawValue(t) == RawValue(u) ==> t == u
    ensures FromRawValue(s) == Some(t) <==> s == RawValue(t)
  {
  }
}
