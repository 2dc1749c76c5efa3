/**
 * Domain values shared by the scanner and the transcode service: media
 * elements and their streams, the per-stream transcode decisions, and the
 * TranscodeProfile that carries a session's capabilities and decisions.
 */
module Media {
  import opened Wrappers

  datatype MediaElementType = Directory | Audio | Video

  datatype Dimension = Dimension(width: int, height: int)

  datatype VideoStream = VideoStream(codec: string, width: int, height: int)

  /** `configuration` is the channel layout text that the catalog turns into a channel count. */
  datatype AudioStream = AudioStream(codec: string, sampleRate: int, configuration: string)

  /** `stream` is the stream number a forced subtitle selects as the profile's subtitle track. */
  datatype SubtitleStream = SubtitleStream(stream: int, format: string, forced: bool)

  /**
   * A library item. `lastScanned` is the scan timestamp (milliseconds); `year`
   * is 0 when unknown.
   */
  datatype MediaElement = MediaElement(
    elementType: MediaElementType,
    path: string,
    title: Option<string>,
    year: int,
    artist: Option<string>,
    albumArtist: Option<string>,
    collection: Option<string>,
    description: Option<string>,
    bitrate: int,
    lastScanned: int,
    videoStream: Option<VideoStream>,
    audioStreams: Option<seq<AudioStream>>,
    subtitleStreams: Option<seq<SubtitleStream>>)

  /** The video decision: a codec or "copy", and a target resolution or none (native). */
  datatype VideoTranscode = VideoTranscode(codec: string, resolution: Option<Dimension>)

  /** One audio decision: encoder or "copy" (none when no codec could be found). */
  datatype AudioTranscode = AudioTranscode(codec: Option<string>, quality: Option<int>, sampleRate: Option<int>, downmix: bool)

  /** One subtitle decision: codec or "copy" (none for an unsupported format), and whether it is burned in. */
  datatype SubtitleTranscode = SubtitleTranscode(codec: Option<string>, hardcoded: bool)

  /** Only TRANSCODE profiles own an external process; every other stream type is one value here. */
  datatype StreamType = Transcode | OtherStreamType

  type Uuid = string

  /**
   * The fields of a TranscodeProfile at one moment. Nullable Java fields are
   * Options; `quality` is a video or audio quality tier index.
   */
  datatype Profile = Profile(
    id: Option<Uuid>,
    streamType: StreamType,
    client: string,
    element: Option<MediaElement>,
    quality: Option<int>,
    codecs: Option<seq<string>>,
    mchCodecs: Option<seq<string>>,
    format: Option<string>,
    maxBitRate: Option<int>,
    maxSampleRate: int,
    directPlay: bool,
    offset: int,
    audioTrack: Option<int>,
    subtitleTrack: Option<int>,
    videoTranscode: Option<VideoTranscode>,
    audioTranscodes: Option<seq<AudioTranscode>>,
    subtitleTranscodes: Option<seq<SubtitleTranscode>>)

  /** The mutable profile object that negotiation updates in place and the registry stores. */
  class TranscodeProfile {
    var id: Option<Uuid>
    var streamType: StreamType
    var client: string
    var element: Option<MediaElement>
    var quality: Option<int>
    var codecs: Option<seq<string>>
    var mchCodecs: Option<seq<string>>
    var format: Option<string>
    var maxBitRate: Option<int>
    var maxSampleRate: int
    var directPlay: bool
    var offset: int
    var audioTrack: Option<int>
    var subtitleTrack: Option<int>
    var videoTranscode: Option<VideoTranscode>
    var audioTranscodes: Option<seq<AudioTranscode>>
    var subtitleTranscodes: Option<seq<SubtitleTranscode>>

    constructor (v: Profile)
      ensures View() == v
    {
      id, streamType, client, element := v.id, v.streamType, v.client, v.element;
      quality, codecs, mchCodecs, format := v.quality, v.codecs, v.mchCodecs, v.format;
      maxBitRate, maxSampleRate, directPlay, offset := v.maxBitRate, v.maxSampleRate, v.directPlay, v.offset;
      audioTrack, subtitleTrack := v.audioTrack, v.subtitleTrack;
      videoTranscode, audioTranscodes, subtitleTranscodes := v.videoTranscode, v.audioTranscodes, v.subtitleTranscodes;
    }

    function View(): Profile
      reads this
    {
      Profile(id, streamType, client, element, quality, codecs, mchCodecs, format,
              maxBitRate, maxSampleRate, directPlay, offset, audioTrack, subtitleTrack,
              videoTranscode, audioTranscodes, subtitleTranscodes)
    }
  }

  /**
   * The static catalog of codecs, formats and quality tiers (TranscodeUtils),
   * whose tables and lookups belong to a file outside this model. Each lookup is
   * a parameter of the model; `sortStringList` is assumed to return a
   * reordering of its first argument (see ValidCatalog).
   */
  datatype Catalog = Catalog(
    codecsForFormat: string -> seq<string>,
    transcodeVideoCodecs: seq<string>,
    transcodeAudioCodecs: seq<string>,
    supportedSubtitleCodecs: seq<string>,
    losslessCodecs: seq<string>,
    losslessQuality: int,
    highestVideoQuality: MediaElement -> int,
    videoResolution: (MediaElement, int) -> Option<Dimension>,
    compareDimensions: (Dimension, Dimension) -> int,
    audioChannelCount: string -> int,
    maxSampleRateForCodec: string -> int,
    audioQualityForCodec: (string, int) -> Option<int>,
    encoderForAudioCodec: string -> string,
    formatForAudioCodec: string -> Option<string>,
    sortStringList: (seq<string>, seq<string>) -> seq<string>,
    videoQualityMaxBitrate: seq<int>,
    videoQualityResolution: seq<Dimension>,
    videoQualityAudioQuality: seq<int>,
    audioQualityMaxBitrate: seq<int>)

  /** The one property of the catalog the proofs rely on: sorting only reorders. */
  ghost predicate ValidCatalog(cat: Catalog)
  {
    forall list, order :: multiset(cat.sortStringList(list, order)) == multiset(list)
  }

  /** TranscodeUtils.isSupported: membership of a codec or format name in a list. */
  predicate IsSupported(list: seq<string>, name: string)
  {
    name in list
  }

  /** The first element of `list` that satisfies `ok`, as the source's `for ... break` searches find it. */
  function FirstWhere(list: seq<string>, ok: string -> bool): (r: Option<string>)
    ensures r.None? <==> forall k :: 0 <= k < |list| ==> !ok(list[k])
    ensures r.Some? ==> exists k :: 0 <= k < |list| && list[k] == r.value && ok(list[k]) &&
                                    forall j :: 0 <= j < k ==> !ok(list[j])
  {
    if list == [] then None
    else if ok(list[0]) then Some(list[0])
    else
      var r := FirstWhere(list[1..], ok);
      if r.Some? then
        var k :| 0 <= k < |list[1..]| && list[1..][k] == r.value && ok(list[1..][k]) &&
                 forall j :: 0 <= j < k ==> !ok(list[1..][j]);
        assert list[k + 1] == r.value && forall j :: 0 <= j < k + 1 ==> !ok(list[j]);
        r
      else r
  }

  /** The search loop behind FirstWhere. */
  method FindFirst(list: seq<string>, ok: string -> bool) returns (r: Option<string>)
    ensures r == FirstWhere(list, ok)
  {
    var i := 0;
    while i < |list|
      invariant 0 <= i <= |list|
      invariant FirstWhere(list, ok) == FirstWhere(list[i..], ok)
    {
      if ok(list[i]) {
        return Some(list[i]);
      }
      assert list[i..][1..] == list[i + 1..];
      i := i + 1;
    }
    return None;
  }

  /** Availability of a suitable entry does not depend on the order of the list. */
  lemma {:induction false} FirstWhereReorder(a: seq<string>, b: seq<string>, ok: string -> bool)
    requires multiset(a) == multiset(b)
    ensures FirstWhere(a, ok).None? <==> FirstWhere(b, ok).None?
  {
    if FirstWhere(a, ok).Some? {
      var k :| 0 <= k < |a| && ok(a[k]);
      assert a[k] in multiset(b);
      var j :| 0 <= j < |b| && b[j] == a[k];
    }
    if FirstWhere(b, ok).Some? {
      var k :| 0 <= k < |b| && ok(b[k]);
      assert b[k] in multiset(a);
      var j :| 0 <= j < |a| && a[j] == b[k];
    }
  }
}
