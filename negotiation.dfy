/**
 * Capability negotiation (TranscodeService.isTranscodeRequired, processVideo,
 * processAudio, processSubtitles): decides per stream whether to copy or
 * convert, and records one decision per stream on the TranscodeProfile.
 *
 * Each decision procedure has a value-level specification on `Profile`
 * (VideoNegotiation, AudioNegotiation, SubtitleNegotiation); the methods that
 * update a TranscodeProfile in place are proved to reach exactly that value.
 */
module Negotiation {
  import opened Wrappers
  import opened Text
  import opened Media

  // ----- Video -----

  predicate VideoTierDefined(cat: Catalog, q: int)
  {
    0 <= q < |cat.videoQualityMaxBitrate| && q < |cat.videoQualityResolution|
  }

  /** The element's bitrate exceeds the client's maximum, when one is set. */
  predicate ExceedsMaxBitRate(v: Profile)
    requires v.element.Some?
  {
    v.maxBitRate.Some? && v.element.value.bitrate > v.maxBitRate.value
  }

  /** The video test reaches the tier tables: codec accepted, bitrate under the maximum, direct play off. */
  predicate ReadsVideoTier(v: Profile, stream: VideoStream)
    requires v.element.Some? && v.codecs.Some?
  {
    IsSupported(v.codecs.value, stream.codec) && !ExceedsMaxBitRate(v) && !v.directPlay
  }

  /** isTranscodeRequired(profile, VideoStream). */
  function VideoTranscodeRequired(cat: Catalog, v: Profile, stream: VideoStream): (r: bool)
    requires v.element.Some? && v.codecs.Some? && v.quality.Some?
    requires ReadsVideoTier(v, stream) ==> VideoTierDefined(cat, v.quality.value)
    ensures r <==>
      || !IsSupported(v.codecs.value, stream.codec)
      || ExceedsMaxBitRate(v)
      || (!v.directPlay &&
          (|| v.element.value.bitrate > cat.videoQualityMaxBitrate[v.quality.value]
           || cat.compareDimensions(Dimension(stream.width, stream.height), cat.videoQualityResolution[v.quality.value]) == 1))
  {
    if !IsSupported(v.codecs.value, stream.codec) then true
    else if v.maxBitRate.Some? && v.element.value.bitrate > v.maxBitRate.value then true
    else if !v.directPlay then
      if v.element.value.bitrate > cat.videoQualityMaxBitrate[v.quality.value] then true
      else cat.compareDimensions(Dimension(stream.width, stream.height), cat.videoQualityResolution[v.quality.value]) == 1
    else false
  }

  /** Turning direct play on never makes a video transcode necessary that was not already. */
  lemma DirectPlayRelaxesVideo(cat: Catalog, v: Profile, stream: VideoStream)
    requires v.element.Some? && v.codecs.Some? && v.quality.Some?
    requires ReadsVideoTier(v.(directPlay := false), stream) ==> VideoTierDefined(cat, v.quality.value)
    ensures VideoTranscodeRequired(cat, v.(directPlay := true), stream) ==> VideoTranscodeRequired(cat, v.(directPlay := false), stream)
    ensures VideoTranscodeRequired(cat, v.(directPlay := true), stream) <==>
              !IsSupported(v.codecs.value, stream.codec) || ExceedsMaxBitRate(v)
  {
  }

  /** The quality processVideo keeps: the source's highest quality when that is lower or negative. */
  function ClampQuality(requested: int, highest: int): (r: int)
    ensures r == requested || r == highest
    ensures 0 <= requested ==> r <= requested
    ensures 0 <= highest ==> r == if highest < requested then highest else requested
    ensures highest < 0 ==> r == highest
  {
    if highest < 0 || highest < requested then highest else requested
  }

  predicate SuitableVideoCodec(cat: Catalog, format: string, codec: string)
  {
    IsSupported(cat.codecsForFormat(format), codec) && IsSupported(cat.transcodeVideoCodecs, codec)
  }

  function SuitableVideo(cat: Catalog, format: string): string -> bool
  {
    codec => SuitableVideoCodec(cat, format, codec)
  }

  /** processVideo has every input it checks for, a video element and a video stream. */
  predicate VideoInputs(v: Profile)
  {
    && v.element.Some? && v.codecs.Some? && v.format.Some? && v.quality.Some?
    && v.element.value.elementType == Video && v.element.value.videoStream.Some?
  }

  /** The profile after processVideo's quality clamp. */
  function Clamped(cat: Catalog, v: Profile): Profile
    requires VideoInputs(v)
  {
    v.(quality := Some(ClampQuality(v.quality.value, cat.highestVideoQuality(v.element.value))))
  }

  /**
   * processVideo indexes the tier tables with the clamped quality whenever the
   * stream test reaches them; the Java arrays would throw on any other index.
   */
  predicate VideoNegotiable(cat: Catalog, v: Profile)
  {
    VideoInputs(v) && ReadsVideoTier(v, v.element.value.videoStream.value) ==>
      VideoTierDefined(cat, Clamped(cat, v).quality.value)
  }

  /** Transcoding is needed: the stream test says so, or the container cannot hold the source codec. */
  predicate NeedsVideoTranscode(cat: Catalog, v: Profile)
    requires VideoInputs(v) && VideoNegotiable(cat, v)
  {
    var stream := v.element.value.videoStream.value;
    VideoTranscodeRequired(cat, Clamped(cat, v), stream) ||
    !IsSupported(cat.codecsForFormat(v.format.value), stream.codec)
  }

  /** processVideo on values: whether it succeeds and the profile it leaves. */
  function VideoNegotiation(cat: Catalog, v: Profile): (r: (bool, Profile))
    requires VideoNegotiable(cat, v)
    ensures r.1 == v.(quality := r.1.quality, videoTranscode := r.1.videoTranscode)
    ensures !VideoInputs(v) ==> r == (false, v)
    ensures VideoInputs(v) ==> r.1.quality == Clamped(cat, v).quality
    ensures VideoInputs(v) ==>
      (!r.0 <==> NeedsVideoTranscode(cat, v) && FirstWhere(v.codecs.value, SuitableVideo(cat, v.format.value)).None?)
    ensures !r.0 ==> r.1.videoTranscode == v.videoTranscode
    ensures r.0 ==> r.1.videoTranscode.Some?
    ensures r.0 && !NeedsVideoTranscode(cat, v) ==> r.1.videoTranscode == Some(VideoTranscode("copy", None))
    ensures r.0 && NeedsVideoTranscode(cat, v) ==>
      var codec := r.1.videoTranscode.value.codec;
      && codec in v.codecs.value
      && SuitableVideoCodec(cat, v.format.value, codec)
      && Some(codec) == FirstWhere(v.codecs.value, SuitableVideo(cat, v.format.value))
    ensures r.0 && r.1.videoTranscode.value.resolution.Some? ==> NeedsVideoTranscode(cat, v) && !v.directPlay
    ensures r.0 && NeedsVideoTranscode(cat, v) && !v.directPlay ==>
      r.1.videoTranscode.value.resolution == cat.videoResolution(v.element.value, r.1.quality.value)
  {
    if !(v.element.Some? && v.codecs.Some? && v.format.Some? && v.quality.Some?) then (false, v)
    else if v.element.value.elementType != Video then (false, v)
    else if v.element.value.videoStream.None? then (false, v)
    else
      var v1 := Clamped(cat, v);
      if !NeedsVideoTranscode(cat, v) then
        (true, v1.(videoTranscode := Some(VideoTranscode("copy", None))))
      else
        match FirstWhere(v.codecs.value, SuitableVideo(cat, v.format.value))
        case None => (false, v1)
        case Some(codec) =>
          var resolution := if !v.directPlay then cat.videoResolution(v.element.value, v1.quality.value) else None;
          (true, v1.(videoTranscode := Some(VideoTranscode(codec, resolution))))
  }

  /**
   * Direct play with an accepted codec, a bitrate within the client's maximum and
   * a container that holds the codec: the stream is copied at native resolution.
   */
  lemma DirectPlayCopiesVideo(cat: Catalog, v: Profile)
    requires VideoInputs(v) && v.directPlay
    requires IsSupported(v.codecs.value, v.element.value.videoStream.value.codec)
    requires !ExceedsMaxBitRate(v)
    requires IsSupported(cat.codecsForFormat(v.format.value), v.element.value.videoStream.value.codec)
    ensures VideoNegotiation(cat, v) == (true, Clamped(cat, v).(videoTranscode := Some(VideoTranscode("copy", None))))
  {
  }

  /**
   * With direct play off, a source larger than the clamped tier's resolution is
   * converted to the first suitable client codec and scaled to the tier's resolution.
   */
  lemma OversizedVideoIsScaled(cat: Catalog, v: Profile)
    requires VideoInputs(v) && !v.directPlay && VideoNegotiable(cat, v)
    requires IsSupported(v.codecs.value, v.element.value.videoStream.value.codec) && !ExceedsMaxBitRate(v)
    requires var s := v.element.value.videoStream.value;
             cat.compareDimensions(Dimension(s.width, s.height), cat.videoQualityResolution[Clamped(cat, v).quality.value]) == 1
    requires FirstWhere(v.codecs.value, SuitableVideo(cat, v.format.value)).Some?
    ensures var r := VideoNegotiation(cat, v);
            && r.0
            && Some(r.1.videoTranscode.value.codec) == FirstWhere(v.codecs.value, SuitableVideo(cat, v.format.value))
            && r.1.videoTranscode.value.resolution == cat.videoResolution(v.element.value, Clamped(cat, v).quality.value)
  {
  }

  /** processVideo. */
  method ProcessVideo(cat: Catalog, p: TranscodeProfile) returns (ok: bool)
    requires VideoNegotiable(cat, p.View())
    modifies p
    ensures (ok, p.View()) == VideoNegotiation(cat, old(p.View()))
  {
    if p.element.None? || p.codecs.None? || p.format.None? || p.quality.None? {
      return false;
    }
    var element := p.element.value;
    if element.elementType != Video {
      return false;
    }
    var codec: Option<string> := None;
    var resolution: Option<Dimension> := None;
    var quality := cat.highestVideoQuality(element);
    if element.videoStream.None? {
      return false;
    }
    var stream := element.videoStream.value;
    if quality < 0 || quality < p.quality.value {
      p.quality := Some(quality);
    }
    assert p.View() == Clamped(cat, old(p.View()));
    var transcodeRequired := VideoTranscodeRequired(cat, p.View(), stream);
    if !transcodeRequired {
      transcodeRequired := !IsSupported(cat.codecsForFormat(p.format.value), stream.codec);
    }
    if transcodeRequired {
      codec := FindFirst(p.codecs.value, SuitableVideo(cat, p.format.value));
      if codec.None? {
        return false;
      }
      if !p.directPlay {
        resolution := cat.videoResolution(element, p.quality.value);
      }
    } else {
      codec := Some("copy");
    }
    p.videoTranscode := Some(VideoTranscode(codec.value, resolution));
    return true;
  }

  // ----- Audio -----

  predicate AudioTierDefined(cat: Catalog, q: int)
  {
    0 <= q < |cat.audioQualityMaxBitrate|
  }

  /** Audio elements with direct play off are checked against the per-channel bitrate tier. */
  predicate ReadsAudioTier(v: Profile)
    requires v.element.Some?
  {
    !v.directPlay && v.element.value.elementType == Audio
  }

  function Channels(cat: Catalog, stream: AudioStream): int
  {
    cat.audioChannelCount(stream.configuration)
  }

  /** The codec test of the audio check: multichannel streams against the multichannel list, others against the codec list. */
  predicate AudioCodecRejected(cat: Catalog, v: Profile, stream: AudioStream)
    requires v.codecs.Some?
  {
    if Channels(cat, stream) > 2 then v.mchCodecs.None? || !IsSupported(v.mchCodecs.value, stream.codec)
    else !IsSupported(v.codecs.value, stream.codec)
  }

  /** The per-channel bitrate ceiling of the tier, for this stream's channel count. */
  function AudioBitrateCeiling(cat: Catalog, v: Profile, stream: AudioStream): int
    requires v.quality.Some? && AudioTierDefined(cat, v.quality.value)
  {
    Channels(cat, stream) * cat.audioQualityMaxBitrate[v.quality.value]
  }

  /** The sample-rate test of the audio check; DSD streams are exempt. */
  predicate SampleRateExceeded(v: Profile, stream: AudioStream)
  {
    stream.sampleRate > v.maxSampleRate && !Contains(stream.codec, "dsd")
  }

  /** The audio check gets past the codec and sample-rate tests to the bitrate tier lookup. */
  predicate ReachesAudioTier(cat: Catalog, v: Profile, stream: AudioStream)
    requires v.element.Some? && v.codecs.Some?
  {
    ReadsAudioTier(v) && !AudioCodecRejected(cat, v, stream) && !SampleRateExceeded(v, stream)
  }

  /** isTranscodeRequired(profile, AudioStream). */
  function AudioTranscodeRequired(cat: Catalog, v: Profile, stream: AudioStream): (r: bool)
    requires v.element.Some? && v.codecs.Some? && v.quality.Some?
    requires ReachesAudioTier(cat, v, stream) ==> AudioTierDefined(cat, v.quality.value)
    ensures r <==>
      || AudioCodecRejected(cat, v, stream)
      || SampleRateExceeded(v, stream)
      || (ReachesAudioTier(cat, v, stream) && 0 < AudioBitrateCeiling(cat, v, stream) < v.element.value.bitrate)
  {
    if Channels(cat, stream) > 2 && (v.mchCodecs.None? || !IsSupported(v.mchCodecs.value, stream.codec)) then true
    else if Channels(cat, stream) <= 2 && !IsSupported(v.codecs.value, stream.codec) then true
    else if stream.sampleRate > v.maxSampleRate && !Contains(stream.codec, "dsd") then true
    else if !v.directPlay && v.element.value.elementType == Audio then
      var bitrate := Channels(cat, stream) * cat.audioQualityMaxBitrate[v.quality.value];
      bitrate > 0 && v.element.value.bitrate > bitrate
    else false
  }

  /** Turning direct play on never makes an audio transcode necessary that was not already. */
  lemma DirectPlayRelaxesAudio(cat: Catalog, v: Profile, stream: AudioStream)
    requires v.element.Some? && v.codecs.Some? && v.quality.Some?
    requires v.element.value.elementType == Audio ==> AudioTierDefined(cat, v.quality.value)
    ensures AudioTranscodeRequired(cat, v.(directPlay := true), stream) ==> AudioTranscodeRequired(cat, v.(directPlay := false), stream)
  {
  }

  /** An accepted "dsd" stream within the bitrate ceiling is never converted, whatever its sample rate. */
  lemma DsdSampleRateExempt(cat: Catalog, v: Profile, stream: AudioStream)
    requires v.element.Some? && v.codecs.Some? && v.quality.Some?
    requires ReadsAudioTier(v) ==> AudioTierDefined(cat, v.quality.value)
    requires Contains(stream.codec, "dsd") && !AudioCodecRejected(cat, v, stream)
    requires !(ReadsAudioTier(v) && 0 < AudioBitrateCeiling(cat, v, stream) < v.element.value.bitrate)
    ensures !AudioTranscodeRequired(cat, v, stream)
  {
  }

  /** What processAudio needs to hold throughout its loop. */
  predicate AudioReady(cat: Catalog, v: Profile)
  {
    && v.element.Some? && v.codecs.Some? && v.quality.Some?
    && (ReadsAudioTier(v) ==> AudioTierDefined(cat, v.quality.value))
    && (v.element.value.elementType == Video ==> 0 <= v.quality.value < |cat.videoQualityAudioQuality|)
  }

  /** A codec processAudio may choose: transcodable, and accepted by the container once one is fixed. */
  predicate SuitableAudioCodec(cat: Catalog, format: Option<string>, codec: string)
  {
    IsSupported(cat.transcodeAudioCodecs, codec) &&
    (format.Some? ==> IsSupported(cat.codecsForFormat(format.value), codec))
  }

  function SuitableAudio(cat: Catalog, format: Option<string>): string -> bool
  {
    codec => SuitableAudioCodec(cat, format, codec)
  }

  /** The stream must be converted: the audio check says so, or the container (or, without one, the transcoder) cannot carry the codec. */
  predicate NeedsAudioTranscode(cat: Catalog, v: Profile, stream: AudioStream)
    requires AudioReady(cat, v)
  {
    || AudioTranscodeRequired(cat, v, stream)
    || (if v.format.Some? then !IsSupported(cat.codecsForFormat(v.format.value), stream.codec)
        else !IsSupported(cat.transcodeAudioCodecs, stream.codec))
  }

  /** Lossless codecs move to the front of both codec lists for lossless or direct-play audio elements with a lossless source. */
  predicate PrefersLossless(cat: Catalog, v: Profile, stream: AudioStream)
    requires AudioReady(cat, v)
  {
    && v.element.value.elementType == Audio
    && (v.quality.value == cat.losslessQuality || v.directPlay)
    && IsSupported(cat.losslessCodecs, stream.codec)
  }

  function Reordered(cat: Catalog, v: Profile, stream: AudioStream): (r: Profile)
    requires AudioReady(cat, v)
    ensures AudioReady(cat, r)
    ensures r == v.(codecs := r.codecs, mchCodecs := r.mchCodecs)
    ensures r.codecs.Some? && r.mchCodecs.Some? == v.mchCodecs.Some?
  {
    if PrefersLossless(cat, v, stream) then
      v.(codecs := Some(cat.sortStringList(v.codecs.value, cat.losslessCodecs)),
         mchCodecs := if v.mchCodecs.Some? then Some(cat.sortStringList(v.mchCodecs.value, cat.losslessCodecs)) else None)
    else v
  }

  /** The multichannel pick: only for streams with more than two channels and a multichannel list. */
  function MultichannelPick(cat: Catalog, v: Profile, stream: AudioStream): Option<string>
  {
    if Channels(cat, stream) > 2 && v.mchCodecs.Some? then FirstWhere(v.mchCodecs.value, SuitableAudio(cat, v.format))
    else None
  }

  /** The sample rate override: the lesser of the client's and the codec's maximum, when the source exceeds either. */
  function SampleRateFor(cat: Catalog, v: Profile, stream: AudioStream, codec: string): (r: Option<int>)
    ensures r.Some? ==> r.value <= v.maxSampleRate && r.value <= cat.maxSampleRateForCodec(codec)
    ensures r.Some? <==> stream.sampleRate > v.maxSampleRate || stream.sampleRate > cat.maxSampleRateForCodec(codec)
  {
    var codecMax := cat.maxSampleRateForCodec(codec);
    if stream.sampleRate > v.maxSampleRate || stream.sampleRate > codecMax then
      Some(if v.maxSampleRate > codecMax then codecMax else v.maxSampleRate)
    else None
  }

  /** The audio quality parameter: from the requested tier for audio elements, through the video-to-audio table for video elements. */
  function AudioQualityFor(cat: Catalog, v: Profile, codec: string): Option<int>
    requires AudioReady(cat, v)
  {
    if v.element.value.elementType == Audio then cat.audioQualityForCodec(codec, v.quality.value)
    else if v.element.value.elementType == Video then cat.audioQualityForCodec(codec, cat.videoQualityAudioQuality[v.quality.value])
    else None
  }

  /**
   * One iteration of processAudio's loop: the profile it leaves (codec lists
   * possibly reordered, format possibly fixed) and the decision for `stream`.
   */
  function AudioStep(cat: Catalog, v: Profile, stream: AudioStream): (r: (Profile, AudioTranscode))
    requires AudioReady(cat, v)
    ensures AudioReady(cat, r.0)
    ensures r.0.codecs.Some? && r.0.mchCodecs.Some? == v.mchCodecs.Some?
    ensures v.format.Some? ==> r.0.format == v.format
  {
    if !NeedsAudioTranscode(cat, v, stream) then
      var format := if v.format.None? then cat.formatForAudioCodec(stream.codec) else v.format;
      (v.(format := format), AudioTranscode(Some("copy"), None, None, false))
    else ConvertStep(cat, Reordered(cat, v, stream), stream)
  }

  /** One loop pass changes nothing but the two codec lists and the container format. */
  lemma AudioStepFrame(cat: Catalog, v: Profile, stream: AudioStream)
    requires AudioReady(cat, v)
    ensures var r := AudioStep(cat, v, stream).0;
      r == v.(codecs := r.codecs, mchCodecs := r.mchCodecs, format := r.format)
  {
  }

  /** A stream that needs no conversion is copied, and only the container format may be filled in. */
  lemma AudioStepCopies(cat: Catalog, v: Profile, stream: AudioStream)
    requires AudioReady(cat, v) && !NeedsAudioTranscode(cat, v, stream)
    ensures var r := AudioStep(cat, v, stream);
      && r.1 == AudioTranscode(Some("copy"), None, None, false)
      && r.0.codecs == v.codecs && r.0.mchCodecs == v.mchCodecs
      && r.0.format == (if v.format.Some? then v.format else cat.formatForAudioCodec(stream.codec))
  {
  }

  /**
   * A converted stream: downmixed exactly when it has more than two channels
   * and no multichannel codec fits; without any fitting codec it gets no
   * codec, quality or sample rate; the sample rate never exceeds the client's.
   */
  lemma AudioStepDecision(cat: Catalog, v: Profile, stream: AudioStream)
    requires AudioReady(cat, v)
    ensures var r := AudioStep(cat, v, stream);
      && (r.1.downmix <==>
            && NeedsAudioTranscode(cat, v, stream) && Channels(cat, stream) > 2
            && (r.0.mchCodecs.None? || FirstWhere(r.0.mchCodecs.value, SuitableAudio(cat, v.format)).None?))
      && (r.1.codec.None? <==>
            && NeedsAudioTranscode(cat, v, stream)
            && (Channels(cat, stream) > 2 && r.0.mchCodecs.Some? ==> FirstWhere(r.0.mchCodecs.value, SuitableAudio(cat, v.format)).None?)
            && FirstWhere(r.0.codecs.value, SuitableAudio(cat, v.format)).None?)
      && (r.1.codec.None? ==> r.1.quality.None? && r.1.sampleRate.None? && r.0.format == v.format)
      && (r.1.sampleRate.Some? ==> r.1.sampleRate.value <= v.maxSampleRate)
  {
  }

  /** The codec chosen for a converted stream is the encoder of a client codec that fits the container. */
  lemma AudioStepCodecFits(cat: Catalog, v: Profile, stream: AudioStream)
    requires AudioReady(cat, v)
    ensures var r := AudioStep(cat, v, stream);
      NeedsAudioTranscode(cat, v, stream) && r.1.codec.Some? ==>
        exists c :: SuitableAudioCodec(cat, v.format, c) && r.1.codec == Some(cat.encoderForAudioCodec(c)) &&
                    ((r.0.mchCodecs.Some? && c in r.0.mchCodecs.value) || c in r.0.codecs.value)
  {
  }

  /** The converting branch of one loop pass, on the profile after the lossless reordering. */
  function ConvertStep(cat: Catalog, v: Profile, stream: AudioStream): (r: (Profile, AudioTranscode))
    requires AudioReady(cat, v)
  {
    var mch := MultichannelPick(cat, v, stream);
    var downmix := Channels(cat, stream) > 2 && mch.None?;
    var pick := if mch.Some? then mch else FirstWhere(v.codecs.value, SuitableAudio(cat, v.format));
    match pick
    case None => (v, AudioTranscode(None, None, None, downmix))
    case Some(codec) =>
      var format := if v.format.None? then cat.formatForAudioCodec(codec) else v.format;
      (v.(format := format),
       AudioTranscode(Some(cat.encoderForAudioCodec(codec)), AudioQualityFor(cat, v, codec),
                      SampleRateFor(cat, v, stream, codec), downmix))
  }

  /** processAudio's loop over `streams`: the profile it leaves and the decisions in stream order. */
  function AudioFold(cat: Catalog, v: Profile, streams: seq<AudioStream>): (r: (Profile, seq<AudioTranscode>))
    requires AudioReady(cat, v)
    ensures AudioReady(cat, r.0)
    ensures |r.1| == |streams|
    ensures r.0.mchCodecs.Some? == v.mchCodecs.Some?
    decreases |streams|
  {
    if streams == [] then (v, [])
    else
      var prev := AudioFold(cat, v, streams[..|streams| - 1]);
      var step := AudioStep(cat, prev.0, streams[|streams| - 1]);
      (step.0, prev.1 + [step.1])
  }

  /** Decision k is the one stream k receives in the state the first k streams left. */
  lemma {:induction false} AudioFoldAligned(cat: Catalog, v: Profile, streams: seq<AudioStream>, k: nat)
    requires AudioReady(cat, v) && k < |streams|
    ensures AudioFold(cat, v, streams).1[k] == AudioStep(cat, AudioFold(cat, v, streams[..k]).0, streams[k]).1
    decreases |streams|
  {
    var n := |streams|;
    var init := streams[..n - 1];
    if k == n - 1 {
      assert streams[..k] == init;
    } else {
      calc {
        AudioFold(cat, v, streams).1[k];
      == { AudioFoldKeepsEarlier(cat, v, streams, k); }
        AudioFold(cat, v, init).1[k];
      == { AudioFoldAligned(cat, v, init, k); }
        AudioStep(cat, AudioFold(cat, v, init[..k]).0, init[k]).1;
      == { assert init[..k] == streams[..k] && init[k] == streams[k]; }
        AudioStep(cat, AudioFold(cat, v, streams[..k]).0, streams[k]).1;
      }
    }
  }

  /** Handling one more stream leaves the earlier decisions as they were. */
  lemma AudioFoldKeepsEarlier(cat: Catalog, v: Profile, streams: seq<AudioStream>, k: nat)
    requires AudioReady(cat, v) && k < |streams| - 1
    ensures AudioFold(cat, v, streams).1[k] == AudioFold(cat, v, streams[..|streams| - 1]).1[k]
  {
    var prev := AudioFold(cat, v, streams[..|streams| - 1]).1;
    var last := AudioStep(cat, AudioFold(cat, v, streams[..|streams| - 1]).0, streams[|streams| - 1]).1;
    assert AudioFold(cat, v, streams).1 == prev + [last];
    assert k < |prev| && (prev + [last])[k] == prev[k];
  }

  /** The whole loop changes nothing but the two codec lists and the container format. */
  lemma {:induction false} AudioFoldFrame(cat: Catalog, v: Profile, streams: seq<AudioStream>)
    requires AudioReady(cat, v)
    ensures var r := AudioFold(cat, v, streams).0;
      r == v.(codecs := r.codecs, mchCodecs := r.mchCodecs, format := r.format)
    decreases |streams|
  {
    if streams != [] {
      var init := streams[..|streams| - 1];
      var prev := AudioFold(cat, v, init);
      AudioFoldFrame(cat, v, init);
      AudioStepFrame(cat, prev.0, streams[|streams| - 1]);
      assert AudioFold(cat, v, streams).0 == AudioStep(cat, prev.0, streams[|streams| - 1]).0;
    }
  }

  /** Once the container format is fixed, the rest of the loop keeps it. */
  lemma {:induction false} AudioFoldKeepsFormat(cat: Catalog, v: Profile, streams: seq<AudioStream>)
    requires AudioReady(cat, v) && v.format.Some?
    ensures AudioFold(cat, v, streams).0.format == v.format
    decreases |streams|
  {
    if streams != [] {
      AudioFoldKeepsFormat(cat, v, streams[..|streams| - 1]);
    }
  }

  /** The loop only reorders the client's codec lists. */
  lemma {:induction false} AudioFoldPermutesCodecs(cat: Catalog, v: Profile, streams: seq<AudioStream>)
    requires ValidCatalog(cat) && AudioReady(cat, v)
    ensures multiset(AudioFold(cat, v, streams).0.codecs.value) == multiset(v.codecs.value)
    ensures v.mchCodecs.Some? ==> multiset(AudioFold(cat, v, streams).0.mchCodecs.value) == multiset(v.mchCodecs.value)
    decreases |streams|
  {
    if streams != [] {
      var init := streams[..|streams| - 1];
      var prev := AudioFold(cat, v, init);
      AudioFoldPermutesCodecs(cat, v, init);
      AudioStepPermutes(cat, prev.0, streams[|streams| - 1]);
      assert AudioFold(cat, v, streams).0 == AudioStep(cat, prev.0, streams[|streams| - 1]).0;
    }
  }

  /** One loop pass only reorders the codec lists. */
  lemma AudioStepPermutes(cat: Catalog, v: Profile, stream: AudioStream)
    requires ValidCatalog(cat) && AudioReady(cat, v)
    ensures multiset(AudioStep(cat, v, stream).0.codecs.value) == multiset(v.codecs.value)
    ensures v.mchCodecs.Some? ==> multiset(AudioStep(cat, v, stream).0.mchCodecs.value) == multiset(v.mchCodecs.value)
  {
    ReorderedPermutes(cat, v, stream);
  }

  lemma ReorderedPermutes(cat: Catalog, v: Profile, stream: AudioStream)
    requires ValidCatalog(cat) && AudioReady(cat, v)
    ensures multiset(Reordered(cat, v, stream).codecs.value) == multiset(v.codecs.value)
    ensures v.mchCodecs.Some? ==> multiset(Reordered(cat, v, stream).mchCodecs.value) == multiset(v.mchCodecs.value)
  {
  }

  /**
   * Downmix, stated on the client's lists as given: a stream is downmixed
   * exactly when it has more than two channels, must be converted, and no
   * multichannel codec is transcodable and accepted by the container.
   */
  lemma AudioStepDownmix(cat: Catalog, v: Profile, stream: AudioStream)
    requires ValidCatalog(cat) && AudioReady(cat, v)
    ensures AudioStep(cat, v, stream).1.downmix <==>
      && NeedsAudioTranscode(cat, v, stream) && Channels(cat, stream) > 2
      && (v.mchCodecs.None? || forall c :: c in v.mchCodecs.value ==> !SuitableAudioCodec(cat, v.format, c))
  {
    var r := AudioStep(cat, v, stream);
    AudioStepDecision(cat, v, stream);
    if NeedsAudioTranscode(cat, v, stream) && v.mchCodecs.Some? {
      ReorderedPermutes(cat, v, stream);
      FirstWhereReorder(r.0.mchCodecs.value, v.mchCodecs.value, SuitableAudio(cat, v.format));
      var ok := SuitableAudio(cat, v.format);
      assert FirstWhere(v.mchCodecs.value, ok).None? <==> forall c :: c in v.mchCodecs.value ==> !SuitableAudioCodec(cat, v.format, c) by {
        if FirstWhere(v.mchCodecs.value, ok).None? {
          forall c | c in v.mchCodecs.value ensures !SuitableAudioCodec(cat, v.format, c) {
            var k :| 0 <= k < |v.mchCodecs.value| && v.mchCodecs.value[k] == c;
            assert !ok(v.mchCodecs.value[k]);
          }
        }
      }
    }
  }

  /**
   * processAudio reaches its stream loop with at least one stream: the inputs
   * are present, there are streams, and a video element has a format.
   */
  predicate AudioLoopRuns(v: Profile)
  {
    && v.element.Some? && v.codecs.Some? && v.quality.Some?
    && v.element.value.audioStreams.Some? && |v.element.value.audioStreams.value| > 0
    && !(v.element.value.elementType == Video && v.format.None?)
  }

  /** processAudio on values. */
  function AudioNegotiation(cat: Catalog, v: Profile): (r: (bool, Profile))
    requires AudioLoopRuns(v) ==> AudioReady(cat, v)
    ensures r.1 == v.(audioTrack := r.1.audioTrack, codecs := r.1.codecs, mchCodecs := r.1.mchCodecs,
                      format := r.1.format, audioTranscodes := r.1.audioTranscodes)
    ensures v.element.None? || v.codecs.None? || v.quality.None? ==> r == (false, v)
    ensures r.0 && r.1.audioTranscodes != v.audioTranscodes ==>
      && v.element.value.audioStreams.Some? && r.1.audioTranscodes.Some?
      && |r.1.audioTranscodes.value| == |v.element.value.audioStreams.value|
      && (AudioLoopRuns(v) ==>
            r.1.audioTranscodes == Some(AudioFold(cat, v.(audioTrack := r.1.audioTrack), v.element.value.audioStreams.value).1))
    ensures v.element.Some? && v.codecs.Some? && v.quality.Some? && v.element.value.audioStreams.Some? &&
            |v.element.value.audioStreams.value| > 0 ==>
      && r.1.audioTrack == (if v.audioTrack.None? then Some(0) else v.audioTrack)
      && (r.0 <==> !(v.element.value.elementType == Video && v.format.None?))
      && (r.0 ==> r.1.audioTranscodes == Some(AudioFold(cat, v.(audioTrack := r.1.audioTrack), v.element.value.audioStreams.value).1))
  {
    if v.element.None? || v.codecs.None? || v.quality.None? then (false, v)
    else if v.element.value.audioStreams.None? then (true, v)
    else
      var streams := v.element.value.audioStreams.value;
      if v.audioTrack.None? && |streams| == 0 then (true, v)
      else
        var v0 := if v.audioTrack.None? then v.(audioTrack := Some(0)) else v;
        if v.element.value.elementType == Video && v.format.None? then (false, v0)
        else if |streams| == 0 then (true, v0.(audioTranscodes := Some([])))
        else
          var fold := AudioFold(cat, v0, streams);
          AudioFoldFrame(cat, v0, streams);
          (true, fold.0.(audioTranscodes := Some(fold.1)))
  }

  /** One pass of processAudio's loop body, on the profile object. */
  method ProcessAudioStream(cat: Catalog, p: TranscodeProfile, stream: AudioStream) returns (transcode: AudioTranscode)
    requires AudioReady(cat, p.View())
    modifies p
    ensures (p.View(), transcode) == AudioStep(cat, old(p.View()), stream)
  {
    var transcodeRequired := AudioTranscodeRequired(cat, p.View(), stream);
    if !transcodeRequired {
      if p.format.Some? {
        transcodeRequired := !IsSupported(cat.codecsForFormat(p.format.value), stream.codec);
      } else {
        transcodeRequired := !IsSupported(cat.transcodeAudioCodecs, stream.codec);
      }
    }
    if !transcodeRequired {
      if p.format.None? {
        p.format := cat.formatForAudioCodec(stream.codec);
      }
      transcode := AudioTranscode(Some("copy"), None, None, false);
    } else {
      PreferLosslessCodecs(cat, p, stream);
      transcode := ConvertAudioStream(cat, p, stream);
    }
  }

  /** The lossless reordering of both client codec lists. */
  method PreferLosslessCodecs(cat: Catalog, p: TranscodeProfile, stream: AudioStream)
    requires AudioReady(cat, p.View())
    modifies p
    ensures p.View() == Reordered(cat, old(p.View()), stream)
  {
    if p.element.value.elementType == Audio && (p.quality.value == cat.losslessQuality || p.directPlay)
       && IsSupported(cat.losslessCodecs, stream.codec) {
      p.codecs := Some(cat.sortStringList(p.codecs.value, cat.losslessCodecs));
      if p.mchCodecs.Some? {
        p.mchCodecs := Some(cat.sortStringList(p.mchCodecs.value, cat.losslessCodecs));
      }
    }
  }

  /** Codec search, downmix, sample rate, quality and format for a stream that must be converted. */
  method ConvertAudioStream(cat: Catalog, p: TranscodeProfile, stream: AudioStream) returns (transcode: AudioTranscode)
    requires AudioReady(cat, p.View())
    modifies p
    ensures (p.View(), transcode) == ConvertStep(cat, old(p.View()), stream)
  {
    var codec: Option<string> := None;
    var quality: Option<int> := None;
    var sampleRate: Option<int> := None;
    var downmix := false;
    if Channels(cat, stream) > 2 {
      if p.mchCodecs.Some? {
        codec := FindFirst(p.mchCodecs.value, SuitableAudio(cat, p.format));
      }
      if codec.None? {
        downmix := true;
      }
    }
    if codec.None? {
      codec := FindFirst(p.codecs.value, SuitableAudio(cat, p.format));
    }
    if codec.Some? {
      var chosen := codec.value;
      sampleRate := SampleRateFor(cat, p.View(), stream, chosen);
      quality := AudioQualityFor(cat, p.View(), chosen);
      if p.format.None? {
        p.format := cat.formatForAudioCodec(chosen);
      }
      codec := Some(cat.encoderForAudioCodec(chosen));
    }
    transcode := AudioTranscode(codec, quality, sampleRate, downmix);
  }

  /** processAudio. */
  method ProcessAudio(cat: Catalog, p: TranscodeProfile) returns (ok: bool)
    requires AudioLoopRuns(p.View()) ==> AudioReady(cat, p.View())
    modifies p
    ensures (ok, p.View()) == AudioNegotiation(cat, old(p.View()))
  {
    if p.element.None? || p.codecs.None? || p.quality.None? {
      return false;
    }
    if p.element.value.audioStreams.None? {
      return true;
    }
    var streams := p.element.value.audioStreams.value;
    if p.audioTrack.None? {
      if |streams| > 0 {
        p.audioTrack := Some(0);
      } else {
        return true;
      }
    }
    if p.element.value.elementType == Video && p.format.None? {
      return false;
    }
    if |streams| == 0 {
      p.audioTranscodes := Some([]);
      return true;
    }
    var transcodes := ProcessAudioStreams(cat, p, streams);
    p.audioTranscodes := Some(transcodes);
    return true;
  }

  /** processAudio's loop: each stream in order, against the profile the earlier ones left. */
  method ProcessAudioStreams(cat: Catalog, p: TranscodeProfile, streams: seq<AudioStream>) returns (transcodes: seq<AudioTranscode>)
    requires AudioReady(cat, p.View())
    modifies p
    ensures (p.View(), transcodes) == AudioFold(cat, old(p.View()), streams)
  {
    ghost var v0 := p.View();
    transcodes := [];
    var i := 0;
    while i < |streams|
      invariant 0 <= i <= |streams|
      invariant (p.View(), transcodes) == AudioFold(cat, v0, streams[..i])
    {
      assert streams[..i + 1][..i] == streams[..i];
      var transcode := ProcessAudioStream(cat, p, streams[i]);
      transcodes := transcodes + [transcode];
      i := i + 1;
    }
    assert streams[..i] == streams;
  }

  // ----- Subtitles -----

  predicate TextSubtitle(format: string)
  {
    format == "subrip" || format == "srt" || format == "webvtt"
  }

  predicate PictureSubtitle(format: string)
  {
    format == "dvd_subtitle" || format == "dvb_subtitle" || format == "hdmv_pgs_subtitle"
  }

  /** The client and the container both accept the subtitle format. */
  predicate SubtitleAccepted(cat: Catalog, codecs: seq<string>, format: string, stream: SubtitleStream)
  {
    IsSupported(codecs, stream.format) && IsSupported(cat.codecsForFormat(format), stream.format)
  }

  /** The decision processSubtitles records for one subtitle stream. */
  function SubtitleDecision(cat: Catalog, codecs: seq<string>, format: string, stream: SubtitleStream): SubtitleTranscode
  {
    if SubtitleAccepted(cat, codecs, format, stream) then SubtitleTranscode(Some("copy"), false)
    else if IsSupported(cat.supportedSubtitleCodecs, stream.format) then
      if TextSubtitle(stream.format) then SubtitleTranscode(Some("webvtt"), false)
      else if PictureSubtitle(stream.format) then SubtitleTranscode(Some(stream.format), true)
      else SubtitleTranscode(Some("copy"), false)
    else SubtitleTranscode(None, false)
  }

  /**
   * Accepted streams are copied; otherwise a transcodable text format becomes
   * WebVTT and a transcodable picture format is burned in; anything else gets
   * no codec.
   */
  lemma SubtitleDecisionCases(cat: Catalog, codecs: seq<string>, format: string, stream: SubtitleStream)
    ensures var r := SubtitleDecision(cat, codecs, format, stream);
      && (SubtitleAccepted(cat, codecs, format, stream) ==> r == SubtitleTranscode(Some("copy"), false))
      && (r.hardcoded <==>
            !SubtitleAccepted(cat, codecs, format, stream) && IsSupported(cat.supportedSubtitleCodecs, stream.format) &&
            PictureSubtitle(stream.format))
      && (r.hardcoded ==> r.codec == Some(stream.format))
      && ((!SubtitleAccepted(cat, codecs, format, stream) && TextSubtitle(stream.format) &&
           IsSupported(cat.supportedSubtitleCodecs, stream.format)) ==> r == SubtitleTranscode(Some("webvtt"), false))
      && (r.codec.None? <==> !SubtitleAccepted(cat, codecs, format, stream) && !IsSupported(cat.supportedSubtitleCodecs, stream.format))
      && (r.codec.Some? && !r.hardcoded ==> r.codec == Some("copy") || r.codec == Some("webvtt"))
  {
  }

  /** The stream number of the first forced subtitle stream, if any. */
  function FirstForced(streams: seq<SubtitleStream>): Option<int>
  {
    if streams == [] then None
    else if streams[0].forced then Some(streams[0].stream)
    else FirstForced(streams[1..])
  }

  /** None exactly when no stream is forced; otherwise the number of the earliest forced stream. */
  lemma {:induction false} FirstForcedIsEarliest(streams: seq<SubtitleStream>)
    ensures var r := FirstForced(streams);
      && (r.None? <==> forall k :: 0 <= k < |streams| ==> !streams[k].forced)
      && (r.Some? ==> exists k :: 0 <= k < |streams| && streams[k].forced && r.value == streams[k].stream &&
                                  forall j :: 0 <= j < k ==> !streams[j].forced)
  {
    if streams != [] && !streams[0].forced {
      var rest := streams[1..];
      FirstForcedIsEarliest(rest);
      assert forall k :: 1 <= k < |streams| ==> streams[k] == rest[k - 1];
      if FirstForced(rest).Some? {
        var k :| 0 <= k < |rest| && rest[k].forced && FirstForced(rest).value == rest[k].stream &&
                 forall j :: 0 <= j < k ==> !rest[j].forced;
        assert streams[k + 1].forced && forall j :: 0 <= j < k + 1 ==> !streams[j].forced;
      }
    }
  }

  lemma {:induction false} FirstForcedExtend(streams: seq<SubtitleStream>, s: SubtitleStream)
    ensures FirstForced(streams + [s]) ==
      if FirstForced(streams).Some? then FirstForced(streams) else if s.forced then Some(s.stream) else None
  {
    if streams != [] {
      assert (streams + [s])[1..] == streams[1..] + [s];
      FirstForcedExtend(streams[1..], s);
    }
  }

  /** The decisions for a run of subtitle streams, in stream order. */
  function SubtitleDecisions(cat: Catalog, codecs: seq<string>, format: string, streams: seq<SubtitleStream>): (r: seq<SubtitleTranscode>)
    ensures |r| == |streams|
    ensures forall k :: 0 <= k < |streams| ==> r[k] == SubtitleDecision(cat, codecs, format, streams[k])
    decreases |streams|
  {
    if streams == [] then []
    else SubtitleDecisions(cat, codecs, format, streams[..|streams| - 1]) + [SubtitleDecision(cat, codecs, format, streams[|streams| - 1])]
  }

  predicate SubtitleInputs(v: Profile)
  {
    v.element.Some? && v.codecs.Some? && v.format.Some? && v.element.value.elementType == Video
  }

  /** processSubtitles on values. */
  function SubtitleNegotiation(cat: Catalog, v: Profile): (r: (bool, Profile))
    ensures r.1 == v.(subtitleTrack := r.1.subtitleTrack, subtitleTranscodes := r.1.subtitleTranscodes)
    ensures r.0 <==> SubtitleInputs(v)
    ensures !r.0 || v.element.value.subtitleStreams.None? ==> r.1 == v
    ensures r.0 && v.element.value.subtitleStreams.Some? ==>
      var streams := v.element.value.subtitleStreams.value;
      && r.1.subtitleTranscodes.Some? && |r.1.subtitleTranscodes.value| == |streams|
      && (forall k :: 0 <= k < |streams| ==>
            r.1.subtitleTranscodes.value[k] == SubtitleDecision(cat, v.codecs.value, v.format.value, streams[k]))
      && r.1.subtitleTrack == (if v.subtitleTrack.Some? then v.subtitleTrack else FirstForced(streams))
  {
    if !SubtitleInputs(v) then (false, v)
    else if v.element.value.subtitleStreams.None? then (true, v)
    else
      var streams := v.element.value.subtitleStreams.value;
      (true, v.(subtitleTrack := if v.subtitleTrack.Some? then v.subtitleTrack else FirstForced(streams),
                subtitleTranscodes := Some(SubtitleDecisions(cat, v.codecs.value, v.format.value, streams))))
  }

  /** processSubtitles. */
  method ProcessSubtitles(cat: Catalog, p: TranscodeProfile) returns (ok: bool)
    modifies p
    ensures (ok, p.View()) == SubtitleNegotiation(cat, old(p.View()))
  {
    if p.element.None? || p.codecs.None? || p.format.None? {
      return false;
    }
    if p.element.value.elementType != Video {
      return false;
    }
    if p.element.value.subtitleStreams.None? {
      return true;
    }
    var track, transcodes := DecideSubtitles(cat, p.subtitleTrack, p.element.value.subtitleStreams.value, p.codecs.value, p.format.value);
    p.subtitleTrack := track;
    p.subtitleTranscodes := Some(transcodes);
    return true;
  }

  /**
   * processSubtitles' loop: one decision per stream, and the subtitle track,
   * which the first forced stream sets when none was chosen.
   */
  method DecideSubtitles(cat: Catalog, subtitleTrack: Option<int>, streams: seq<SubtitleStream>, codecs: seq<string>, format: string)
    returns (track: Option<int>, transcodes: seq<SubtitleTranscode>)
    ensures track == if subtitleTrack.Some? then subtitleTrack else FirstForced(streams)
    ensures transcodes == SubtitleDecisions(cat, codecs, format, streams)
  {
    track := subtitleTrack;
    transcodes := [];
    var i := 0;
    while i < |streams|
      invariant 0 <= i <= |streams|
      invariant track == if subtitleTrack.Some? then subtitleTrack else FirstForced(streams[..i])
      invariant transcodes == SubtitleDecisions(cat, codecs, format, streams[..i])
    {
      var stream := streams[i];
      FirstForcedExtend(streams[..i], stream);
      assert streams[..i + 1] == streams[..i] + [stream];
      assert streams[..i + 1][..i] == streams[..i];
      if stream.forced && track.None? {
        track := Some(stream.stream);
      }
      transcodes := transcodes + [SubtitleDecision(cat, codecs, format, stream)];
      i := i + 1;
    }
    assert streams[..i] == streams;
  }

  // ----- Whole profile -----

  /**
   * The audio loop reads the bitrate tier only if its first stream reaches it:
   * any stream that does not is decided by the codec or sample-rate test and
   * ends the loop, and once the first stream has read the tier it is known to
   * be defined.
   */
  predicate AudioLoopReadable(cat: Catalog, v: Profile, streams: seq<AudioStream>)
    requires v.element.Some? && v.codecs.Some? && v.quality.Some?
  {
    |streams| > 0 && ReachesAudioTier(cat, v, streams[0]) ==> AudioTierDefined(cat, v.quality.value)
  }

  /** Every tier lookup the whole-profile check can reach is within the tables. */
  predicate TiersReadable(cat: Catalog, v: Profile)
  {
    v.element.Some? && v.codecs.Some? && v.quality.Some? ==>
      && (v.element.value.videoStream.Some? && ReadsVideoTier(v, v.element.value.videoStream.value) ==>
            VideoTierDefined(cat, v.quality.value))
      && (v.element.value.audioStreams.Some? &&
          !(v.element.value.videoStream.Some? && VideoTranscodeRequired(cat, v, v.element.value.videoStream.value)) ==>
            AudioLoopReadable(cat, v, v.element.value.audioStreams.value))
  }

  /** The audio loop of isTranscodeRequired(profile): true at the first stream that needs converting. */
  function AnyAudioRequired(cat: Catalog, v: Profile, streams: seq<AudioStream>): (r: bool)
    requires v.element.Some? && v.codecs.Some? && v.quality.Some?
    requires AudioLoopReadable(cat, v, streams)
    ensures streams == [] ==> !r
    ensures !AudioTierDefined(cat, v.quality.value) && ReadsAudioTier(v) && streams != [] ==> r
    ensures AudioTierDefined(cat, v.quality.value) || !ReadsAudioTier(v) ==>
      (r <==> exists k :: 0 <= k < |streams| && AudioTranscodeRequired(cat, v, streams[k]))
  {
    if streams == [] then false
    else if AudioTranscodeRequired(cat, v, streams[0]) then true
    else
      var r := AnyAudioRequired(cat, v, streams[1..]);
      assert forall k :: 1 <= k < |streams| ==> streams[k] == streams[1..][k - 1];
      r
  }

  function AnySubtitleUnsupported(codecs: seq<string>, streams: seq<SubtitleStream>): (r: bool)
    ensures r <==> exists k :: 0 <= k < |streams| && !IsSupported(codecs, streams[k].format)
  {
    if streams == [] then false
    else if !IsSupported(codecs, streams[0].format) then true
    else
      var r := AnySubtitleUnsupported(codecs, streams[1..]);
      assert forall k :: 1 <= k < |streams| ==> streams[k] == streams[1..][k - 1];
      r
  }

  /** isTranscodeRequired(profile): none when an input is missing, otherwise whether any stream needs converting. */
  function TranscodeRequired(cat: Catalog, v: Profile): (r: Option<bool>)
    requires TiersReadable(cat, v)
    ensures r.None? <==> v.element.None? || v.quality.None? || v.codecs.None?
    ensures r.Some? ==> (r.value <==>
      var e := v.element.value;
      || (e.videoStream.Some? && VideoTranscodeRequired(cat, v, e.videoStream.value))
      || (e.audioStreams.Some? && AnyAudioRequired(cat, v, e.audioStreams.value))
      || (e.subtitleStreams.Some? && exists k :: 0 <= k < |e.subtitleStreams.value| && !IsSupported(v.codecs.value, e.subtitleStreams.value[k].format)))
    ensures r.Some? && (AudioTierDefined(cat, v.quality.value) || !ReadsAudioTier(v)) ==> (r.value <==>
      var e := v.element.value;
      || (e.videoStream.Some? && VideoTranscodeRequired(cat, v, e.videoStream.value))
      || (e.audioStreams.Some? && exists k :: 0 <= k < |e.audioStreams.value| && AudioTranscodeRequired(cat, v, e.audioStreams.value[k]))
      || (e.subtitleStreams.Some? && exists k :: 0 <= k < |e.subtitleStreams.value| && !IsSupported(v.codecs.value, e.subtitleStreams.value[k].format)))
  {
    if v.element.None? || v.quality.None? || v.codecs.None? then None
    else
      var e := v.element.value;
      if e.videoStream.Some? && VideoTranscodeRequired(cat, v, e.videoStream.value) then Some(true)
      else if e.audioStreams.Some? && AnyAudioRequired(cat, v, e.audioStreams.value) then Some(true)
      else if e.subtitleStreams.Some? && AnySubtitleUnsupported(v.codecs.value, e.subtitleStreams.value) then Some(true)
      else Some(false)
  }

  /**
   * An audio element checked without direct play, whose quality lies outside
   * the bitrate table, is still answered when no stream reaches the lookup:
   * false without streams, true when the first stream is decided by its codec
   * or sample rate.
   */
  lemma UnreadAudioTierAnswered(cat: Catalog, v: Profile)
    requires v.element.Some? && v.codecs.Some? && v.quality.Some?
    requires ReadsAudioTier(v) && !AudioTierDefined(cat, v.quality.value) && v.element.value.videoStream.None?
    requires v.element.value.audioStreams.Some? ==>
      |v.element.value.audioStreams.value| == 0 || !ReachesAudioTier(cat, v, v.element.value.audioStreams.value[0])
    ensures TiersReadable(cat, v)
    ensures (v.element.value.audioStreams.None? || v.element.value.audioStreams.value == []) &&
            (v.element.value.subtitleStreams.None? || v.element.value.subtitleStreams.value == []) ==>
              TranscodeRequired(cat, v) == Some(false)
    ensures v.element.value.audioStreams.Some? && v.element.value.audioStreams.value != [] ==>
              TranscodeRequired(cat, v) == Some(true)
  {
  }
}
