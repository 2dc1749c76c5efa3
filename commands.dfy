/**
 * Transcoder command synthesis (TranscodeService.getTranscodeCommand,
 * getSegmentTranscodeCommand and their fragment builders) as functions from a
 * profile to argument vectors. A command is a sequence of arguments; one call
 * yields one candidate command per hardware accelerator, then a software one.
 */
module Commands {
  import opened Wrappers
  import opened Text
  import opened Media

  datatype HardwareAccelerator = HardwareAccelerator(name: string, device: string)

  /** The transcoder executable and its accelerators, in preference order. */
  datatype Transcoder = Transcoder(path: string, hardwareAccelerators: seq<HardwareAccelerator>)

  /**
   * The cache and data directories of the settings service, and the HLS
   * segment duration in seconds (a positive constant of the streaming service).
   */
  datatype Settings = Settings(cacheDirectory: string, dataDirectory: string, hlsSegmentDuration: int)

  predicate ValidSettings(settings: Settings)
  {
    settings.hlsSegmentDuration > 0
  }

  type Command = seq<string>

  /** A profile id as string concatenation writes it: "null" when absent. */
  function IdText(id: Option<Uuid>): string
  {
    if id.Some? then id.value else "null"
  }

  /** The per-stream working directory below a root directory. */
  function StreamDirectory(root: string, id: Option<Uuid>): string
  {
    root + "/streams/" + IdText(id)
  }

  // ----- Fragments -----

  /** getHardwareVideoDecodingCommands: hints for the two known accelerators, nothing for others. */
  function HardwareDecoding(acc: HardwareAccelerator): (r: Command)
    ensures r != [] <==> acc.name == "vaapi" || acc.name == "cuvid"
    ensures r != [] ==> |r| >= 2 && r[..2] == ["-hwaccel", acc.name]
    ensures acc.name == "vaapi" ==> |r| == 6 && r[2..] == ["-vaapi_device", acc.device, "-hwaccel_output_format", "vaapi"]
    ensures acc.name == "cuvid" ==> |r| == 2
  {
    match acc.name
    case "vaapi" => ["-hwaccel", acc.name, "-vaapi_device", acc.device, "-hwaccel_output_format", "vaapi"]
    case "cuvid" => ["-hwaccel", acc.name]
    case _ => []
  }

  /** A scale filter argument pair, present exactly when a target resolution is set. */
  function ScaleFilter(filter: string, resolution: Option<Dimension>): (r: Command)
    ensures r == [] <==> resolution.None?
    ensures resolution.Some? ==>
      r == ["-vf", filter + "=w=" + IntToString(resolution.value.width) + ":h=" + IntToString(resolution.value.height)]
  {
    if resolution.Some? then
      ["-vf", filter + "=w=" + IntToString(resolution.value.width) + ":h=" + IntToString(resolution.value.height)]
    else []
  }

  /** getHardwareVideoEncodingCommands: upload and scale on the device, then its H.264 encoder. */
  function HardwareEncoding(resolution: Option<Dimension>, acc: HardwareAccelerator): (r: Command)
    ensures r != [] <==> acc.name == "vaapi" || acc.name == "cuvid"
    ensures acc.name == "vaapi" ==>
      && |r| == 4 + |ScaleFilter("scale_vaapi", resolution)|
      && r[..2] == ["-vf", "format='nv12|vaapi,hwupload'"]
      && r[2..|r| - 2] == ScaleFilter("scale_vaapi", resolution)
      && r[|r| - 2..] == ["-c:v", "h264_vaapi"]
    ensures acc.name == "cuvid" ==>
      && |r| == 2 + |ScaleFilter("scale", resolution)|
      && r[..|r| - 2] == ScaleFilter("scale", resolution)
      && r[|r| - 2..] == ["-c:v", "h264_nvenc"]
  {
    match acc.name
    case "vaapi" => ["-vf", "format='nv12|vaapi,hwupload'"] + ScaleFilter("scale_vaapi", resolution) + ["-c:v", "h264_vaapi"]
    case "cuvid" => ScaleFilter("scale", resolution) + ["-c:v", "h264_nvenc"]
    case _ => []
  }

  /** The encoder and its tuning options for a software codec. */
  function EncoderOptions(codec: string): (r: Command)
    ensures |r| >= 1
    ensures r[0] == (if codec == "vp8" then "libvpx" else if codec == "h264" then "libx264" else codec)
    ensures codec != "vp8" && codec != "h264" ==> r == [codec]
  {
    match codec
    case "vp8" => ["libvpx", "-crf", "25", "-b:v", "0", "-quality", "realtime", "-cpu-used", "5"]
    case "h264" => ["libx264", "-crf", "23", "-preset", "superfast", "-pix_fmt", "yuv420p", "-profile:v", "baseline"]
    case _ => [codec]
  }

  /** getSoftwareVideoEncodingCommands: optional scaling, then "-c:v" and the encoder options. */
  function SoftwareEncoding(codec: string, resolution: Option<Dimension>): (r: Command)
    ensures |r| == |ScaleFilter("scale", resolution)| + 1 + |EncoderOptions(codec)|
    ensures r[..|ScaleFilter("scale", resolution)|] == ScaleFilter("scale", resolution)
    ensures r[|ScaleFilter("scale", resolution)|] == "-c:v"
    ensures r[|ScaleFilter("scale", resolution)| + 1..] == EncoderOptions(codec)
  {
    ScaleFilter("scale", resolution) + ["-c:v"] + EncoderOptions(codec)
  }

  /** getAudioCommands: nothing for a stream without a codec; otherwise map, codec and the optional settings. */
  function AudioCommands(track: int, t: AudioTranscode): (r: Command)
    ensures r == [] <==> t.codec.None?
    ensures t.codec.Some? ==>
      |r| == 4 + (if t.quality.Some? then 2 else 0) + (if t.downmix then 6 else 0) + (if t.sampleRate.Some? then 2 else 0)
    ensures t.codec.Some? ==> r[..4] == ["-map", "0:a:" + IntToString(track), "-c:a", t.codec.value]
    ensures t.codec.Some? && t.quality.Some? ==> r[4..6] == ["-q:a", IntToString(t.quality.value)]
    ensures t.codec.Some? && t.sampleRate.Some? ==> r[|r| - 2..] == ["-ar", IntToString(t.sampleRate.value)]
    ensures t.codec.Some? && t.downmix ==>
      var at := 4 + if t.quality.Some? then 2 else 0;
      r[at..at + 6] == ["-ac", "2", "-clev", "3dB", "-slev", "-3dB"]
  {
    if t.codec.None? then []
    else
      var mapping := ["-map", "0:a:" + IntToString(track), "-c:a", t.codec.value];
      var quality := if t.quality.Some? then ["-q:a", IntToString(t.quality.value)] else [];
      var downmix := if t.downmix then ["-ac", "2", "-clev", "3dB", "-slev", "-3dB"] else [];
      var sampleRate := if t.sampleRate.Some? then ["-ar", IntToString(t.sampleRate.value)] else [];
      FourParts(mapping, quality, downmix, sampleRate);
      mapping + quality + downmix + sampleRate
  }

  /** The four pieces of a concatenation can be read back by slicing. */
  lemma FourParts<T>(a: seq<T>, b: seq<T>, c: seq<T>, d: seq<T>)
    ensures var r := a + b + c + d;
      && |r| == |a| + |b| + |c| + |d|
      && r[..|a|] == a
      && r[|a|..|a| + |b|] == b
      && r[|a| + |b|..|a| + |b| + |c|] == c
      && r[|r| - |d|..] == d
  {
  }

  /** A selected subtitle track below the number of decisions is a valid index (Java arrays reject negative ones). */
  predicate SubtitleTrackIndexable(v: Profile)
  {
    v.subtitleTranscodes.Some? && v.subtitleTrack.Some? && v.subtitleTrack.value < |v.subtitleTranscodes.value| ==>
      0 <= v.subtitleTrack.value
  }

  /** The decision for the selected subtitle track, when there is one. */
  function SelectedSubtitle(v: Profile): Option<SubtitleTranscode>
    requires SubtitleTrackIndexable(v)
  {
    if v.subtitleTranscodes.Some? && v.subtitleTrack.Some? && v.subtitleTrack.value < |v.subtitleTranscodes.value| then
      Some(v.subtitleTranscodes.value[v.subtitleTrack.value])
    else None
  }

  /** getSubtitleCommands: drop subtitles without a selected track; overlay a burned-in track; otherwise nothing. */
  function SubtitleCommands(v: Profile): (r: Command)
    requires SubtitleTrackIndexable(v)
    ensures SelectedSubtitle(v).None? ==> r == ["-map", "0:v", "-sn"]
    ensures SelectedSubtitle(v).Some? && SelectedSubtitle(v).value.hardcoded ==>
      r == ["-filter_complex", "[0:v][0:s:" + IntToString(v.subtitleTrack.value) + "]overlay[v]", "-map", "[v]"]
    ensures SelectedSubtitle(v).Some? && !SelectedSubtitle(v).value.hardcoded ==> r == []
  {
    match SelectedSubtitle(v)
    case None => ["-map", "0:v", "-sn"]
    case Some(t) =>
      if t.hardcoded then ["-filter_complex", "[0:v][0:s:" + IntToString(v.subtitleTrack.value) + "]overlay[v]", "-map", "[v]"]
      else []
  }

  /** Arguments of the HLS segmenter between the fixed head and the segment list. */
  function HlsStartOptions(settings: Settings, offset: int): Command
    requires ValidSettings(settings)
  {
    if offset > 0 then
      ["-segment_start_number", IntToString(offset / settings.hlsSegmentDuration), "-initial_offset", IntToString(offset)]
    else []
  }

  /** getFormatCommands: the muxer arguments for the profile's format (nothing without one). */
  function FormatCommands(settings: Settings, v: Profile): (r: Command)
    requires ValidSettings(settings)
    ensures v.format.None? ==> r == []
    ensures v.format == Some("hls") ==>
      && |r| == (if v.offset > 0 then 15 else 11)
      && r[..6] == ["-f", "segment", "-segment_time", IntToString(settings.hlsSegmentDuration), "-segment_format",
                    if v.videoTranscode.None? then "mpegts" else "matroska"]
      && (v.offset > 0 ==> r[6..10] == ["-segment_start_number", IntToString(v.offset / settings.hlsSegmentDuration),
                                        "-initial_offset", IntToString(v.offset)])
      && r[|r| - 5..] == ["-segment_list", StreamDirectory(settings.cacheDirectory, v.id) + "/segments.txt",
                          "-segment_list_type", "flat", StreamDirectory(settings.cacheDirectory, v.id) + "/%d"]
    ensures v.format == Some("dash") ==>
      && |r| == (if v.videoTranscode.Some? then 5 else 3)
      && r[|r| - 3..] == ["-f", "dash", StreamDirectory(settings.dataDirectory, v.id) + "/playlist.mpd"]
      && (v.videoTranscode.Some? ==> r[..2] == ["-flags", "-global_header"])
    ensures v.format.Some? && v.format.value != "hls" && v.format.value != "dash" ==> r == ["-f", v.format.value, "-"]
  {
    match v.format
    case None => []
    case Some("hls") =>
      var directory := StreamDirectory(settings.cacheDirectory, v.id);
      ["-f", "segment", "-segment_time", IntToString(settings.hlsSegmentDuration), "-segment_format",
       if v.videoTranscode.None? then "mpegts" else "matroska"]
      + HlsStartOptions(settings, v.offset)
      + ["-segment_list", directory + "/segments.txt", "-segment_list_type", "flat", directory + "/%d"]
    case Some("dash") =>
      (if v.videoTranscode.Some? then ["-flags", "-global_header"] else [])
      + ["-f", "dash", StreamDirectory(settings.dataDirectory, v.id) + "/playlist.mpd"]
    case Some(format) => ["-f", format, "-"]
  }

  // ----- Full transcode command -----

  /** The profile converts video rather than copying it. */
  predicate ConvertsVideo(v: Profile)
  {
    v.videoTranscode.Some? && v.videoTranscode.value.codec != "copy"
  }

  /** The accelerator candidate `i` uses: only for converted video, and only below the number of accelerators. */
  function Accelerator(tr: Transcoder, v: Profile, i: int): Option<HardwareAccelerator>
  {
    if ConvertsVideo(v) && 0 <= i < |tr.hardwareAccelerators| then Some(tr.hardwareAccelerators[i]) else None
  }

  /** One "-map 0:s:k -c:s copy" group per subtitle decision. */
  function SubtitleMaps(n: nat): (r: Command)
    ensures |r| == 4 * n
    ensures forall k :: 0 <= k < n ==> r[4 * k..4 * k + 4] == ["-map", "0:s:" + IntToString(k), "-c:s", "copy"]
  {
    if n == 0 then []
    else
      var prev := SubtitleMaps(n - 1);
      assert forall k :: 0 <= k < n - 1 ==> (prev + ["-map", "0:s:" + IntToString(n - 1), "-c:s", "copy"])[4 * k..4 * k + 4] == prev[4 * k..4 * k + 4];
      prev + ["-map", "0:s:" + IntToString(n - 1), "-c:s", "copy"]
  }

  /** The audio arguments of the first |ts| decisions, stream by stream. */
  function AudioMaps(ts: seq<AudioTranscode>): Command
    decreases |ts|
  {
    if ts == [] then [] else AudioMaps(ts[..|ts| - 1]) + AudioCommands(|ts| - 1, ts[|ts| - 1])
  }

  /** A stream that cannot be encoded contributes no arguments. */
  lemma {:induction false} AudioMapsSkipsUncoded(ts: seq<AudioTranscode>)
    requires forall k :: 0 <= k < |ts| ==> ts[k].codec.None?
    ensures AudioMaps(ts) == []
    decreases |ts|
  {
    if ts != [] {
      AudioMapsSkipsUncoded(ts[..|ts| - 1]);
    }
  }

  /** Every input a full command reads: the element for its input path, and valid settings. */
  predicate CommandReady(settings: Settings, v: Profile)
  {
    ValidSettings(settings) && (v.videoTranscode.Some? || v.audioTranscodes.Some? ==> v.element.Some?)
  }

  /** The video part of a candidate: decode hints, input, subtitle maps, the video map and the encoder. */
  function VideoSection(tr: Transcoder, v: Profile, i: int): Command
    requires v.videoTranscode.Some? ==> v.element.Some?
  {
    if v.videoTranscode.None? then []
    else
      var acc := Accelerator(tr, v, i);
      (if acc.Some? then HardwareDecoding(acc.value) else [])
      + ["-i", v.element.value.path]
      + SubtitleMaps(if v.subtitleTranscodes.Some? then |v.subtitleTranscodes.value| else 0)
      + ["-map", "0:v"]
      + (if acc.None? then SoftwareEncoding(v.videoTranscode.value.codec, v.videoTranscode.value.resolution)
         else HardwareEncoding(v.videoTranscode.value.resolution, acc.value))
  }

  /** The audio part: the input when no video section opened it, then every stream's arguments. */
  function AudioSection(v: Profile): Command
    requires v.audioTranscodes.Some? ==> v.element.Some?
  {
    if v.audioTranscodes.None? then []
    else
      (if v.videoTranscode.None? then ["-i", v.element.value.path] else [])
      + ["-strict", "experimental"]
      + AudioMaps(v.audioTranscodes.value)
  }

  /** Candidate command `i` of getTranscodeCommand. */
  function TranscodeVariant(tr: Transcoder, settings: Settings, v: Profile, i: int): Command
    requires CommandReady(settings, v)
  {
    [tr.path, "-ss", IntToString(v.offset)] + VideoSection(tr, v, i) + AudioSection(v) + FormatCommands(settings, v)
  }

  /**
   * Every candidate starts with the transcoder, the seek and the offset, and
   * ends with the format arguments; with nothing to transcode that is all.
   */
  lemma CandidateFraming(tr: Transcoder, settings: Settings, v: Profile, i: nat)
    requires CommandReady(settings, v) && i < CandidateCount(tr, v)
    ensures var r := TranscodeCommand(tr, settings, v)[i];
      && |r| >= 3 + |FormatCommands(settings, v)|
      && r[..3] == [tr.path, "-ss", IntToString(v.offset)]
      && r[|r| - |FormatCommands(settings, v)|..] == FormatCommands(settings, v)
      && (v.videoTranscode.None? && v.audioTranscodes.None? ==> r == [tr.path, "-ss", IntToString(v.offset)] + FormatCommands(settings, v))
  {
    var head := [tr.path, "-ss", IntToString(v.offset)];
    var middle := VideoSection(tr, v, i) + AudioSection(v);
    var format := FormatCommands(settings, v);
    CandidateSplit(tr, settings, v, i);
    ConcatParts(head, middle, format);
    if v.videoTranscode.None? && v.audioTranscodes.None? {
      assert middle == [];
    }
  }

  /** Candidate `i` is the head, the video and audio sections, and the format arguments. */
  lemma CandidateSplit(tr: Transcoder, settings: Settings, v: Profile, i: nat)
    requires CommandReady(settings, v) && i < CandidateCount(tr, v)
    ensures TranscodeCommand(tr, settings, v)[i] ==
      [tr.path, "-ss", IntToString(v.offset)] + (VideoSection(tr, v, i) + AudioSection(v)) + FormatCommands(settings, v)
  {
    var head := [tr.path, "-ss", IntToString(v.offset)];
    assert TranscodeCommand(tr, settings, v)[i] == TranscodeVariant(tr, settings, v, i);
    Regroup(head, [], VideoSection(tr, v, i), AudioSection(v), FormatCommands(settings, v));
  }

  /** Moving the boundary between the middle pieces of a concatenation. */
  lemma Regroup<T>(h: seq<T>, o: seq<T>, t: seq<T>, a: seq<T>, f: seq<T>)
    ensures h + ((o + t) + a) + f == h + o + (t + a + f)
    ensures h + (o + (t + a)) + f == h + o + t + a + f
    ensures h + t + a + f == h + (t + a) + f
  {
  }

  /** The three pieces of a concatenation can be read back by slicing. */
  lemma ConcatParts<T>(a: seq<T>, b: seq<T>, c: seq<T>)
    ensures |a + b + c| == |a| + |b| + |c|
    ensures (a + b + c)[..|a|] == a
    ensures (a + b + c)[|a|..|a| + |b|] == b
    ensures (a + b + c)[|a| + |b|..] == c
  {
  }

  /** The number of candidates: one per accelerator when video is converted, plus the software one. */
  function CandidateCount(tr: Transcoder, v: Profile): (r: nat)
    ensures r >= 1
    ensures ConvertsVideo(v) ==> r == |tr.hardwareAccelerators| + 1
    ensures !ConvertsVideo(v) ==> r == 1
  {
    1 + if ConvertsVideo(v) then |tr.hardwareAccelerators| else 0
  }

  /** The list of the first `n` values of `f`. */
  function Tabulate<T>(f: nat --> T, n: nat): (r: seq<T>)
    requires forall k: nat :: k < n ==> f.requires(k)
    ensures |r| == n
    ensures forall k :: 0 <= k < n ==> r[k] == f(k)
  {
    if n == 0 then [] else Tabulate(f, n - 1) + [f(n - 1)]
  }

  /** Candidate `k` of getTranscodeCommand, as a function of `k`. */
  function Variants(tr: Transcoder, settings: Settings, v: Profile): nat --> Command
  {
    k requires CommandReady(settings, v) => TranscodeVariant(tr, settings, v, k)
  }

  /** getTranscodeCommand: the candidates in preference order. */
  function TranscodeCommand(tr: Transcoder, settings: Settings, v: Profile): (r: seq<Command>)
    requires CommandReady(settings, v)
    ensures |r| == CandidateCount(tr, v)
    ensures forall i :: 0 <= i < |r| ==> r[i] == TranscodeVariant(tr, settings, v, i)
  {
    Tabulate(Variants(tr, settings, v), CandidateCount(tr, v))
  }

  /** A candidate depends on the transcoder only through its own accelerator. */
  lemma HardwareCandidateUsesOwnAccelerator(tr: Transcoder, settings: Settings, v: Profile, i: nat)
    requires CommandReady(settings, v) && ConvertsVideo(v) && i < |tr.hardwareAccelerators|
    ensures TranscodeCommand(tr, settings, v)[i] ==
            TranscodeVariant(Transcoder(tr.path, [tr.hardwareAccelerators[i]]), settings, v, 0)
  {
  }

  /** The last candidate is the software one: it is what a transcoder without accelerators produces. */
  lemma LastCandidateIsSoftware(tr: Transcoder, settings: Settings, v: Profile)
    requires CommandReady(settings, v)
    ensures var cmds := TranscodeCommand(tr, settings, v);
            cmds[|cmds| - 1] == TranscodeCommand(Transcoder(tr.path, []), settings, v)[0]
  {
  }

  /** A hardware candidate opens with the accelerator's decode hints, right before the input. */
  lemma DecodeHintsPrecedeInput(tr: Transcoder, settings: Settings, v: Profile, i: nat)
    requires CommandReady(settings, v) && ConvertsVideo(v) && i < |tr.hardwareAccelerators|
    ensures var cmd := TranscodeCommand(tr, settings, v)[i];
            var hints := HardwareDecoding(tr.hardwareAccelerators[i]);
            |cmd| >= 3 + |hints| + 2 && cmd[3..3 + |hints| + 2] == hints + ["-i", v.element.value.path]
  {
    var hints := HardwareDecoding(tr.hardwareAccelerators[i]);
    var head := [tr.path, "-ss", IntToString(v.offset)];
    var opening := hints + ["-i", v.element.value.path];
    var tail := SubtitleMaps(if v.subtitleTranscodes.Some? then |v.subtitleTranscodes.value| else 0) + ["-map", "0:v"]
      + HardwareEncoding(v.videoTranscode.value.resolution, tr.hardwareAccelerators[i]);
    HardwareVideoSection(tr, v, i);
    var rest := tail + AudioSection(v) + FormatCommands(settings, v);
    CandidateSplit(tr, settings, v, i);
    Regroup(head, opening, tail, AudioSection(v), FormatCommands(settings, v));
    ConcatParts(head, opening, rest);
  }

  /** The video part of hardware candidate `i`: decode hints and input, then the maps and the accelerator's encoder. */
  lemma HardwareVideoSection(tr: Transcoder, v: Profile, i: nat)
    requires v.element.Some? && ConvertsVideo(v) && i < |tr.hardwareAccelerators|
    ensures VideoSection(tr, v, i) ==
      HardwareDecoding(tr.hardwareAccelerators[i]) + ["-i", v.element.value.path]
      + (SubtitleMaps(if v.subtitleTranscodes.Some? then |v.subtitleTranscodes.value| else 0) + ["-map", "0:v"]
         + HardwareEncoding(v.videoTranscode.value.resolution, tr.hardwareAccelerators[i]))
  {
  }

  /** Copied video needs no accelerator: a single candidate that maps the video without an encoder. */
  lemma CopiedVideoSingleCandidate(tr: Transcoder, settings: Settings, v: Profile)
    requires CommandReady(settings, v) && v.videoTranscode.Some? && v.videoTranscode.value.codec == "copy"
    requires v.videoTranscode.value.resolution.None?
    ensures |TranscodeCommand(tr, settings, v)| == 1
    ensures VideoSection(tr, v, 0)[|VideoSection(tr, v, 0)| - 4..] == ["-map", "0:v", "-c:v", "copy"]
  {
  }

  // ----- Segment transcode command -----

  /** Inputs a segment command reads beyond its arguments: an in-range subtitle index, a video element and, for Chromecast audio, an encodable decision with a known container. */
  predicate SegmentReady(cat: Catalog, v: Profile, kind: string, extra: int)
  {
    && (kind == "video" ==>
          && (v.quality != Some(extra) ==> v.element.Some?)
          && (v.quality == Some(extra) && v.subtitleTranscodes.Some? && v.subtitleTrack.Some? ==>
                0 <= v.subtitleTrack.value < |v.subtitleTranscodes.value|)
          && (v.videoTranscode.Some? ==> SubtitleTrackIndexable(v)))
    && (kind == "audio" && v.client == "chromecast" ==>
          && v.audioTranscodes.Some? && 0 <= extra < |v.audioTranscodes.value|
          && v.audioTranscodes.value[extra].codec.Some?
          && cat.formatForAudioCodec(v.audioTranscodes.value[extra].codec.value).Some?)
  }

  /** A video segment is re-encoded when asked for another quality, or when the selected subtitle is burned in. */
  predicate SegmentVideoRequired(v: Profile, extra: int)
    requires v.quality == Some(extra) && v.subtitleTranscodes.Some? && v.subtitleTrack.Some? ==>
               0 <= v.subtitleTrack.value < |v.subtitleTranscodes.value|
  {
    || v.quality != Some(extra)
    || (v.subtitleTranscodes.Some? && v.subtitleTrack.Some? && v.subtitleTranscodes.value[v.subtitleTrack.value].hardcoded)
  }

  function SegmentInput(settings: Settings, v: Profile, segment: string): string
  {
    StreamDirectory(settings.cacheDirectory, v.id) + "/" + segment
  }

  function SegmentOutput(settings: Settings, v: Profile, segment: string, kind: string, extra: int): string
  {
    SegmentInput(settings, v, segment) + "-" + kind + "-" + IntToString(extra)
  }

  /** The body of a video segment candidate. */
  function VideoSegmentBody(cat: Catalog, tr: Transcoder, settings: Settings, segment: string, v: Profile, extra: int, i: int): Command
    requires SegmentReady(cat, v, "video", extra)
  {
    var required := SegmentVideoRequired(v, extra);
    var resolution := if v.quality != Some(extra) then cat.videoResolution(v.element.value, extra) else None;
    var acc := if 0 <= i < |tr.hardwareAccelerators| then Some(tr.hardwareAccelerators[i]) else None;
    (if acc.Some? && required then HardwareDecoding(acc.value) else [])
    + ["-i", SegmentInput(settings, v, segment)]
    + (if v.videoTranscode.None? then []
       else
         SubtitleCommands(v)
         + (if !required then ["-c:v", "copy"]
            else if acc.Some? then HardwareEncoding(resolution, acc.value)
            else SoftwareEncoding("h264", resolution))
         + ["-f", "mpegts"])
  }

  /** The body of an audio segment command: copy the requested stream, in Chromecast's container or MPEG-TS. */
  function AudioSegmentBody(cat: Catalog, settings: Settings, segment: string, v: Profile, extra: int): Command
    requires SegmentReady(cat, v, "audio", extra)
  {
    ["-i", SegmentInput(settings, v, segment)]
    + (if v.audioTranscodes.Some? && |v.audioTranscodes.value| > extra then ["-map", "0:a:" + IntToString(extra), "-c:a", "copy"] else [])
    + ["-f", if v.client == "chromecast" then cat.formatForAudioCodec(v.audioTranscodes.value[extra].codec.value).value else "mpegts"]
  }

  /** The body of a subtitle segment command: the requested stream as WebVTT. */
  function SubtitleSegmentBody(settings: Settings, segment: string, v: Profile, extra: int): Command
  {
    ["-i", SegmentInput(settings, v, segment)]
    + (if v.subtitleTranscodes.Some? && |v.subtitleTranscodes.value| > extra then ["-map", "0:s:" + IntToString(extra), "-c:s", "webvtt"] else [])
    + ["-f", "webvtt"]
  }

  /** The arguments between the transcoder path and the output for one kind of segment. */
  function SegmentBody(cat: Catalog, tr: Transcoder, settings: Settings, segment: string, v: Profile, kind: string, extra: int, i: int): Command
    requires SegmentReady(cat, v, kind, extra)
  {
    match kind
    case "video" => VideoSegmentBody(cat, tr, settings, segment, v, extra, i)
    case "audio" => AudioSegmentBody(cat, settings, segment, v, extra)
    case "subtitle" => SubtitleSegmentBody(settings, segment, v, extra)
    case _ => []
  }

  /** Candidate `i` of getSegmentTranscodeCommand; an unknown segment kind gets no body. */
  function SegmentVariant(cat: Catalog, tr: Transcoder, settings: Settings, segment: string, v: Profile, kind: string, extra: int, i: int): Command
    requires SegmentReady(cat, v, kind, extra)
  {
    [tr.path] + SegmentBody(cat, tr, settings, segment, v, kind, extra, i) + ["-copyts", SegmentOutput(settings, v, segment, kind, extra)]
  }

  /** Every segment candidate runs the transcoder and ends by keeping timestamps and naming the output. */
  lemma SegmentFraming(cat: Catalog, tr: Transcoder, settings: Settings, segment: string, v: Profile, kind: string, extra: int, i: int)
    requires SegmentReady(cat, v, kind, extra)
    ensures var r := SegmentVariant(cat, tr, settings, segment, v, kind, extra, i);
      && |r| >= 3 && r[0] == tr.path
      && r[|r| - 2..] == ["-copyts", SegmentOutput(settings, v, segment, kind, extra)]
      && (kind != "video" && kind != "audio" && kind != "subtitle" ==>
            r == [tr.path, "-copyts", SegmentOutput(settings, v, segment, kind, extra)])
  {
  }

  /** The number of segment candidates: one per accelerator for video segments, plus the software one. */
  function SegmentCandidateCount(tr: Transcoder, kind: string): (r: nat)
    ensures r >= 1
    ensures kind == "video" ==> r == |tr.hardwareAccelerators| + 1
    ensures kind != "video" ==> r == 1
  {
    1 + if kind == "video" then |tr.hardwareAccelerators| else 0
  }

  /** Candidate `k` of getSegmentTranscodeCommand, as a function of `k`. */
  function SegmentVariants(cat: Catalog, tr: Transcoder, settings: Settings, segment: string, v: Profile, kind: string, extra: int)
    : nat --> Command
  {
    k requires SegmentReady(cat, v, kind, extra) => SegmentVariant(cat, tr, settings, segment, v, kind, extra, k)
  }

  /** getSegmentTranscodeCommand: none when an argument is missing, otherwise the candidates. */
  function SegmentTranscodeCommand(cat: Catalog, tr: Transcoder, settings: Settings, segment: Option<string>, v: Option<Profile>,
                                   kind: Option<string>, extra: Option<int>): (r: Option<seq<Command>>)
    requires segment.Some? && v.Some? && kind.Some? && extra.Some? ==> SegmentReady(cat, v.value, kind.value, extra.value)
    ensures r.None? <==> segment.None? || v.None? || kind.None? || extra.None?
    ensures r.Some? ==> |r.value| == SegmentCandidateCount(tr, kind.value)
    ensures r.Some? ==> forall i :: 0 <= i < |r.value| ==>
      r.value[i] == SegmentVariant(cat, tr, settings, segment.value, v.value, kind.value, extra.value, i)
  {
    if segment.None? || v.None? || kind.None? || extra.None? then None
    else
      Some(Tabulate(SegmentVariants(cat, tr, settings, segment.value, v.value, kind.value, extra.value), SegmentCandidateCount(tr, kind.value)))
  }

  /**
   * A video segment at the profile's own quality without a burned-in subtitle is
   * copied: every candidate is the same command, with no decode hints and "-c:v copy".
   */
  lemma SegmentAtOwnQualityIsCopied(cat: Catalog, tr: Transcoder, settings: Settings, segment: string, v: Profile, extra: int)
    requires SegmentReady(cat, v, "video", extra) && !SegmentVideoRequired(v, extra) && v.videoTranscode.Some?
    ensures var r := SegmentTranscodeCommand(cat, tr, settings, Some(segment), Some(v), Some("video"), Some(extra));
      && r.Some?
      && (forall i :: 0 <= i < |r.value| ==> r.value[i] == r.value[0])
      && r.value[0] == [tr.path] + ["-i", SegmentInput(settings, v, segment)] + SubtitleCommands(v)
                       + ["-c:v", "copy", "-f", "mpegts"] + ["-copyts", SegmentOutput(settings, v, segment, "video", extra)]
  {
    var head, input, subtitles := [tr.path], ["-i", SegmentInput(settings, v, segment)], SubtitleCommands(v);
    var copy, tail := ["-c:v", "copy", "-f", "mpegts"], ["-copyts", SegmentOutput(settings, v, segment, "video", extra)];
    var r := SegmentTranscodeCommand(cat, tr, settings, Some(segment), Some(v), Some("video"), Some(extra));
    forall i | 0 <= i < |r.value| ensures r.value[i] == head + input + subtitles + copy + tail {
      assert VideoSegmentBody(cat, tr, settings, segment, v, extra, i) == input + (subtitles + ["-c:v", "copy"] + ["-f", "mpegts"]);
      assert subtitles + ["-c:v", "copy"] + ["-f", "mpegts"] == subtitles + copy;
      Regroup(head, input, subtitles, copy, tail);
    }
  }

  /** The resolution a re-encoded video segment is scaled to: the requested tier's, unless it is the profile's own. */
  function SegmentResolution(cat: Catalog, v: Profile, extra: int): Option<Dimension>
    requires v.quality != Some(extra) ==> v.element.Some?
  {
    if v.quality != Some(extra) then cat.videoResolution(v.element.value, extra) else None
  }

  /**
   * A video segment that must be re-encoded: candidate i below the number of
   * accelerators decodes and encodes on accelerator i, and the last candidate
   * encodes H.264 in software with no decode hints.
   */
  lemma SegmentReencodedCandidates(cat: Catalog, tr: Transcoder, settings: Settings, segment: string, v: Profile, extra: int)
    requires SegmentReady(cat, v, "video", extra) && SegmentVideoRequired(v, extra) && v.videoTranscode.Some?
    ensures var r := SegmentTranscodeCommand(cat, tr, settings, Some(segment), Some(v), Some("video"), Some(extra));
      var acc := tr.hardwareAccelerators;
      var input, output := SegmentInput(settings, v, segment), SegmentOutput(settings, v, segment, "video", extra);
      var resolution := SegmentResolution(cat, v, extra);
      && r.Some? && |r.value| == |acc| + 1
      && (forall i :: 0 <= i < |acc| ==>
            r.value[i] == [tr.path] + HardwareDecoding(acc[i]) + ["-i", input] + SubtitleCommands(v)
                          + HardwareEncoding(resolution, acc[i]) + ["-f", "mpegts", "-copyts", output])
      && r.value[|acc|] == [tr.path] + ["-i", input] + SubtitleCommands(v)
                           + SoftwareEncoding("h264", resolution) + ["-f", "mpegts", "-copyts", output]
  {
    var acc := tr.hardwareAccelerators;
    var r := SegmentTranscodeCommand(cat, tr, settings, Some(segment), Some(v), Some("video"), Some(extra));
    forall i | 0 <= i < |acc|
      ensures r.value[i] == [tr.path] + HardwareDecoding(acc[i]) + ["-i", SegmentInput(settings, v, segment)] + SubtitleCommands(v)
                            + HardwareEncoding(SegmentResolution(cat, v, extra), acc[i])
                            + ["-f", "mpegts", "-copyts", SegmentOutput(settings, v, segment, "video", extra)]
    {
      ReencodedSegmentVariant(cat, tr, settings, segment, v, extra, i,
                              HardwareDecoding(acc[i]), HardwareEncoding(SegmentResolution(cat, v, extra), acc[i]));
    }
    ReencodedSegmentVariant(cat, tr, settings, segment, v, extra, |acc|, [], SoftwareEncoding("h264", SegmentResolution(cat, v, extra)));
    assert [tr.path] + [] == [tr.path];
  }

  /** Candidate `i` of a re-encoded video segment, given the decode hints and encoder arguments it uses. */
  lemma ReencodedSegmentVariant(cat: Catalog, tr: Transcoder, settings: Settings, segment: string, v: Profile, extra: int, i: int,
                                decode: Command, encode: Command)
    requires SegmentReady(cat, v, "video", extra) && SegmentVideoRequired(v, extra) && v.videoTranscode.Some?
    requires decode == if 0 <= i < |tr.hardwareAccelerators| then HardwareDecoding(tr.hardwareAccelerators[i]) else []
    requires encode == if 0 <= i < |tr.hardwareAccelerators| then HardwareEncoding(SegmentResolution(cat, v, extra), tr.hardwareAccelerators[i])
                       else SoftwareEncoding("h264", SegmentResolution(cat, v, extra))
    ensures SegmentVariant(cat, tr, settings, segment, v, "video", extra, i) ==
      [tr.path] + decode + ["-i", SegmentInput(settings, v, segment)] + SubtitleCommands(v) + encode
      + ["-f", "mpegts", "-copyts", SegmentOutput(settings, v, segment, "video", extra)]
  {
    var input, subtitles := ["-i", SegmentInput(settings, v, segment)], SubtitleCommands(v);
    var format, tail := ["-f", "mpegts"], ["-copyts", SegmentOutput(settings, v, segment, "video", extra)];
    var body := VideoSegmentBody(cat, tr, settings, segment, v, extra, i);
    assert body == decode + input + (subtitles + encode + format);
    assert SegmentBody(cat, tr, settings, segment, v, "video", extra, i) == body;
    calc {
      SegmentVariant(cat, tr, settings, segment, v, "video", extra, i);
      [tr.path] + body + tail;
      { RegroupSegment([tr.path], decode, input, subtitles, encode, format, tail); }
      [tr.path] + decode + input + subtitles + encode + (format + tail);
    }
    assert format + tail == ["-f", "mpegts", "-copyts", SegmentOutput(settings, v, segment, "video", extra)];
  }

  lemma RegroupSegment<T>(h: seq<T>, a: seq<T>, b: seq<T>, c: seq<T>, d: seq<T>, e: seq<T>, t: seq<T>)
    ensures h + (a + b + (c + d + e)) + t == h + a + b + c + d + (e + t)
  {
  }

  /** Audio and subtitle segments are never hardware-accelerated: exactly one command. */
  lemma NonVideoSegmentSingleCandidate(cat: Catalog, tr: Transcoder, settings: Settings, segment: string, v: Profile, kind: string, extra: int)
    requires kind != "video" && SegmentReady(cat, v, kind, extra)
    ensures |SegmentTranscodeCommand(cat, tr, settings, Some(segment), Some(v), Some(kind), Some(extra)).value| == 1
  {
  }
}
