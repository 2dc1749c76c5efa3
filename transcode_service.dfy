/**
 * The TranscodeService object: the transcoder it found, the settings and
 * catalog it reads, and the registry of live transcode profiles. Command
 * building loops are proved to produce exactly the candidates the Commands
 * functions describe.
 */
module Service {
  import opened Wrappers
  import opened Text
  import opened Media
  import opened Commands

  /** The position of the first registered profile with this id, or -1. */
  function FirstMatch(profiles: seq<TranscodeProfile>, id: Uuid): (r: int)
    reads profiles
    ensures -1 <= r < |profiles|
    ensures r == -1 <==> forall k :: 0 <= k < |profiles| ==> profiles[k].id != Some(id)
    ensures r >= 0 ==> profiles[r].id == Some(id) && forall k :: 0 <= k < r ==> profiles[k].id != Some(id)
  {
    if profiles == [] then -1
    else if profiles[0].id == Some(id) then 0
    else
      var r := FirstMatch(profiles[1..], id);
      assert forall k :: 1 <= k < |profiles| ==> profiles[k] == profiles[1..][k - 1];
      if r == -1 then -1 else r + 1
  }

  /** Registering a profile never hides an earlier one with the same id. */
  lemma {:induction false} FirstMatchAppend(profiles: seq<TranscodeProfile>, p: TranscodeProfile, id: Uuid)
    ensures FirstMatch(profiles + [p], id) ==
      if FirstMatch(profiles, id) >= 0 then FirstMatch(profiles, id)
      else if p.id == Some(id) then |profiles| else -1
  {
    if profiles != [] {
      assert (profiles + [p])[1..] == profiles[1..] + [p];
      FirstMatchAppend(profiles[1..], p, id);
    }
  }

  /** The registry without position `i`. */
  function Without(profiles: seq<TranscodeProfile>, i: int): (r: seq<TranscodeProfile>)
    requires 0 <= i < |profiles|
    ensures |r| == |profiles| - 1
    ensures forall k :: 0 <= k < i ==> r[k] == profiles[k]
    ensures forall k :: i <= k < |r| ==> r[k] == profiles[k + 1]
  {
    profiles[..i] + profiles[i + 1..]
  }

  /** Ids registered at most once are forgotten by one removal. */
  lemma RemovalForgetsUniqueId(profiles: seq<TranscodeProfile>, id: Uuid)
    requires forall j, k :: 0 <= j < k < |profiles| && profiles[j].id == Some(id) ==> profiles[k].id != Some(id)
    requires FirstMatch(profiles, id) >= 0
    ensures FirstMatch(Without(profiles, FirstMatch(profiles, id)), id) == -1
  {
    var i := FirstMatch(profiles, id);
    var r := Without(profiles, i);
    forall k | 0 <= k < |r| ensures r[k].id != Some(id) {
      if k >= i {
        assert r[k] == profiles[k + 1];
      }
    }
  }

  /** The registry scan shared by getTranscodeProfile and removeTranscodeProfile: skips null ids, stops at the first match. */
  method FindProfile(profiles: seq<TranscodeProfile>, id: Uuid) returns (index: int)
    ensures index == FirstMatch(profiles, id)
  {
    index := 0;
    while index < |profiles|
      invariant 0 <= index <= |profiles|
      invariant forall k :: 0 <= k < index ==> profiles[k].id != Some(id)
    {
      var profile := profiles[index];
      if profile.id.Some? {
        if profile.id.value == id {
          return;
        }
      }
      index := index + 1;
    }
    index := -1;
  }

  class TranscodeService {
    const transcoder: Transcoder
    const settings: Settings
    const catalog: Catalog
    var transcodeProfiles: seq<TranscodeProfile>
    /** The ids whose streaming process the service has asked to end, in order. */
    ghost var endedProcesses: seq<Uuid>

    constructor (transcoder: Transcoder, settings: Settings, catalog: Catalog)
      ensures this.transcoder == transcoder && this.settings == settings && this.catalog == catalog
      ensures transcodeProfiles == [] && endedProcesses == []
    {
      this.transcoder := transcoder;
      this.settings := settings;
      this.catalog := catalog;
      transcodeProfiles := [];
      endedProcesses := [];
    }

    /** getTranscodeCommand: one candidate per accelerator for converted video, then the software candidate. */
    method TranscodeCommand(p: TranscodeProfile) returns (commands: seq<Command>)
      requires CommandReady(settings, p.View())
      ensures commands == Commands.TranscodeCommand(transcoder, settings, p.View())
    {
      var count := 1;
      if p.videoTranscode.Some? && p.videoTranscode.value.codec != "copy" {
        count := count + |transcoder.hardwareAccelerators|;
      }
      ghost var v := p.View();
      ghost var variant := Variants(transcoder, settings, v);
      commands := [];
      var i := 0;
      while i < count
        invariant 0 <= i <= count == CandidateCount(transcoder, v)
        invariant commands == Tabulate(variant, i)
      {
        var command := BuildCandidate(p, i);
        assert command == variant(i);
        commands := commands + [command];
        i := i + 1;
      }
    }

    /** The body of getTranscodeCommand's loop for candidate `i`. */
    method BuildCandidate(p: TranscodeProfile, i: nat) returns (command: Command)
      requires CommandReady(settings, p.View())
      ensures command == TranscodeVariant(transcoder, settings, p.View(), i)
    {
      var head := [transcoder.path, "-ss", IntToString(p.offset)];
      var video: Command := [];
      var initialised := false;
      if p.videoTranscode.Some? {
        video := BuildVideoSection(p, i);
        initialised := true;
      }
      var audio: Command := [];
      if p.audioTranscodes.Some? {
        if !initialised {
          audio := ["-i", p.element.value.path];
        }
        audio := audio + ["-strict", "experimental"];
        var maps := BuildAudioMaps(p.audioTranscodes.value);
        audio := audio + maps;
      }
      command := head + video + audio + FormatCommands(settings, p.View());
    }

    /** The audio loop of getTranscodeCommand: each stream's arguments in stream order. */
    method BuildAudioMaps(transcodes: seq<AudioTranscode>) returns (maps: Command)
      ensures maps == AudioMaps(transcodes)
    {
      maps := [];
      var a := 0;
      while a < |transcodes|
        invariant 0 <= a <= |transcodes|
        invariant maps == AudioMaps(transcodes[..a])
      {
        assert transcodes[..a + 1][..a] == transcodes[..a];
        maps := maps + AudioCommands(a, transcodes[a]);
        a := a + 1;
      }
      assert transcodes[..a] == transcodes;
    }

    /** The video part of a candidate: decode hints, input, one map per subtitle, the video map, the encoder. */
    method BuildVideoSection(p: TranscodeProfile, i: nat) returns (video: Command)
      requires p.videoTranscode.Some? && p.element.Some?
      ensures video == VideoSection(transcoder, p.View(), i)
    {
      var accelerator: Option<HardwareAccelerator> := None;
      var decode: Command := [];
      if p.videoTranscode.value.codec != "copy" {
        if |transcoder.hardwareAccelerators| > i {
          accelerator := Some(transcoder.hardwareAccelerators[i]);
        }
        if accelerator.Some? {
          decode := HardwareDecoding(accelerator.value);
        }
      }
      var maps: Command := [];
      if p.subtitleTranscodes.Some? {
        var s := 0;
        while s < |p.subtitleTranscodes.value|
          invariant 0 <= s <= |p.subtitleTranscodes.value|
          invariant maps == SubtitleMaps(s)
        {
          maps := maps + ["-map", "0:s:" + IntToString(s), "-c:s", "copy"];
          s := s + 1;
        }
      }
      var encode: Command;
      if accelerator.None? {
        encode := SoftwareEncoding(p.videoTranscode.value.codec, p.videoTranscode.value.resolution);
      } else {
        encode := HardwareEncoding(p.videoTranscode.value.resolution, accelerator.value);
      }
      video := decode + ["-i", p.element.value.path] + maps + ["-map", "0:v"] + encode;
    }

    /** getSegmentTranscodeCommand: none for a missing argument, otherwise the candidates for one cached segment. */
    method SegmentTranscodeCommand(segment: Option<string>, p: TranscodeProfile?, kind: Option<string>, extra: Option<int>)
      returns (commands: Option<seq<Command>>)
      requires segment.Some? && p != null && kind.Some? && extra.Some? ==> SegmentReady(catalog, p.View(), kind.value, extra.value)
      ensures commands == Commands.SegmentTranscodeCommand(catalog, transcoder, settings, segment,
                                                           if p == null then None else Some(p.View()), kind, extra)
    {
      if segment.None? || p == null || kind.None? || extra.None? {
        return None;
      }
      var result := SegmentCandidates(segment.value, p.View(), kind.value, extra.value);
      return Some(result);
    }

    /** getSegmentTranscodeCommand's loop: one candidate per accelerator for video segments, then the software one. */
    method SegmentCandidates(segment: string, v: Profile, kind: string, extra: int) returns (result: seq<Command>)
      requires SegmentReady(catalog, v, kind, extra)
      ensures result == Tabulate(SegmentVariants(catalog, transcoder, settings, segment, v, kind, extra), SegmentCandidateCount(transcoder, kind))
    {
      var count := 1 + if kind == "video" then |transcoder.hardwareAccelerators| else 0;
      ghost var variant := SegmentVariants(catalog, transcoder, settings, segment, v, kind, extra);
      result := [];
      var i := 0;
      while i < count
        invariant 0 <= i <= count == SegmentCandidateCount(transcoder, kind)
        invariant result == Tabulate(variant, i)
      {
        var command := BuildSegmentCandidate(segment, v, kind, extra, i);
        result := result + [command];
        i := i + 1;
      }
    }

    /** The body of getSegmentTranscodeCommand's loop for candidate `i`: the switch on the segment kind. */
    method BuildSegmentCandidate(segment: string, v: Profile, kind: string, extra: int, i: nat) returns (command: Command)
      requires SegmentReady(catalog, v, kind, extra)
      ensures command == SegmentVariant(catalog, transcoder, settings, segment, v, kind, extra, i)
    {
      var input := StreamDirectory(settings.cacheDirectory, v.id) + "/" + segment;
      var body: Command := [];
      if kind == "video" {
        body := BuildVideoSegment(segment, v, extra, i);
      } else if kind == "audio" {
        body := ["-i", input];
        if v.audioTranscodes.Some? && |v.audioTranscodes.value| > extra {
          body := body + ["-map", "0:a:" + IntToString(extra), "-c:a", "copy"];
        }
        if v.client == "chromecast" {
          body := body + ["-f", catalog.formatForAudioCodec(v.audioTranscodes.value[extra].codec.value).value];
        } else {
          body := body + ["-f", "mpegts"];
        }
      } else if kind == "subtitle" {
        body := ["-i", input];
        if v.subtitleTranscodes.Some? && |v.subtitleTranscodes.value| > extra {
          body := body + ["-map", "0:s:" + IntToString(extra), "-c:s", "webvtt"];
        }
        body := body + ["-f", "webvtt"];
      }
      command := [transcoder.path] + body + ["-copyts", input + "-" + kind + "-" + IntToString(extra)];
    }

    /** The "video" case of the segment switch: decode hints, input, then copy or re-encode. */
    method BuildVideoSegment(segment: string, v: Profile, extra: int, i: nat) returns (body: Command)
      requires SegmentReady(catalog, v, "video", extra)
      ensures body == VideoSegmentBody(catalog, transcoder, settings, segment, v, extra, i)
    {
      var required := false;
      var resolution: Option<Dimension> := None;
      if v.quality != Some(extra) {
        resolution := catalog.videoResolution(v.element.value, extra);
        required := true;
      } else if v.subtitleTranscodes.Some? && v.subtitleTrack.Some? {
        if v.subtitleTranscodes.value[v.subtitleTrack.value].hardcoded {
          required := true;
        }
      }
      var accelerator: Option<HardwareAccelerator> := None;
      if |transcoder.hardwareAccelerators| > i {
        accelerator := Some(transcoder.hardwareAccelerators[i]);
      }
      body := [];
      if accelerator.Some? && required {
        body := HardwareDecoding(accelerator.value);
      }
      body := body + ["-i", StreamDirectory(settings.cacheDirectory, v.id) + "/" + segment];
      if v.videoTranscode.Some? {
        var encode: Command;
        if !required {
          encode := ["-c:v", "copy"];
        } else if accelerator.Some? {
          encode := HardwareEncoding(resolution, accelerator.value);
        } else {
          encode := SoftwareEncoding("h264", resolution);
        }
        body := body + (SubtitleCommands(v) + encode + ["-f", "mpegts"]);
      }
    }

    /** addTranscodeProfile. */
    method AddTranscodeProfile(p: TranscodeProfile)
      modifies this
      ensures transcodeProfiles == old(transcodeProfiles) + [p]
      ensures endedProcesses == old(endedProcesses)
    {
      transcodeProfiles := transcodeProfiles + [p];
    }

    /** getTranscodeProfile: the first registered profile with the id, or null. */
    method GetTranscodeProfile(id: Uuid) returns (r: TranscodeProfile?)
      ensures r == null <==> forall k :: 0 <= k < |transcodeProfiles| ==> transcodeProfiles[k].id != Some(id)
      ensures r != null ==> r == transcodeProfiles[FirstMatch(transcodeProfiles, id)] && r.id == Some(id)
    {
      var index := FindProfile(transcodeProfiles, id);
      if index == -1 {
        return null;
      }
      return transcodeProfiles[index];
    }

    /**
     * removeTranscodeProfile: drops the first profile with the id, asking the
     * streaming service to end its process first when it is a transcode.
     */
    method RemoveTranscodeProfile(id: Uuid)
      modifies this
      ensures var i := old(FirstMatch(transcodeProfiles, id));
        && transcodeProfiles == (if i == -1 then old(transcodeProfiles) else Without(old(transcodeProfiles), i))
        && endedProcesses == old(endedProcesses) +
             (if i >= 0 && old(transcodeProfiles[i].streamType) == Transcode then [id] else [])
    {
      var index := FindProfile(transcodeProfiles, id);
      if index >= 0 {
        var profile := transcodeProfiles[index];
        if profile.streamType == Transcode {
          endedProcesses := endedProcesses + [id];
        }
        transcodeProfiles := transcodeProfiles[..index] + transcodeProfiles[index + 1..];
      }
    }
  }
}
