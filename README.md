# sms-server core, modelled in Dafny

This project models the media-negotiation and library-scan core of the sms-server media streaming server.

- **Transcode negotiation.** From a client's profile (codecs, multichannel codecs, format, quality tier, maximum bitrate and sample rate, direct play), the server decides for each stream of a media element whether to copy, re-encode, scale, downmix or hard-code it (`Negotiation`).
- **Command synthesis.** The server turns a negotiated profile into transcoder command lines: one candidate per hardware accelerator plus a software fallback, both for whole streams and for cached adaptive-streaming segments (`Commands`, and the imperative builders in `Service.TranscodeService`).
- **Profile registry.** The transcode service keeps its live transcode profiles in a list it appends to, searches and removes from (`Service.TranscodeService`).
- **Library scan.** The scanner's file visitor counts files, folders and playlists. It splits each directory's elements into new and updated ones by their scan stamp. It derives a directory's media type, year and common artist, album artist, collection and description from its children. It tallies a folder's content type (`Scanner`).
- **File-name helpers.** Extension extraction, the media-file test and the directory test (`MediaFiles`).
- **Session helpers.** The address a request was made to, behind a reverse proxy or not, and the client-profile validity checks (`Session`).

## How the model is organised

- `TranscodeProfile` is a class whose fields the negotiation methods update in place. `View()` packs them into the `Profile` value.
  - Each `Process*` method is proved equal to a pure specification function on `Profile` (`VideoNegotiation`, `AudioNegotiation`/`AudioFold`/`AudioStep`, `SubtitleNegotiation`).
  - The properties are proved about those functions.
- The codec tables and helper functions of the transcode utilities are a `Catalog` value passed in:
  - supported and transcodable codecs, codecs per format, quality tables, resolution comparison, encoder and format per codec, and so on.
  - `ValidCatalog` states the one assumption the proofs need: the lossless sort only permutes a list.
- Command builders are methods with loops. Each is proved to return exactly the list the `Commands` functions describe. Lemmas about those functions state the framing, the candidate count and which accelerator each candidate uses.
- The scanner's `ParseFiles` visitor is a class with its counters and element lists. `Valid()` ties the counters together.
- Java `null` is `Option.None`. Strings are `seq<char>`.

## Model

| member | source | states |
|---|---|---|
| Text.LastIndexOf | src/main/java/com/scooter1556/sms/server/utilities/MediaUtils.java:32 | the position of the last occurrence of the character, -1 exactly when it does not occur; no occurrence follows it |
| Text.IndexOf | src/main/java/com/scooter1556/sms/server/controller/SessionController.java:330 | the first position where the pattern occurs, -1 exactly when it does not occur |
| Text.Lower | src/main/java/com/scooter1556/sms/server/utilities/MediaUtils.java:33 | same length, every upper-case ASCII letter mapped to its lower-case letter and every other character kept |
| Text.EqualsIgnoreCase | src/main/java/com/scooter1556/sms/server/controller/SessionController.java:313-318 | header names are compared as equal strings up to ASCII letter case |
| Text.Trim | src/main/java/com/scooter1556/sms/server/utilities/MediaUtils.java:33 | the slice of the input left after dropping every leading and trailing character up to the space, which no longer starts or ends with such a character |
| Text.NatToString | src/main/java/com/scooter1556/sms/server/service/TranscodeService.java:144 | a non-empty string of decimal digits |
| Text.NatToStringValue | src/main/java/com/scooter1556/sms/server/service/TranscodeService.java:144 | the digits read back as the number, and only 0 is written with a leading zero |
| Text.IntToString | src/main/java/com/scooter1556/sms/server/service/TranscodeService.java:144 | a non-empty decimal rendering, all digits for non-negative values and starting with "-" for negative ones |
| Text.IntToStringValue | src/main/java/com/scooter1556/sms/server/service/TranscodeService.java:144 | the text reads back as the number: the digits for a non-negative one, "-" and the digits of its magnitude for a negative one |
| Text.IntToStringInjective | src/main/java/com/scooter1556/sms/server/service/TranscodeService.java:144 | distinct numbers are written as distinct texts |
| MediaFiles.GetFileExtension | src/main/java/com/scooter1556/sms/server/utilities/MediaUtils.java:31-34 | no extension exactly when the name has no "."; otherwise the trimmed, lower-cased text after the last ".", which holds no "." and no upper-case letter |
| MediaFiles.RawExtension | src/main/java/com/scooter1556/sms/server/utilities/MediaUtils.java:32-33 | the text after the last "." of the name: a proper suffix preceded by "." and free of "." |
| MediaFiles.IsMediaFile | src/main/java/com/scooter1556/sms/server/utilities/MediaUtils.java:36-44 | true exactly when the lower-cased name ends with "." followed by one of the supported extensions |
| MediaFiles.MediaExtensionIgnoresCase | src/main/java/com/scooter1556/sms/server/utilities/MediaUtils.java:38 | the media test gives the same answer for a name and its lower-cased form |
| MediaFiles.ContainsMedia | src/main/java/com/scooter1556/sms/server/utilities/MediaUtils.java:47-61 | true exactly when some non-hidden entry is a directory (when directories count) or a media file; a true answer implies a visible entry |
| MediaFiles.HoldsMediaMonotone | src/main/java/com/scooter1556/sms/server/utilities/MediaUtils.java:50 | counting directories never turns a true answer into false |
| MediaFiles.HiddenEntriesIgnored | src/main/java/com/scooter1556/sms/server/utilities/MediaUtils.java:49 | adding a hidden entry to the listing never changes the answer |
| Media.FirstWhere | src/main/java/com/scooter1556/sms/server/service/TranscodeService.java:799-804 | none exactly when no listed codec is acceptable; otherwise the first acceptable codec in list order |
| Media.FindFirst | src/main/java/com/scooter1556/sms/server/service/TranscodeService.java:915-929 | the codec search loop returns the first acceptable codec, as FirstWhere describes |
| Media.FirstWhereReorder | src/main/java/com/scooter1556/sms/server/service/TranscodeService.java:881-887 | reordering a codec list (as the lossless preference does) never changes whether some codec is acceptable |
| Commands.HardwareDecoding | src/main/java/com/scooter1556/sms/server/service/TranscodeService.java:430-450 | decode hints only for vaapi (six arguments naming the device and output format) and cuvid (two arguments); none for any other accelerator |
| Commands.ScaleFilter | src/main/java/com/scooter1556/sms/server/service/TranscodeService.java:464-467 | no filter without a target resolution, else one "-vf" argument pair naming the filter, width and height |
| Commands.HardwareEncoding | src/main/java/com/scooter1556/sms/server/service/TranscodeService.java:455-486 | vaapi: upload filter, optional scale_vaapi filter, h264_vaapi encoder; cuvid: optional scale filter, h264_nvenc encoder; nothing for other accelerators |
| Commands.EncoderOptions | src/main/java/com/scooter1556/sms/server/service/TranscodeService.java:503-531 | the encoder library for vp8 and h264 with their tuning options; any other codec is passed through unchanged |
| Commands.SoftwareEncoding | src/main/java/com/scooter1556/sms/server/service/TranscodeService.java:491-535 | the optional scale filter, then "-c:v", then the encoder options of the codec, in that order |
| Commands.AudioCommands | src/main/java/com/scooter1556/sms/server/service/TranscodeService.java:540-576 | nothing for a stream without a codec; otherwise the stream map and codec, then the quality, the stereo downmix and the sample rate arguments, each present exactly when set |
| Commands.SubtitleCommands | src/main/java/com/scooter1556/sms/server/service/TranscodeService.java:581-609 | no selected subtitle: map video and drop subtitles; a hard-coded one: overlay it on the video; any other: no arguments |
| Commands.FormatCommands | src/main/java/com/scooter1556/sms/server/service/TranscodeService.java:366-428 | HLS: segment muxer with the segment duration, a start number and offset when resuming, the segment list in the stream's cache directory; DASH: global headers for video and the playlist in the data directory; other formats: write that format to standard output |
| Commands.SubtitleMaps | src/main/java/com/scooter1556/sms/server/service/TranscodeService.java:169-176 | one four-argument copy map per subtitle stream, in stream order |
| Commands.AudioMaps | src/main/java/com/scooter1556/sms/server/service/TranscodeService.java:201-203 | every audio transcode's arguments, indexed by its position, in order |
| Commands.AudioMapsSkipsUncoded | src/main/java/com/scooter1556/sms/server/service/TranscodeService.java:201-203 | streams without a codec contribute no audio arguments |
| Commands.CandidateCount | src/main/java/com/scooter1556/sms/server/service/TranscodeService.java:127-132 | exactly one candidate unless the video is converted, and then one per accelerator plus the software one |
| Commands.VideoSection | src/main/java/com/scooter1556/sms/server/service/TranscodeService.java:147-187 | nothing without a video transcode; otherwise decode hints when accelerator i exists and the video is converted, the input, one copy map per subtitle, the video map, then the accelerator's or the software encoder |
| Commands.AudioSection | src/main/java/com/scooter1556/sms/server/service/TranscodeService.java:189-204 | nothing without audio transcodes; otherwise the input when no video section opened it, the experimental flag and every stream's arguments |
| Commands.TranscodeVariant | src/main/java/com/scooter1556/sms/server/service/TranscodeService.java:139-207 | candidate i: path, seek offset, video section, audio section, format arguments |
| Commands.Tabulate | src/main/java/com/scooter1556/sms/server/service/TranscodeService.java:134-135 | the list of candidates 0 to n-1, in order |
| Commands.TranscodeCommand | src/main/java/com/scooter1556/sms/server/service/TranscodeService.java:124-218 | one candidate per accelerator and a final one, candidate i built for accelerator i |
| Commands.CandidateFraming | src/main/java/com/scooter1556/sms/server/service/TranscodeService.java:140-144 | every candidate starts with the transcoder path and the start offset and ends with the format arguments; with no video or audio transcode those are all it holds |
| Commands.CandidateSplit | src/main/java/com/scooter1556/sms/server/service/TranscodeService.java:140-207 | every candidate is the head, then the video section, then the audio section, then the format arguments |
| Commands.HardwareCandidateUsesOwnAccelerator | src/main/java/com/scooter1556/sms/server/service/TranscodeService.java:147-187 | candidate i is the candidate a transcoder with only accelerator i would build first |
| Commands.LastCandidateIsSoftware | src/main/java/com/scooter1556/sms/server/service/TranscodeService.java:147-187 | the last candidate is the one a transcoder without accelerators would build (software encoding) |
| Commands.HardwareVideoSection | src/main/java/com/scooter1556/sms/server/service/TranscodeService.java:150-186 | the video part of hardware candidate i is its decode hints, the input, the maps and its accelerator's encoder |
| Commands.DecodeHintsPrecedeInput | src/main/java/com/scooter1556/sms/server/service/TranscodeService.java:150-166 | a hardware candidate puts its accelerator's decode hints directly before the input file |
| Commands.CopiedVideoSingleCandidate | src/main/java/com/scooter1556/sms/server/service/TranscodeService.java:127-132 | copied video yields one candidate, whose video section ends by mapping and copying the video stream |
| Commands.SegmentFraming | src/main/java/com/scooter1556/sms/server/service/TranscodeService.java:220-364 | every segment candidate starts with the transcoder path and ends by keeping time stamps and naming the output file; an unknown kind yields only that |
| Commands.SegmentCandidateCount | src/main/java/com/scooter1556/sms/server/service/TranscodeService.java:227 | one candidate per accelerator plus one for a video segment, exactly one for any other kind |
| Commands.SegmentVideoRequired | src/main/java/com/scooter1556/sms/server/service/TranscodeService.java:241-252 | a video segment is re-encoded when requested at another quality, or at its own quality with the selected subtitle hard-coded |
| Commands.SegmentResolution | src/main/java/com/scooter1556/sms/server/service/TranscodeService.java:244-247 | the target resolution of a segment at another quality, none at the stream's own quality |
| Commands.VideoSegmentBody | src/main/java/com/scooter1556/sms/server/service/TranscodeService.java:240-288 | decode hints when re-encoding with accelerator i, the segment input, then (with a video transcode) the subtitle arguments, copy or hardware or software h264 encoding, and mpegts |
| Commands.AudioSegmentBody | src/main/java/com/scooter1556/sms/server/service/TranscodeService.java:290-320 | the segment input, the track map and copy when the track exists, then the chromecast container of the track's codec or mpegts |
| Commands.SubtitleSegmentBody | src/main/java/com/scooter1556/sms/server/service/TranscodeService.java:322-344 | the segment input, the subtitle map and webvtt codec when the track exists, then the webvtt format |
| Commands.SegmentVariant | src/main/java/com/scooter1556/sms/server/service/TranscodeService.java:236-353 | candidate i: path, the body for the kind (none for an unknown one), keep time stamps, and the output file named by kind and extra |
| Commands.SegmentTranscodeCommand | src/main/java/com/scooter1556/sms/server/service/TranscodeService.java:220-364 | none exactly when an argument is missing; otherwise one candidate per accelerator plus one for video, and one for other kinds |
| Commands.SegmentAtOwnQualityIsCopied | src/main/java/com/scooter1556/sms/server/service/TranscodeService.java:240-288 | a video segment requested at the stream's own quality is copied, identically in every candidate |
| Commands.SegmentReencodedCandidates | src/main/java/com/scooter1556/sms/server/service/TranscodeService.java:240-288 | a re-encoded video segment has one candidate per accelerator, each with that accelerator's decode hints and encoder, and a final software h264 candidate without decode hints |
| Commands.ReencodedSegmentVariant | src/main/java/com/scooter1556/sms/server/service/TranscodeService.java:240-288 | one re-encoded video segment candidate is path, decode hints, input, subtitle arguments, encoder, mpegts, time stamps and output |
| Commands.NonVideoSegmentSingleCandidate | src/main/java/com/scooter1556/sms/server/service/TranscodeService.java:227 | audio and subtitle segments yield a single candidate |
| Negotiation.VideoTranscodeRequired | src/main/java/com/scooter1556/sms/server/service/TranscodeService.java:645-671 | transcoding is needed exactly when the codec is unsupported, the bitrate exceeds the client maximum, or (without direct play) the quality tier's bitrate or resolution is exceeded |
| Negotiation.DirectPlayRelaxesVideo | src/main/java/com/scooter1556/sms/server/service/TranscodeService.java:657-668 | with direct play only the codec and the client maximum bitrate matter, so direct play never adds a transcode |
| Negotiation.ClampQuality | src/main/java/com/scooter1556/sms/server/service/TranscodeService.java:785-787 | the requested quality, lowered to the highest tier the video supports when that is smaller |
| Negotiation.VideoNegotiation | src/main/java/com/scooter1556/sms/server/service/TranscodeService.java:763-823 | fails exactly when a transcode is needed and no client codec suits the format; copies when none is needed; otherwise picks the first suitable client codec and scales only without direct play; only quality and video transcode change |
| Negotiation.DirectPlayCopiesVideo | src/main/java/com/scooter1556/sms/server/service/TranscodeService.java:789-817 | a stream the client already plays is copied, with only the quality clamped |
| Negotiation.OversizedVideoIsScaled | src/main/java/com/scooter1556/sms/server/service/TranscodeService.java:812-814 | a stream larger than its quality tier is re-encoded with the first suitable codec and scaled to the tier's resolution |
| Negotiation.ProcessVideo | src/main/java/com/scooter1556/sms/server/service/TranscodeService.java:763-823 | updates the profile and answers exactly as VideoNegotiation describes |
| Negotiation.AudioTranscodeRequired | src/main/java/com/scooter1556/sms/server/service/TranscodeService.java:673-703 | transcoding is needed exactly when the codec is rejected, the sample rate exceeds the maximum (DSD exempt), or (for a stream that passes both tests) the quality tier's bitrate ceiling is exceeded; the tier must index its table only when that lookup is reached |
| Negotiation.DirectPlayRelaxesAudio | src/main/java/com/scooter1556/sms/server/service/TranscodeService.java:673-703 | direct play never adds an audio transcode |
| Negotiation.DsdSampleRateExempt | src/main/java/com/scooter1556/sms/server/service/TranscodeService.java:686-699 | an accepted DSD stream within the bitrate ceiling (or with direct play on, or for a video element) is played as is, whatever its sample rate |
| Negotiation.Reordered | src/main/java/com/scooter1556/sms/server/service/TranscodeService.java:881-887 | the lossless preference changes only the two codec lists and leaves them present |
| Negotiation.ReorderedPermutes | src/main/java/com/scooter1556/sms/server/service/TranscodeService.java:881-887 | the lossless preference only reorders the codec lists |
| Negotiation.MultichannelPick | src/main/java/com/scooter1556/sms/server/service/TranscodeService.java:890-906 | for a stream of more than two channels with a multichannel list, the first suitable multichannel codec; none otherwise |
| Negotiation.AudioQualityFor | src/main/java/com/scooter1556/sms/server/service/TranscodeService.java:939-944 | the codec's quality for the requested tier on audio elements, for the tier's video-to-audio mapping on video elements |
| Negotiation.SampleRateFor | src/main/java/com/scooter1556/sms/server/service/TranscodeService.java:935-937 | a sample rate is set exactly when the stream's rate exceeds the client or codec maximum, and it respects both |
| Negotiation.AudioStep | src/main/java/com/scooter1556/sms/server/service/TranscodeService.java:853-958 | one stream's negotiation keeps the profile ready for the next stream and keeps a chosen format |
| Negotiation.AudioStepFrame | src/main/java/com/scooter1556/sms/server/service/TranscodeService.java:853-958 | one stream's negotiation changes only the codec lists and the format |
| Negotiation.AudioStepCopies | src/main/java/com/scooter1556/sms/server/service/TranscodeService.java:871-878 | a stream that needs no transcode is copied, and the format falls back to the codec's own format |
| Negotiation.AudioStepDecision | src/main/java/com/scooter1556/sms/server/service/TranscodeService.java:890-937 | downmix exactly when a multichannel stream finds no suitable multichannel codec; no codec exactly when no suitable codec exists; the chosen sample rate respects the client maximum |
| Negotiation.AudioStepCodecFits | src/main/java/com/scooter1556/sms/server/service/TranscodeService.java:890-929 | a chosen encoder belongs to a codec that suits the format and is offered by the client |
| Negotiation.AudioStepPermutes | src/main/java/com/scooter1556/sms/server/service/TranscodeService.java:853-958 | one stream's negotiation only reorders the codec lists |
| Negotiation.AudioStepDownmix | src/main/java/com/scooter1556/sms/server/service/TranscodeService.java:890-912 | downmix exactly when a transcoded multichannel stream finds no suitable multichannel codec in the original lists |
| Negotiation.AudioFold | src/main/java/com/scooter1556/sms/server/service/TranscodeService.java:853-958 | one audio transcode per stream, leaving the profile ready |
| Negotiation.AudioFoldAligned | src/main/java/com/scooter1556/sms/server/service/TranscodeService.java:853-958 | the k-th transcode is what stream k gets from the profile left by the streams before it |
| Negotiation.AudioFoldKeepsEarlier | src/main/java/com/scooter1556/sms/server/service/TranscodeService.java:853-958 | a later stream never changes the transcodes of earlier ones |
| Negotiation.AudioFoldFrame | src/main/java/com/scooter1556/sms/server/service/TranscodeService.java:853-958 | the stream loop changes only the codec lists and the format |
| Negotiation.AudioFoldKeepsFormat | src/main/java/com/scooter1556/sms/server/service/TranscodeService.java:947-949 | a format chosen before the loop is kept |
| Negotiation.AudioFoldPermutesCodecs | src/main/java/com/scooter1556/sms/server/service/TranscodeService.java:881-887 | over all streams the codec lists are only reordered |
| Negotiation.AudioLoopRuns | src/main/java/com/scooter1556/sms/server/service/TranscodeService.java:827-848 | the stream loop is reached: element, codecs and quality present, at least one audio stream, and a format for a video |
| Negotiation.ConvertStep | src/main/java/com/scooter1556/sms/server/service/TranscodeService.java:880-953 | the converting branch: lossless reordering, multichannel pick or downmix, fallback codec, then sample rate, quality, format and encoder for a found codec |
| Negotiation.AudioNegotiation | src/main/java/com/scooter1556/sms/server/service/TranscodeService.java:825-964 | no change without element, codecs or quality; the track defaults to 0; fails exactly for a video without format; an empty stream list gives no transcodes; otherwise one transcode per stream as AudioFold describes |
| Negotiation.ProcessAudioStream | src/main/java/com/scooter1556/sms/server/service/TranscodeService.java:853-958 | updates the profile and returns the transcode as AudioStep describes |
| Negotiation.PreferLosslessCodecs | src/main/java/com/scooter1556/sms/server/service/TranscodeService.java:881-887 | updates the profile as Reordered describes |
| Negotiation.ConvertAudioStream | src/main/java/com/scooter1556/sms/server/service/TranscodeService.java:880-953 | updates the profile and returns the transcode as ConvertStep describes |
| Negotiation.ProcessAudio | src/main/java/com/scooter1556/sms/server/service/TranscodeService.java:825-964 | updates the profile and answers exactly as AudioNegotiation describes |
| Negotiation.ProcessAudioStreams | src/main/java/com/scooter1556/sms/server/service/TranscodeService.java:853-958 | the stream loop produces exactly what AudioFold describes |
| Negotiation.SubtitleDecision | src/main/java/com/scooter1556/sms/server/service/TranscodeService.java:728-754 | copy for an accepted stream; webvtt, the picture format hard-coded, or copy for a supported one; no codec otherwise |
| Negotiation.SubtitleDecisionCases | src/main/java/com/scooter1556/sms/server/service/TranscodeService.java:728-747 | accepted streams are copied; unaccepted supported text streams become webvtt; unaccepted supported picture streams are hard-coded; unsupported ones get no codec |
| Negotiation.FirstForced | src/main/java/com/scooter1556/sms/server/service/TranscodeService.java:750-752 | the stream number of the first forced stream, if any |
| Negotiation.FirstForcedIsEarliest | src/main/java/com/scooter1556/sms/server/service/TranscodeService.java:750-752 | none exactly when no stream is forced, else the first forced stream |
| Negotiation.FirstForcedExtend | src/main/java/com/scooter1556/sms/server/service/TranscodeService.java:750-752 | a later stream never replaces an earlier forced one |
| Negotiation.SubtitleDecisions | src/main/java/com/scooter1556/sms/server/service/TranscodeService.java:728-747 | one decision per stream, in stream order |
| Negotiation.SubtitleNegotiation | src/main/java/com/scooter1556/sms/server/service/TranscodeService.java:705-761 | succeeds exactly when element, codecs and format are present for a video; one decision per stream; the track defaults to the first forced stream; only the track and transcodes change |
| Negotiation.ProcessSubtitles | src/main/java/com/scooter1556/sms/server/service/TranscodeService.java:705-761 | updates the profile and answers exactly as SubtitleNegotiation describes |
| Negotiation.DecideSubtitles | src/main/java/com/scooter1556/sms/server/service/TranscodeService.java:724-755 | the loop yields the requested or first forced track and the per-stream decisions |
| Negotiation.AnyAudioRequired | src/main/java/com/scooter1556/sms/server/service/TranscodeService.java:625-632 | false for no streams; true exactly when some audio stream needs transcoding; with a tier outside the table the bitrate lookup is required only of the first stream, and the answer is true |
| Negotiation.AnySubtitleUnsupported | src/main/java/com/scooter1556/sms/server/service/TranscodeService.java:634-640 | true exactly when some subtitle format is not among the client codecs |
| Negotiation.TranscodeRequired | src/main/java/com/scooter1556/sms/server/service/TranscodeService.java:611-643 | undecided exactly when element, quality or codecs is missing; otherwise true exactly when the video, the audio loop or some subtitle stream needs it, and with a readable tier exactly when some audio stream does |
| Negotiation.UnreadAudioTierAnswered | src/main/java/com/scooter1556/sms/server/service/TranscodeService.java:611-643 | an audio element with direct play off and a tier outside the bitrate table is answered when no stream reaches the lookup: false without streams, true when the first stream is decided by codec or sample rate |
| Service.FirstMatch | src/main/java/com/scooter1556/sms/server/service/TranscodeService.java:974-984 | -1 exactly when no registered profile has the id, else the first one that has it |
| Service.FirstMatchAppend | src/main/java/com/scooter1556/sms/server/service/TranscodeService.java:970-972 | registering a profile never hides an earlier one with the same id |
| Service.Without | src/main/java/com/scooter1556/sms/server/service/TranscodeService.java:997 | the registry with one position removed, order otherwise kept |
| Service.RemovalForgetsUniqueId | src/main/java/com/scooter1556/sms/server/service/TranscodeService.java:986-1004 | removing an id registered once leaves no profile with that id |
| Service.FindProfile | src/main/java/com/scooter1556/sms/server/service/TranscodeService.java:975-981 | the registry scan finds exactly the first profile with the id, skipping profiles without one |
| Service.TranscodeService.constructor | src/main/java/com/scooter1556/sms/server/service/TranscodeService.java:60-78 | a service with an empty registry over the given transcoder, settings and catalog |
| Service.TranscodeService.TranscodeCommand | src/main/java/com/scooter1556/sms/server/service/TranscodeService.java:124-218 | the candidates are exactly those TranscodeCommand describes |
| Service.TranscodeService.BuildCandidate | src/main/java/com/scooter1556/sms/server/service/TranscodeService.java:139-207 | candidate i is exactly the i-th variant |
| Service.TranscodeService.BuildAudioMaps | src/main/java/com/scooter1556/sms/server/service/TranscodeService.java:201-203 | the audio loop yields every stream's arguments in stream order |
| Service.TranscodeService.BuildVideoSection | src/main/java/com/scooter1556/sms/server/service/TranscodeService.java:147-187 | the video section is decode hints, input, subtitle maps, video map and encoder for candidate i |
| Service.TranscodeService.SegmentTranscodeCommand | src/main/java/com/scooter1556/sms/server/service/TranscodeService.java:220-364 | none for a missing argument, otherwise the segment candidates SegmentTranscodeCommand describes |
| Service.TranscodeService.SegmentCandidates | src/main/java/com/scooter1556/sms/server/service/TranscodeService.java:227-354 | the loop yields the segment candidates in order |
| Service.TranscodeService.BuildSegmentCandidate | src/main/java/com/scooter1556/sms/server/service/TranscodeService.java:235-353 | builds candidate i by appending the kind's arguments, exactly the SegmentVariant candidate |
| Service.TranscodeService.BuildVideoSegment | src/main/java/com/scooter1556/sms/server/service/TranscodeService.java:240-288 | decides re-encoding, resolution and accelerator and builds the video segment arguments, exactly VideoSegmentBody |
| Service.TranscodeService.AddTranscodeProfile | src/main/java/com/scooter1556/sms/server/service/TranscodeService.java:970-972 | appends the profile to the registry and changes nothing else |
| Service.TranscodeService.GetTranscodeProfile | src/main/java/com/scooter1556/sms/server/service/TranscodeService.java:974-984 | null exactly when no profile has the id, else the first that has it |
| Service.TranscodeService.RemoveTranscodeProfile | src/main/java/com/scooter1556/sms/server/service/TranscodeService.java:986-1004 | drops the first profile with the id, if any, and ends its streaming process exactly when it is a transcode |
| Scanner.GetDirectoryMediaType | src/main/java/com/scooter1556/sms/server/service/ScannerService.java:809-824 | none, audio, video or mixed exactly as the children include audio and video elements |
| Scanner.GetDirectoryYear | src/main/java/com/scooter1556/sms/server/service/ScannerService.java:827-844 | a positive year shared by every dated child; 0 when no child is dated or two dated children disagree |
| Scanner.CommonAttribute | src/main/java/com/scooter1556/sms/server/service/ScannerService.java:847-864 | the value shared by every child of the type that has one, none when there is none or they disagree |
| Scanner.GetDirectoryArtist | src/main/java/com/scooter1556/sms/server/service/ScannerService.java:847-864 | the artist shared by the audio children, or none |
| Scanner.GetDirectoryAlbumArtist | src/main/java/com/scooter1556/sms/server/service/ScannerService.java:867-884 | the album artist shared by the audio children, or none |
| Scanner.GetDirectoryCollection | src/main/java/com/scooter1556/sms/server/service/ScannerService.java:887-904 | the collection shared by the video children, or none |
| Scanner.GetDirectoryDescription | src/main/java/com/scooter1556/sms/server/service/ScannerService.java:907-924 | the description shared by the audio children, or none |
| Scanner.IsExcluded | src/main/java/com/scooter1556/sms/server/service/ScannerService.java:747-755 | true exactly for "Extras" and "extras" |
| Scanner.IsInfoFile | src/main/java/com/scooter1556/sms/server/service/ScannerService.java:737-745 | true exactly when the lower-cased name ends with ".nfo" |
| Scanner.FallbackTitle | src/main/java/com/scooter1556/sms/server/service/ScannerService.java:799-804 | a directory name or a name without "." is its own title; otherwise the text before the last "." |
| Scanner.TitleAndExtensionRebuildName | src/main/java/com/scooter1556/sms/server/service/ScannerService.java:799-804 | title, ".", and extension give back the file name |
| Scanner.CountOfType | src/main/java/com/scooter1556/sms/server/service/ScannerService.java:403-429 | at most the number of elements, and zero exactly when none has the type |
| Scanner.TalliedType | src/main/java/com/scooter1556/sms/server/service/ScannerService.java:403-429 | a known folder type is kept; otherwise playlists only gives playlist, more audio gives audio, more video gives video |
| Scanner.TallyFolderType | src/main/java/com/scooter1556/sms/server/service/ScannerService.java:403-429 | the folder type is the tally of the audio and video counts and playlists |
| Scanner.CountOfTypeReorder | src/main/java/com/scooter1556/sms/server/service/ScannerService.java:403-429 | the counts do not depend on the order of the elements |
| Scanner.CountOfTypeSplit | src/main/java/com/scooter1556/sms/server/service/ScannerService.java:403-429 | one more element of the type adds exactly one to its count |
| Scanner.NewOnes | src/main/java/com/scooter1556/sms/server/service/ScannerService.java:634-639 | new elements are elements stamped with this scan |
| Scanner.UpdatedOnes | src/main/java/com/scooter1556/sms/server/service/ScannerService.java:634-639 | updated elements carry this scan's stamp |
| Scanner.PartitionSizes | src/main/java/com/scooter1556/sms/server/service/ScannerService.java:634-639 | every element goes to exactly one of the two lists |
| Scanner.PartitionIsExact | src/main/java/com/scooter1556/sms/server/service/ScannerService.java:634-639 | elements stamped by this scan are new; every other one is updated, re-stamped |
| Scanner.Partition | src/main/java/com/scooter1556/sms/server/service/ScannerService.java:634-639 | the loop yields exactly the new and updated lists |
| Scanner.ParseFiles.constructor | src/main/java/com/scooter1556/sms/server/service/ScannerService.java:439-462 | a visitor with empty lists and zero counters |
| Scanner.ParseFiles.VisitFile | src/main/java/com/scooter1556/sms/server/service/ScannerService.java:513-582 | a media file or playlist adds one file, a playlist one playlist; the element lists are unchanged; the counters stay consistent |
| Scanner.ParseFiles.PostVisitDirectory | src/main/java/com/scooter1556/sms/server/service/ScannerService.java:585-725 | one more folder; the children and the directory element are appended to the new and updated lists (the directory's own attribute updates are listed under Left out) |
| Scanner.ParseFiles.TotalAsWritten | src/main/java/com/scooter1556/sms/server/service/ScannerService.java:948-950 | files plus folders plus playlists, which exceeds the visited items by the playlists |
| Scanner.ParseFiles.Total | src/main/java/com/scooter1556/sms/server/service/ScannerService.java:948-950 | exactly the number of visited files and folders |
| Scanner.TotalOvercountsPlaylists | src/main/java/com/scooter1556/sms/server/service/ScannerService.java:948-950 | with any playlist the reported total exceeds the visited items by the playlist count |
| Session.LastMatch | src/main/java/com/scooter1556/sms/server/controller/SessionController.java:309-321 | the last header name equal to the target ignoring case; no later one matches |
| Session.LastHeader | src/main/java/com/scooter1556/sms/server/controller/SessionController.java:309-321 | the value read at the last header name matching the target ignoring case, none when no name matches |
| Session.LineEnd | src/main/java/com/scooter1556/sms/server/controller/SessionController.java:330 | the end of the current line: no line terminator before it, and one at it unless at the end |
| Session.StripSession | src/main/java/com/scooter1556/sms/server/controller/SessionController.java:330 | never longer than the URL, and unchanged without "/session" |
| Session.StripSessionCut | src/main/java/com/scooter1556/sms/server/controller/SessionController.java:330 | removes from the first "/session" to the end of its line |
| Session.StripSessionSingleLine | src/main/java/com/scooter1556/sms/server/controller/SessionController.java:330 | on one line it cuts at the first "/session", leaves no "/session", and a second pass changes nothing |
| Session.RequestAddress | src/main/java/com/scooter1556/sms/server/controller/SessionController.java:299-331 | none exactly for a missing request |
| Session.GetURL | src/main/java/com/scooter1556/sms/server/controller/SessionController.java:299-331 | returns exactly RequestAddress |
| Session.ProxiedAddress | src/main/java/com/scooter1556/sms/server/controller/SessionController.java:323-327 | forwarded protocol and host give protocol://host, whatever the request URL |
| Session.DirectAddress | src/main/java/com/scooter1556/sms/server/controller/SessionController.java:305-331 | without header names, or with either forwarded header missing, the address is the request URL without its session path |
| Session.AddSessionProfile | src/main/java/com/scooter1556/sms/server/controller/SessionController.java:83-91 | rejected exactly when a profile is present but incomplete; a missing profile passes; a complete one is stamped with locality and URL, nothing else changed |
| Session.UpdateAccepts | src/main/java/com/scooter1556/sms/server/controller/SessionController.java:117-120 | an update needs a present profile with client, format, codecs and formats |
| Session.ProfileChecksAgree | src/main/java/com/scooter1556/sms/server/controller/SessionController.java:117-120 | creating and updating a session accept the same present profiles; only an update refuses a missing one |

## Left out

- File system, database and log I/O are outside the model. The scanner's directory walk, the database lookups, NFO parsing and the scan-log writes are not modelled. `ContainsMedia` takes the directory listing as a parameter.
- The file-name regular expression of parseFileName (title and year from "Title (Year)") is not modelled; only the fallback title is.
- Scanner.ParseFiles.PostVisitDirectory does not model the updates to the directory element at ScannerService.java:660-711. These are:
  - the directory media type;
  - the year when it is 0;
  - for audio or mixed directories, the description, and the artist with its fallback to the album artist and then to the root directory name;
  - for video directories, the collection with its fallback to the root directory name;
  - for directories without media, `setExcluded(true)`.
  
  The directory element and its children are read from the database, and getDirectoryRoot works on paths. Both are outside the model. The per-attribute functions (`GetDirectoryMediaType`, `GetDirectoryYear`, `GetDirectoryArtist`, `GetDirectoryAlbumArtist`, `GetDirectoryCollection`, `GetDirectoryDescription`) are modelled on their own. The method states only the folder count and the new/updated lists.
- getDirectoryRoot and the scan bookkeeping around the visitor (directory stacks, playlists, NFO data) are not modelled.
- Transcoder discovery (the TranscodeService constructor's search for a transcoder, getTranscoder, the codec check) is not modelled. The model's constructor receives the transcoder.
- getSupportedCodecs and getTranscodeCodecs only concatenate the utility tables and are not modelled.
- The transcode utilities (TranscodeUtils) are not part of this model. Their tables and functions are fields of `Catalog`, with no behaviour assumed beyond `ValidCatalog`.
- The settings service's cache and data directories are fields of a `Settings` parameter. The HLS segment duration is the adaptive streaming service's constant `HLS_SEGMENT_DURATION`, not a setting. The adaptive streaming service is not part of this model, so the constant's value is carried as the `Settings` field `hlsSegmentDuration`, of which only positivity is assumed (`ValidSettings`).
- The streaming service's `endProcess` is recorded as the ghost log `endedProcesses`.
- MediaElement, TranscodeProfile and the stream classes are not part of this model. Their fields are taken as declared and used by the core files.
- DirectoryMediaType constants are modelled as an enumeration, and the folder ContentType values likewise.
- Session.AddSessionProfile: addSession's `isLocal(request)` is not modelled; the locality is a parameter. Its call to the session service (SessionController.java:94) and the response codes are not modelled either; the function returns the profile that would be stored.
- Session.StripSession models Java's `replaceFirst("/session(.*)", "")`. The `.` there does not match line terminators, so the cut ends at the first line terminator after the match.
- Text.Lower: case mapping covers ASCII letters only, not Java's full Unicode `toLowerCase`. Text.EqualsIgnoreCase likewise.
- Scanner.GetDirectoryYear: the year is an unbounded integer, not Java's `Short`.
- Scanner.ParseFiles.VisitFile: the counters are unbounded naturals, not Java `long`. The service-wide `mTotal` counter is modelled as the visitor's `itemsScanned`.
- Service.TranscodeService.GetTranscodeProfile: profiles with a null id are skipped, as in the source. The model cannot register a profile for the null id because ids are `Option<Uuid>` compared with `Some(id)`.
- Commands.SoftwareEncoding: the codec is always present; the source's branch for a null codec (no "-c:v" at all) is not modelled, since the video transcode always carries a codec.
- Commands.SubtitleCommands requires a selected subtitle track that falls within the subtitle transcodes to be non-negative. The source indexes the array unchecked and would throw otherwise.
- Commands.FormatCommands requires a positive HLS segment duration (`ValidSettings`). The source divides the offset by that constant.
- Java `int` arithmetic is modelled with unbounded integers, so 32-bit overflow is not captured. This affects two places. The first is the bitrate ceiling `channels * AUDIO_QUALITY_MAX_BITRATE[quality]` in isAudioTranscodeRequired (TranscodeService.java:694), in Negotiation.AudioTranscodeRequired. The second is the segment start number `offset / HLS_SEGMENT_DURATION` (TranscodeService.java:389), in Commands.FormatCommands. That division is only reached for a positive offset, where Java's truncating division and Dafny's agree.
- Service.TranscodeService.TranscodeCommand requires the media element to be present whenever a video or audio transcode is (`CommandReady`). The source dereferences it unchecked.
- Negotiation.ProcessVideo requires the clamped quality tier to index the video quality tables whenever the stream test reads them (`VideoNegotiable`). The source indexes unchecked.
- Commands.SegmentTranscodeCommand requires `SegmentReady`, which excludes the inputs on which the source would throw. For a video segment it requires three things. The media element must be present whenever the requested quality differs from the profile's, because getVideoResolution reads it. At the profile's own quality, a selected subtitle track must index the subtitle transcodes, because line 249 indexes it. The selected subtitle track must be non-negative, because getSubtitleCommands indexes it. For a chromecast audio segment it requires the audio transcodes to be present, the requested track to index them, that transcode to carry a codec, and formatForAudioCodec to give a format for it, because lines 311-313 read all of these unchecked.
- Negotiation.VideoTranscodeRequired and Negotiation.AudioTranscodeRequired require the quality tier to index a quality table only on the inputs where the source reads that table, and the source would throw there. Negotiation.TranscodeRequired and Negotiation.AnyAudioRequired likewise require the bitrate tier only when the first audio stream reaches the lookup, after the video check has not already answered true.
- Negotiation.ProcessAudio and Negotiation.AudioNegotiation require `AudioReady` only when the stream loop runs (`AudioLoopRuns`). That means element, codecs and quality are present, there is at least one audio stream, and a video element has a format. On those inputs the requirement still excludes two cases in which the source would not throw. The first is a video element whose quality does not index `VIDEO_QUALITY_AUDIO_QUALITY`, when no stream reaches the table lookup at TranscodeService.java:943 (every stream is copied or finds no codec). The second is an audio element with direct play off whose quality does not index `AUDIO_QUALITY_MAX_BITRATE`, when every stream is decided by the codec or sample-rate test of isAudioTranscodeRequired before line 694 is reached.
- Negotiation.ProcessAudioStreams and Negotiation.AudioFold require `AudioReady` outright. That means element, codecs and quality are present, the bitrate tier is defined for an audio element with direct play off, and the video-to-audio table is indexable for a video element. They are reached only through processAudio's loop, so they exclude the same two inputs as the line above. processAudio itself checks only that element, codecs and quality are present.
- Concurrency is not modelled: the service's profile list is unsynchronised in the source, and the model treats each call as atomic.

## Findings

| source | as written | input that shows it | evidently intended | confidence | as-written member | corrected member |
|---|---|---|---|---|---|---|
| src/main/java/com/scooter1556/sms/server/service/ScannerService.java:948-950 | getTotal returns files + folders + playlists, but visitFile already counts every playlist in files (lines 553-555), so playlists are counted twice in the "Items Scanned" figure logged at line 433 | a folder holding one playlist file: one file and one folder are visited, getTotal reports 3 | files + folders, the number of visited items (what mTotal counts at lines 519, 553, 587) | not executed | Scanner.ParseFiles.TotalAsWritten (with Scanner.TotalOvercountsPlaylists) | Scanner.ParseFiles.Total |
