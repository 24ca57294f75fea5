/** What a probe reports about a file, and which of its streams a plan uses. */
module Streams {
  import opened Options
  import opened Texts
  import opened Names

  datatype StreamKind = VideoStream | AudioStream | OtherStream

  /** `rotation`, `sampleRate` and `bits` are the parsed fields, zero when absent or
      unreadable; `tags` are the names of the stream's tags. */
  datatype Stream = Stream(
    index: int,
    kind: StreamKind,
    codec: string,
    pixelFormat: string,
    colorRange: string,
    colorSpace: string,
    colorTransfer: string,
    colorPrimaries: string,
    width: int,
    height: int,
    rotation: int,
    attachedPic: bool,
    duration: Option<nat>,
    channels: int,
    channelLayout: string,
    sampleRate: int,
    bits: int,
    tags: set<string>)
  {
    function Rotation(): (r: int)
      ensures 0 <= r < 360 && (rotation - r) % 360 == 0
    {
      rotation % 360
    }
  }

  /** `tags` are the names of the container's tags. */
  datatype Probe = Probe(formatName: string, duration: Option<nat>, streams: seq<Stream>, tags: set<string>)

  datatype WarningCode = UnsupportedAudioCodec | AdditionalAudioStream

  datatype Warning = Warning(code: WarningCode, streamIndex: int, codec: string)

  datatype Selection = Selection(video: Option<Stream>, audio: Option<Stream>, warnings: seq<Warning>)

  const AUDIO_CODECS: seq<string> :=
    ["aac", "mp3", "ac3", "eac3", "alac", "flac", "opus", "vorbis", "wmav1", "wmav2", "wmapro", "wmalossless"]

  predicate Listed(name: string, names: seq<string>)
    ensures Listed(name, names) <==> name in names
  {
    names != [] && (names[0] == name || Listed(name, names[1..]))
  }

  predicate SupportedAudioCodec(codec: string) {
    var name := Lowered(TrimSpace(codec));
    ("pcm_" <= name && |name| > 4) || Listed(name, AUDIO_CODECS)
  }

  predicate UsableVideo(s: Stream) {
    !s.attachedPic && s.width > 0 && s.height > 0 && s.codec != "" && s.codec != "unknown"
  }

  predicate SelectableVideo(s: Stream) {
    s.kind.VideoStream? && UsableVideo(s)
  }

  predicate SelectableAudio(s: Stream) {
    s.kind.AudioStream? && SupportedAudioCodec(s.codec)
  }

  // ---------------------------------------------------------------- the policy, declaratively

  /** The first stream a test accepts. */
  ghost predicate IsFirst(streams: seq<Stream>, accepts: Stream -> bool, found: Option<Stream>) {
    match found
    case None => forall i :: 0 <= i < |streams| ==> !accepts(streams[i])
    case Some(s) =>
      exists i :: 0 <= i < |streams| && streams[i] == s && accepts(s) && forall k :: 0 <= k < i ==> !accepts(streams[k])
  }

  function WarningFor(s: Stream): Warning {
    Warning(if SupportedAudioCodec(s.codec) then AdditionalAudioStream else UnsupportedAudioCodec, s.index, s.codec)
  }

  /** One warning for every audio stream except the first allowlisted one, in order. */
  function Dropped(streams: seq<Stream>): seq<Warning> {
    if streams == [] then []
    else
      var front, last := streams[..|streams| - 1], streams[|streams| - 1];
      Dropped(front) +
      if last.kind.AudioStream? && !(SelectableAudio(last) && NoneSelectable(front)) then [WarningFor(last)] else []
  }

  predicate NoneSelectable(streams: seq<Stream>) {
    streams == [] || (NoneSelectable(streams[..|streams| - 1]) && !SelectableAudio(streams[|streams| - 1]))
  }

  function CountAudio(streams: seq<Stream>): nat {
    if streams == [] then 0
    else CountAudio(streams[..|streams| - 1]) + if streams[|streams| - 1].kind.AudioStream? then 1 else 0
  }

  function First(streams: seq<Stream>, accepts: Stream -> bool): (found: Option<Stream>)
    ensures IsFirst(streams, accepts, found)
  {
    if streams == [] then None
    else
      var front, last := streams[..|streams| - 1], streams[|streams| - 1];
      var earlier := First(front, accepts);
      if earlier.Some? then FirstStays(streams, accepts, earlier); earlier
      else if accepts(last) then
        assert forall k :: 0 <= k < |front| ==> front[k] == streams[k];
        Some(last)
      else None
  }

  lemma FirstStays(streams: seq<Stream>, accepts: Stream -> bool, earlier: Option<Stream>)
    requires streams != [] && earlier.Some? && IsFirst(streams[..|streams| - 1], accepts, earlier)
    ensures IsFirst(streams, accepts, earlier)
  {
    var front := streams[..|streams| - 1];
    var i :| 0 <= i < |front| && front[i] == earlier.value && accepts(earlier.value)
             && forall k :: 0 <= k < i ==> !accepts(front[k]);
    assert forall k :: 0 <= k < |front| ==> front[k] == streams[k];
  }

  /** The selection a list of streams determines. */
  function Select(streams: seq<Stream>): Selection {
    Selection(First(streams, SelectableVideo), First(streams, SelectableAudio), Dropped(streams))
  }

  lemma {:induction false} NoneSelectedIff(streams: seq<Stream>)
    ensures NoneSelectable(streams) <==> First(streams, SelectableAudio).None?
  {
    if streams != [] {
      NoneSelectedIff(streams[..|streams| - 1]);
    }
  }

  lemma SelectGrows(streams: seq<Stream>, i: nat)
    requires i < |streams|
    ensures var before, s := Select(streams[..i]), streams[i];
      Select(streams[..i + 1]) ==
      if s.kind.VideoStream? && before.video.None? && UsableVideo(s) then before.(video := Some(s))
      else if SelectableAudio(s) && before.audio.None? then before.(audio := Some(s))
      else if s.kind.AudioStream? then before.(warnings := before.warnings + [WarningFor(s)])
      else before
  {
    assert streams[..i + 1][..i] == streams[..i];
    NoneSelectedIff(streams[..i]);
  }

  // ---------------------------------------------------------------- the loop

  method SelectStreams(probe: Probe) returns (selection: Selection)
    ensures selection == Select(probe.streams)
  {
    var streams := probe.streams;
    selection := Selection(None, None, []);
    var i := 0;
    while i < |streams|
      invariant 0 <= i <= |streams|
      invariant selection == Select(streams[..i])
    {
      var s := streams[i];
      SelectGrows(streams, i);
      if s.kind.VideoStream? {
        if selection.video.None? && UsableVideo(s) {
          selection := selection.(video := Some(s));
        }
      } else if s.kind.AudioStream? {
        if SupportedAudioCodec(s.codec) && selection.audio.None? {
          selection := selection.(audio := Some(s));
        } else {
          var code := if SupportedAudioCodec(s.codec) then AdditionalAudioStream else UnsupportedAudioCodec;
          selection := selection.(warnings := selection.warnings + [Warning(code, s.index, s.codec)]);
        }
      }
      i := i + 1;
    }
    assert streams[..i] == streams;
  }

  lemma {:induction false} CountsDropped(streams: seq<Stream>)
    ensures |Dropped(streams)| == CountAudio(streams) - if NoneSelectable(streams) then 0 else 1
  {
    if streams != [] {
      CountsDropped(streams[..|streams| - 1]);
    }
  }

  /** Every audio stream is either the selected one or has its warning: the warnings
      are as many as the audio streams that were dropped. */
  lemma WarningsCountDropped(streams: seq<Stream>)
    ensures |Select(streams).warnings| == CountAudio(streams) - if Select(streams).audio.Some? then 1 else 0
  {
    CountsDropped(streams);
    NoneSelectedIff(streams);
  }

  /** Selecting again changes nothing: streams no policy looks at can be removed. */
  lemma {:induction false} OtherStreamsIgnored(streams: seq<Stream>, extra: Stream)
    requires extra.kind.OtherStream?
    ensures Select(streams + [extra]) == Select(streams)
  {
    assert (streams + [extra])[..|streams|] == streams;
    assert First(streams + [extra], SelectableVideo) == First(streams, SelectableVideo);
  }
}
