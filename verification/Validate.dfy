/** Checking a converted file against its contract, over stream lists of any length. */
module Validate {
  import opened Options
  import opened Names
  import opened Texts
  import opened Streams
  import opened MediaPlan
  import Metadata
  import Mp4

  datatype Code =
    | MetadataCode | ContainerCode | UndeclaredCode | StreamCountCode | AudioPresenceCode
    | CodecCode | PixelFormatCode | ColorCode | DimensionsCode | RotationCode
    | ChannelLayoutCode | SampleRateCode | DurationCode | FastStartCode

  // ---------------------------------------------------------------- clauses

  function Aliases(container: string): set<string> {
    if container == "mp4" then {"mov", "mp4", "m4a", "3gp", "3g2", "mj2"}
    else if container == "mp3" then {"mp3"}
    else if container == "flac" then {"flac"}
    else {}
  }

  predicate NameMatches(container: string, name: string) {
    TrimSpace(name) == container || TrimSpace(name) in Aliases(container)
  }

  ghost predicate ContainerFits(container: string, formatName: string) {
    exists name :: name in Split(formatName, ',') && NameMatches(container, name)
  }

  method ContainerMatches(container: string, formatName: string) returns (found: bool)
    ensures found == ContainerFits(container, formatName)
  {
    var names := Split(formatName, ',');
    for i := 0 to |names|
      invariant forall k :: 0 <= k < i ==> !NameMatches(container, names[k])
    {
      if NameMatches(container, names[i]) {
        return true;
      }
    }
    return false;
  }

  predicate PlainVideo(s: Stream) {
    s.kind.VideoStream? && !s.attachedPic
  }

  function Videos(streams: seq<Stream>): seq<Stream> {
    if streams == [] then []
    else
      var last := streams[|streams| - 1];
      Videos(streams[..|streams| - 1]) + if PlainVideo(last) then [last] else []
  }

  function Audios(streams: seq<Stream>): seq<Stream> {
    if streams == [] then []
    else
      var last := streams[|streams| - 1];
      Audios(streams[..|streams| - 1]) + if last.kind.AudioStream? then [last] else []
  }

  /** Attached pictures and streams that are neither video nor audio. */
  function Strays(streams: seq<Stream>): nat {
    if streams == [] then 0
    else
      var last := streams[|streams| - 1];
      Strays(streams[..|streams| - 1]) + if PlainVideo(last) || last.kind.AudioStream? then 0 else 1
  }

  predicate ColorFits(expected: string, actual: string) {
    expected == "" || actual == expected
  }

  predicate ColorsFit(e: Expected, v: Stream) {
    && ColorFits(e.colorRange, v.colorRange) && ColorFits(e.colorSpace, v.colorSpace)
    && ColorFits(e.colorTransfer, v.colorTransfer) && ColorFits(e.colorPrimaries, v.colorPrimaries)
  }

  predicate LayoutFits(e: Expected, a: Stream) {
    && (e.channels > 0 ==> a.channels == e.channels)
    && (e.channelLayout != "" ==> a.channelLayout == e.channelLayout)
  }

  predicate RateFits(e: Expected, a: Stream) {
    e.sampleRate > 0 ==> a.sampleRate == e.sampleRate
  }

  function Difference(a: int, b: int): int { if a >= b then a - b else b - a }

  predicate DurationFits(e: Expected, actual: Option<nat>) {
    && actual.Some? && actual.value > 0
    && (e.duration.Some? ==> Difference(actual.value, e.duration.value) <= e.tolerance)
  }

  /** Some tag of the container or of a stream is named after a place, a camera's record,
      an edit history or a gain map. */
  ghost predicate Sensitive(output: Probe) {
    Metadata.Reveal(Metadata.Tags(output), SENSITIVE_PARTS)
  }

  const SENSITIVE_PARTS := {"gps", "location", "iso6709", "exif", "xmp", "gainmap", "gain_map"}

  /** The clauses about the first stream of each declared kind, where there is one. */
  ghost predicate StreamViolates(code: Code, e: Expected, videos: seq<Stream>, audios: seq<Stream>) {
    var video, audio := WantedVideos(e) == 1 && videos != [], WantedAudios(e) == 1 && audios != [];
    match code
    case CodecCode => (video && videos[0].codec != e.videoCodec) || (audio && audios[0].codec != e.audioCodec)
    case PixelFormatCode => video && videos[0].pixelFormat != e.pixelFormat
    case ColorCode => video && !ColorsFit(e, videos[0])
    case DimensionsCode => video && (videos[0].width != e.width || videos[0].height != e.height)
    case RotationCode => video && videos[0].Rotation() != e.rotation
    case ChannelLayoutCode => audio && !LayoutFits(e, audios[0])
    case SampleRateCode => audio && !RateFits(e, audios[0])
    case _ => false
  }

  /** The clause each code stands for. */
  ghost predicate Violates(code: Code, e: Expected, output: Probe) {
    var videos, audios := Videos(output.streams), Audios(output.streams);
    match code
    case MetadataCode => Sensitive(output)
    case ContainerCode => !ContainerFits(e.container, output.formatName)
    case UndeclaredCode => Strays(output.streams) > 0 || |videos| > WantedVideos(e) || |audios| > WantedAudios(e)
    case StreamCountCode => |videos| != WantedVideos(e)
    case AudioPresenceCode => |audios| != WantedAudios(e)
    case DurationCode => !DurationFits(e, output.duration)
    case FastStartCode => false
    case _ => StreamViolates(code, e, videos, audios)
  }

  // ---------------------------------------------------------------- the validator

  /** Sorts the streams, reporting the ones no contract declares. */
  method SortStreams(streams: seq<Stream>) returns (issues: seq<Code>, videos: seq<Stream>, audios: seq<Stream>)
    ensures videos == Videos(streams) && audios == Audios(streams)
    ensures |issues| == Strays(streams) && forall c :: c in issues ==> c == UndeclaredCode
  {
    issues, videos, audios := [], [], [];
    var i := 0;
    while i < |streams|
      invariant 0 <= i <= |streams|
      invariant videos == Videos(streams[..i]) && audios == Audios(streams[..i])
      invariant |issues| == Strays(streams[..i]) && forall c :: c in issues ==> c == UndeclaredCode
    {
      var s := streams[i];
      assert streams[..i + 1][..i] == streams[..i];
      if s.kind.VideoStream? {
        if s.attachedPic {
          issues := issues + [UndeclaredCode];
        } else {
          videos := videos + [s];
        }
      } else if s.kind.AudioStream? {
        audios := audios + [s];
      } else {
        issues := issues + [UndeclaredCode];
      }
      i := i + 1;
    }
    assert streams[..i] == streams;
  }

  method CheckMetadata(output: Probe) returns (issues: seq<Code>)
    ensures issues != [] <==> Sensitive(output)
    ensures forall c :: c in issues ==> c == MetadataCode
  {
    var found := Metadata.DetectSensitiveMetadata(output);
    issues := [];
    var categories := [found.gps, found.exif, found.xmp, found.gainMap];
    for i := 0 to |categories|
      invariant issues == [] <==> forall k :: 0 <= k < i ==> !categories[k]
      invariant forall c :: c in issues ==> c == MetadataCode
    {
      if categories[i] {
        issues := issues + [MetadataCode];
      }
    }
    assert found.gps == categories[0] && found.exif == categories[1] && found.xmp == categories[2]
        && found.gainMap == categories[3];
    SensitiveIff(Metadata.Tags(output));
  }

  /** One of the four categories is found exactly when some tag is sensitive. */
  lemma SensitiveIff(tags: set<string>)
    ensures Metadata.Reveal(tags, SENSITIVE_PARTS) <==> Metadata.Revealed(tags) != Metadata.NOTHING
  {
    Metadata.RevealAny(tags, Metadata.GPS_PARTS, Metadata.EXIF_PARTS);
    Metadata.RevealAny(tags, Metadata.XMP_PARTS, Metadata.GAIN_MAP_PARTS);
    Metadata.RevealAny(tags, Metadata.GPS_PARTS + Metadata.EXIF_PARTS, Metadata.XMP_PARTS + Metadata.GAIN_MAP_PARTS);
    assert SENSITIVE_PARTS
        == Metadata.GPS_PARTS + Metadata.EXIF_PARTS + (Metadata.XMP_PARTS + Metadata.GAIN_MAP_PARTS);
  }

  method CheckColors(e: Expected, video: Stream) returns (issues: seq<Code>)
    ensures issues == [] <==> ColorsFit(e, video)
    ensures forall c :: c in issues ==> c == ColorCode
  {
    issues := [];
    var colors := [(e.colorRange, video.colorRange), (e.colorSpace, video.colorSpace),
                   (e.colorTransfer, video.colorTransfer), (e.colorPrimaries, video.colorPrimaries)];
    for i := 0 to |colors|
      invariant issues == [] <==> forall k :: 0 <= k < i ==> ColorFits(colors[k].0, colors[k].1)
      invariant forall c :: c in issues ==> c == ColorCode
    {
      if colors[i].0 != "" && colors[i].1 != colors[i].0 {
        issues := issues + [ColorCode];
      }
    }
    assert colors[0].0 == e.colorRange && colors[1].0 == e.colorSpace && colors[2].0 == e.colorTransfer
           && colors[3].0 == e.colorPrimaries;
  }

  function If(b: bool, code: Code): (r: seq<Code>)
    ensures forall c :: c in r <==> b && c == code
  {
    if b then [code] else []
  }

  method CheckVideo(e: Expected, video: Stream) returns (issues: seq<Code>)
    ensures CodecCode in issues <==> video.codec != e.videoCodec
    ensures PixelFormatCode in issues <==> video.pixelFormat != e.pixelFormat
    ensures ColorCode in issues <==> !ColorsFit(e, video)
    ensures DimensionsCode in issues <==> video.width != e.width || video.height != e.height
    ensures RotationCode in issues <==> video.Rotation() != e.rotation
    ensures forall c :: c in issues ==> c in {CodecCode, PixelFormatCode, ColorCode, DimensionsCode, RotationCode}
  {
    issues := If(video.codec != e.videoCodec, CodecCode);
    issues := issues + If(video.pixelFormat != e.pixelFormat, PixelFormatCode);
    var colors := CheckColors(e, video);
    assert ColorCode in colors <==> colors != [] by {
      if colors != [] {
        assert colors[0] in colors;
      }
    }
    issues := issues + colors;
    issues := issues + If(video.width != e.width || video.height != e.height, DimensionsCode);
    issues := issues + If(video.Rotation() != e.rotation, RotationCode);
  }

  method CheckAudio(e: Expected, audio: Stream) returns (issues: seq<Code>)
    ensures CodecCode in issues <==> audio.codec != e.audioCodec
    ensures ChannelLayoutCode in issues <==> !LayoutFits(e, audio)
    ensures SampleRateCode in issues <==> !RateFits(e, audio)
    ensures forall c :: c in issues ==> c in {CodecCode, ChannelLayoutCode, SampleRateCode}
  {
    issues := If(audio.codec != e.audioCodec, CodecCode);
    issues := issues + If(e.channels > 0 && audio.channels != e.channels, ChannelLayoutCode);
    issues := issues + If(e.channelLayout != "" && audio.channelLayout != e.channelLayout, ChannelLayoutCode);
    issues := issues + If(e.sampleRate > 0 && audio.sampleRate != e.sampleRate, SampleRateCode);
  }

  /** Which streams there are, and whether they are as many as declared. */
  method CheckCounts(e: Expected, streams: seq<Stream>)
    returns (issues: seq<Code>, videos: seq<Stream>, audios: seq<Stream>)
    ensures videos == Videos(streams) && audios == Audios(streams)
    ensures UndeclaredCode in issues <==>
            Strays(streams) > 0 || |videos| > WantedVideos(e) || |audios| > WantedAudios(e)
    ensures StreamCountCode in issues <==> |videos| != WantedVideos(e)
    ensures AudioPresenceCode in issues <==> |audios| != WantedAudios(e)
    ensures forall c :: c in issues ==> c in {UndeclaredCode, StreamCountCode, AudioPresenceCode}
  {
    var strays: seq<Code>;
    strays, videos, audios := SortStreams(streams);
    assert UndeclaredCode in strays <==> |strays| > 0 by {
      if |strays| > 0 {
        assert strays[0] in strays;
      }
    }
    issues := strays + If(|videos| != WantedVideos(e), StreamCountCode);
    var surplus := Surplus(|videos|, WantedVideos(e));
    issues := issues + surplus;
    issues := issues + If(|audios| != WantedAudios(e), AudioPresenceCode);
    surplus := Surplus(|audios|, WantedAudios(e));
    issues := issues + surplus;
  }

  /** One report for every stream past the expected number. */
  method Surplus(count: nat, expected: nat) returns (issues: seq<Code>)
    ensures |issues| == if count > expected then count - expected else 0
    ensures UndeclaredCode in issues <==> count > expected
    ensures forall c :: c in issues ==> c == UndeclaredCode
  {
    issues := [];
    for i := expected to if count > expected then count else expected
      invariant |issues| == i - expected && (UndeclaredCode in issues <==> i > expected)
      invariant forall c :: c in issues ==> c == UndeclaredCode
    {
      issues := issues + [UndeclaredCode];
    }
  }

  /** The checks of the first video and audio stream. */
  method CheckStreams(e: Expected, videos: seq<Stream>, audios: seq<Stream>) returns (issues: seq<Code>)
    ensures forall c :: c in issues <==> StreamViolates(c, e, videos, audios)
  {
    var video: seq<Code> := [];
    if WantedVideos(e) == 1 && |videos| > 0 {
      video := CheckVideo(e, videos[0]);
    }
    var audio: seq<Code> := [];
    if WantedAudios(e) == 1 && |audios| > 0 {
      audio := CheckAudio(e, audios[0]);
    }
    issues := video + audio;
    forall c ensures c in issues <==> StreamViolates(c, e, videos, audios) {
      assert c in issues <==> c in video || c in audio;
    }
  }

  /** A stream clause has a code of its own. */
  lemma CodesApart(code: Code, e: Expected, videos: seq<Stream>, audios: seq<Stream>)
    ensures StreamViolates(code, e, videos, audios) ==>
              code !in {MetadataCode, ContainerCode, UndeclaredCode, StreamCountCode, AudioPresenceCode, DurationCode,
                        FastStartCode}
  {
  }

  /** Reports a code exactly when its clause is violated. */
  method ValidateProbe(e: Expected, output: Probe) returns (issues: seq<Code>)
    ensures forall c :: c in issues <==> Violates(c, e, output)
  {
    var metadata := CheckMetadata(output);
    assert MetadataCode in metadata <==> metadata != [] by {
      if metadata != [] {
        assert metadata[0] in metadata;
      }
    }
    var matches := ContainerMatches(e.container, output.formatName);
    var container := If(!matches, ContainerCode);
    var counts, videos, audios := CheckCounts(e, output.streams);
    var streams := CheckStreams(e, videos, audios);
    var duration := If(!DurationFits(e, output.duration), DurationCode);
    issues := metadata + container + counts + streams + duration;
    forall c ensures c in issues <==> Violates(c, e, output) {
      assert c in issues <==> c in metadata || c in container || c in counts || c in streams || c in duration;
      CodesApart(c, e, videos, audios);
    }
  }

  /** The probe checks and, for formats that need it, the box order of the file. */
  method ValidateOutput(e: Expected, output: Probe, file: Option<seq<Mp4.byte>>) returns (issues: seq<Code>)
    ensures issues == [] <==> Accepted(e, output, file)
  {
    issues := ValidateProbe(e, output);
    ghost var found := issues;
    assert found == [] <==> forall c :: !Violates(c, e, output) by {
      if found != [] {
        assert found[0] in found;
      }
    }
    if e.fastStart {
      if file.None? {
        issues := issues + [FastStartCode];
      } else {
        var fast, _ := Mp4.HasFastStart(file.value, |file.value|);
        if fast != Ok(true) {
          issues := issues + [FastStartCode];
        }
      }
    }
  }

  ghost predicate FastStartFits(e: Expected, file: Option<seq<Mp4.byte>>) {
    e.fastStart ==> file.Some? && Mp4.Walk(file.value, |file.value|, 0, false) == Ok(true)
  }

  ghost predicate Accepted(e: Expected, output: Probe, file: Option<seq<Mp4.byte>>) {
    (forall c :: !Violates(c, e, output)) && FastStartFits(e, file)
  }

  // ---------------------------------------------------------------- what being accepted means

  ghost predicate VideoConforms(e: Expected, s: Stream) {
    && PlainVideo(s) && s.codec == e.videoCodec && s.pixelFormat == e.pixelFormat && ColorsFit(e, s)
    && s.width == e.width && s.height == e.height && s.Rotation() == e.rotation
  }

  ghost predicate AudioConforms(e: Expected, s: Stream) {
    s.kind.AudioStream? && s.codec == e.audioCodec && LayoutFits(e, s) && RateFits(e, s)
  }

  /** Exactly the declared streams, each as declared, in either order. */
  ghost predicate StreamsConform(e: Expected, streams: seq<Stream>) {
    && |streams| == WantedVideos(e) + WantedAudios(e)
    && (WantedVideos(e) == 1 ==> exists i :: 0 <= i < |streams| && VideoConforms(e, streams[i]))
    && (WantedAudios(e) == 1 ==> exists i :: 0 <= i < |streams| && AudioConforms(e, streams[i]))
  }

  lemma {:induction false} Partition(streams: seq<Stream>)
    ensures |Videos(streams)| + |Audios(streams)| + Strays(streams) == |streams|
  {
    if streams != [] {
      Partition(streams[..|streams| - 1]);
    }
  }

  lemma {:induction false} VideosAre(streams: seq<Stream>, s: Stream)
    ensures s in Videos(streams) <==> s in streams && PlainVideo(s)
    ensures s in Audios(streams) <==> s in streams && s.kind.AudioStream?
  {
    if streams != [] {
      VideosAre(streams[..|streams| - 1], s);
      assert streams == streams[..|streams| - 1] + [streams[|streams| - 1]];
    }
  }

  /** The stream clauses without their codes. */
  ghost predicate StreamClauses(e: Expected, streams: seq<Stream>) {
    var videos, audios := Videos(streams), Audios(streams);
    && Strays(streams) == 0 && |videos| == WantedVideos(e) && |audios| == WantedAudios(e)
    && (videos != [] ==> VideoConforms(e, videos[0]))
    && (audios != [] ==> AudioConforms(e, audios[0]))
  }

  /** The stream clauses together say that the file holds exactly the declared streams
      and nothing else. */
  lemma StreamClausesMean(e: Expected, streams: seq<Stream>)
    ensures StreamClauses(e, streams) <==> StreamsConform(e, streams)
  {
    Partition(streams);
    if StreamsConform(e, streams) {
      ConformingStreams(e, streams);
    }
    if StreamClauses(e, streams) {
      if WantedVideos(e) == 1 {
        VideosAre(streams, Videos(streams)[0]);
      }
      if WantedAudios(e) == 1 {
        VideosAre(streams, Audios(streams)[0]);
      }
    }
  }

  ghost predicate OtherClauses(e: Expected, output: Probe) {
    && !Sensitive(output)
    && ContainerFits(e.container, output.formatName)
    && DurationFits(e, output.duration)
  }

  lemma CodesAreClauses(e: Expected, output: Probe)
    ensures (forall c :: !Violates(c, e, output)) <==> StreamClauses(e, output.streams) && OtherClauses(e, output)
  {
    if forall c :: !Violates(c, e, output) {
      NoCodeMeans(e, output);
    }
    if StreamClauses(e, output.streams) && OtherClauses(e, output) {
      forall c ensures !Violates(c, e, output) {
        ClausesClearCode(e, output, c);
      }
    }
  }

  lemma ClausesClearCode(e: Expected, output: Probe, c: Code)
    requires StreamClauses(e, output.streams) && OtherClauses(e, output)
    ensures !Violates(c, e, output)
  {
  }

  lemma NoCodeMeans(e: Expected, output: Probe)
    requires forall c :: !Violates(c, e, output)
    ensures StreamClauses(e, output.streams) && OtherClauses(e, output)
  {
    var videos, audios := Videos(output.streams), Audios(output.streams);
    FirstsAreOfTheirKind(output.streams);
    CountCodesClear(e, output);
    OtherCodesClear(e, output);
    forall c | c in {CodecCode, PixelFormatCode, ColorCode, DimensionsCode, RotationCode, ChannelLayoutCode,
                     SampleRateCode}
      ensures !StreamViolates(c, e, videos, audios)
    {
      assert !Violates(c, e, output);
    }
    StreamCodesClear(e, videos, audios);
  }

  lemma CountCodesClear(e: Expected, output: Probe)
    requires forall c :: !Violates(c, e, output)
    ensures Strays(output.streams) == 0
    ensures |Videos(output.streams)| == WantedVideos(e) && |Audios(output.streams)| == WantedAudios(e)
  {
    assert !Violates(UndeclaredCode, e, output);
    assert !Violates(StreamCountCode, e, output);
    assert !Violates(AudioPresenceCode, e, output);
  }

  lemma OtherCodesClear(e: Expected, output: Probe)
    requires !Violates(MetadataCode, e, output) && !Violates(ContainerCode, e, output)
             && !Violates(DurationCode, e, output)
    ensures OtherClauses(e, output)
  {
  }

  lemma StreamCodesClear(e: Expected, videos: seq<Stream>, audios: seq<Stream>)
    requires |videos| == WantedVideos(e) && |audios| == WantedAudios(e)
    requires forall c | c in {CodecCode, PixelFormatCode, ColorCode, DimensionsCode, RotationCode, ChannelLayoutCode,
                              SampleRateCode} :: !StreamViolates(c, e, videos, audios)
    ensures videos != [] && PlainVideo(videos[0]) ==> VideoConforms(e, videos[0])
    ensures audios != [] && audios[0].kind.AudioStream? ==> AudioConforms(e, audios[0])
  {
    assert !StreamViolates(CodecCode, e, videos, audios);
    assert !StreamViolates(PixelFormatCode, e, videos, audios);
    assert !StreamViolates(ColorCode, e, videos, audios);
    assert !StreamViolates(DimensionsCode, e, videos, audios);
    assert !StreamViolates(RotationCode, e, videos, audios);
    assert !StreamViolates(ChannelLayoutCode, e, videos, audios);
    assert !StreamViolates(SampleRateCode, e, videos, audios);
  }

  lemma FirstsAreOfTheirKind(streams: seq<Stream>)
    ensures Videos(streams) != [] ==> PlainVideo(Videos(streams)[0])
    ensures Audios(streams) != [] ==> Audios(streams)[0].kind.AudioStream?
  {
    if Videos(streams) != [] {
      VideosAre(streams, Videos(streams)[0]);
    }
    if Audios(streams) != [] {
      VideosAre(streams, Audios(streams)[0]);
    }
  }

  lemma ConformingStreams(e: Expected, streams: seq<Stream>)
    requires StreamsConform(e, streams)
    ensures |Videos(streams)| == WantedVideos(e) && |Audios(streams)| == WantedAudios(e) && Strays(streams) == 0
    ensures WantedVideos(e) == 1 ==> VideoConforms(e, Videos(streams)[0])
    ensures WantedAudios(e) == 1 ==> AudioConforms(e, Audios(streams)[0])
  {
    Partition(streams);
    if WantedVideos(e) == 1 {
      var i :| 0 <= i < |streams| && VideoConforms(e, streams[i]);
      VideosAre(streams, streams[i]);
    }
    if WantedAudios(e) == 1 {
      var i :| 0 <= i < |streams| && AudioConforms(e, streams[i]);
      VideosAre(streams, streams[i]);
    }
  }

  /** Sound and complete: a file is accepted exactly when it holds the declared
      streams and no others, carries no sensitive metadata, and fits container,
      duration and box order. */
  lemma AcceptedMeans(e: Expected, output: Probe, file: Option<seq<Mp4.byte>>)
    ensures Accepted(e, output, file) <==>
            && StreamsConform(e, output.streams)
            && !Sensitive(output)
            && ContainerFits(e.container, output.formatName)
            && DurationFits(e, output.duration)
            && FastStartFits(e, file)
  {
    StreamClausesMean(e, output.streams);
    CodesAreClauses(e, output);
  }
}
