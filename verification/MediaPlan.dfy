/** Building one FFmpeg invocation and its output contract.

    An argument list is kept as structured options, in the order the builders append
    them; `Interpret` says what a list means, option by option. */
module MediaPlan {
  import opened Options
  import opened Profiles
  import opened ProfileRegistry
  import opened Names
  import opened Texts
  import opened Streams
  import Dimensions

  // ---------------------------------------------------------------- options and plans

  datatype PixelFormat = YUV420P | NV12 | GBRPF32LE

  datatype Encoder = Libx264 | H264VAAPI | AACEncoder | Libmp3lame | FLACEncoder

  datatype Filter =
    | LinearLight
    | ToneMap
    | ToBt709
    | Scale(width: int, height: int)
    | ScaleVaapi(width: int, height: int, format: PixelFormat)
    | FormatAs(format: PixelFormat)
    | HwUpload

  /** Options that say how FFmpeg runs; of these only the place of decoded frames bears
      on what it produces. */
  datatype RunOption =
    | HideBanner | LogLevel | NoStdin | Overwrite | ProgressPipe | NoStats
    | InitHwDevice(device: string) | FilterHwDevice
    | HwAccel | HwAccelDevice | HwAccelOutputFormat
    | ProtocolWhitelist

  datatype DropOption = ContainerTags | StreamTags | Chapters | Subtitles | DataStreams | VideoStreams

  datatype FrameOption =
    | VideoEncoder(encoder: Encoder) | Preset | Crf(level: string) | Qp(level: string)
    | VideoFilter(filters: seq<Filter>) | PixFmt(format: PixelFormat)
    | ColorPrimaries(value: string) | ColorTransfer(value: string) | ColorSpace(value: string) | ColorRange(value: string)

  datatype SoundOption =
    | AudioEncoder(encoder: Encoder) | AudioBitrate(rate: string) | AudioChannels(count: int) | AudioRate(hertz: int)
    | CompressionLevel

  datatype Opt =
    | Running(run: RunOption)
    | Input(path: string)
    | MapStream(index: int)
    | Dropping(drop: DropOption)
    | Framing(frame: FrameOption)
    | Sounding(sound: SoundOption)
    | FastStartFlag
    | Container(name: string)
    | Output(path: string)

  datatype AudioPresence = AudioUnset | AudioRequired | AudioForbidden

  datatype Expected = Expected(
    container: string,
    videoCodec: string,
    audioCodec: string,
    pixelFormat: string,
    colorRange: string,
    colorSpace: string,
    colorTransfer: string,
    colorPrimaries: string,
    width: int,
    height: int,
    rotation: int,
    audioPresence: AudioPresence,
    channels: int,
    channelLayout: string,
    sampleRate: int,
    duration: Option<nat>,
    tolerance: nat,
    fastStart: bool)

  /** How many streams of a kind a contract declares. */
  function WantedVideos(e: Expected): nat { if e.videoCodec != "" then 1 else 0 }

  function WantedAudios(e: Expected): nat { if e.audioPresence.AudioRequired? then 1 else 0 }

  datatype Mode = AutoMode | CPUMode | VAAPIMode

  datatype ExecutionPath = CPUPath | SoftwareDecode | HardwareDecode

  /** `NoFallback` is the empty reason; the others are recorded, never interpreted. */
  datatype FallbackReason = NoFallback | ProbeUnavailable | Recorded(name: string)

  /** Only what the two fields say, before defaults. */
  datatype AccelerationConfig = AccelerationConfig(mode: string, device: string)

  datatype Readiness = Readiness(
    device: string, ready: bool, complete: bool, hardwareCodecs: set<string>, reason: FallbackReason)

  datatype Request = Request(
    operation: Operation,
    inputPath: string,
    outputPath: string,
    probe: Probe,
    timeout: int,
    tolerance: int,
    acceleration: AccelerationConfig,
    vaapi: Option<Readiness>)

  datatype Plan = Plan(
    operation: Operation,
    args: seq<Opt>,
    outputPath: string,
    timeout: int,
    warnings: seq<Warning>,
    requiredFilters: seq<string>,
    expected: Expected,
    requested: Mode,
    path: ExecutionPath,
    fallback: FallbackReason,
    cpuArgs: seq<Opt>)

  datatype PlanError =
    | InvalidRequest
    | NoUsableVideo
    | NoSupportedAudio
    | UnsupportedHDR
    | UnsupportedLosslessAudio
    | AccelerationUnavailable

  const DEFAULT_TOLERANCE: nat := 1_000_000_000
  const DEFAULT_DEVICE := "/dev/dri/renderD128"

  // ---------------------------------------------------------------- checks of the request

  /** A colon before any separator would read as a protocol. */
  predicate LocalPath(path: string) {
    !ColonFirst(path) && '\0' !in path
  }

  predicate ColonFirst(path: string) {
    path != "" && (path[0] == ':' || (path[0] != '/' && path[0] != '\\' && ColonFirst(path[1..])))
  }

  predicate CleanAbsolute(path: string) {
    && path != "" && path[0] == '/'
    && (path == "/" || forall part :: part in Split(path[1..], '/') ==> part != "" && part != "." && part != "..")
  }

  function ModeOf(text: string): Option<Mode> {
    if text == "" || text == "auto" then Some(AutoMode)
    else if text == "cpu" then Some(CPUMode)
    else if text == "vaapi" then Some(VAAPIMode)
    else None
  }

  predicate UsableDevice(device: string) {
    TrimSpace(device) == device && '\0' !in device && CleanAbsolute(device) && LocalPath(device)
  }

  function NormalizeAcceleration(config: AccelerationConfig): Option<(Mode, string)> {
    var device := if config.device == "" then DEFAULT_DEVICE else config.device;
    if ModeOf(config.mode).None? || !UsableDevice(device) then None
    else Some((ModeOf(config.mode).value, device))
  }

  // ---------------------------------------------------------------- decisions about the input

  predicate IsHDR(s: Stream) {
    s.colorTransfer == "smpte2084" || s.colorTransfer == "arib-std-b67" || s.colorPrimaries == "bt2020"
  }

  predicate SupportsToneMapping(s: Stream) {
    && (s.colorTransfer == "smpte2084" || s.colorTransfer == "arib-std-b67")
    && s.colorPrimaries == "bt2020" && s.colorSpace == "bt2020nc"
  }

  predicate LossyFLACSource(s: Stream) {
    || "pcm_f" <= s.codec || "pcm_s64" <= s.codec || "pcm_u64" <= s.codec
    || s.bits > 24
    || (s.bits <= 0 && ("pcm_s32" <= s.codec || "pcm_u32" <= s.codec))
  }

  function DisplayedDimensions(video: Stream): (int, int) {
    if video.Rotation() == 90 || video.Rotation() == 270 then (video.height, video.width)
        else (video.width, video.height)
  }

  function TargetSize(video: Stream, smaller: bool): (int, int)
    requires UsableVideo(video)
  {
    var (w, h) := DisplayedDimensions(video);
    if smaller then Dimensions.FitDimensions(w, h, 1280, 720) else (Dimensions.EvenFloor(w), Dimensions.EvenFloor(h))
  }

  /** The longest known duration of the selected streams, else the container's. */
  function VideoDuration(probe: Probe, selection: Selection): Option<nat> {
    var video := if selection.video.Some? then selection.video.value.duration else None;
    var audio := if selection.audio.Some? then selection.audio.value.duration else None;
    var known := if audio.Some? && (video.None? || audio.value > video.value) then audio else video;
    if known.Some? then known else probe.duration
  }

  function AudioDuration(probe: Probe, selection: Selection): Option<nat> {
    if selection.audio.Some? && selection.audio.value.duration.Some? then selection.audio.value.duration
    else probe.duration
  }

  predicate UsesHardware(video: Stream, readiness: Readiness) {
    && !IsHDR(video) && video.Rotation() == 0 && video.pixelFormat == "yuv420p"
    && Lowered(TrimSpace(video.codec)) in readiness.hardwareCodecs
  }

  predicate Accelerates(vaapi: Option<Readiness>, device: string) {
    vaapi.Some? && vaapi.value.ready && vaapi.value.complete && vaapi.value.device == device
  }

  // ---------------------------------------------------------------- argument lists

  function Banner(): seq<Opt> {
    [Running(HideBanner), Running(LogLevel), Running(NoStdin), Running(Overwrite)]
    + [Running(ProgressPipe), Running(NoStats)]
  }

  function InputArgs(path: string): seq<Opt> { Banner() + [Running(ProtocolWhitelist), Input(path)] }

  function AudioMap(selection: Selection): seq<Opt> {
    if selection.audio.Some? then [MapStream(selection.audio.value.index)] else []
  }

  function StripArgs(): seq<Opt> { [Dropping(ContainerTags), Dropping(StreamTags), Dropping(Chapters)] }

  function SoftwareFilter(width: int, height: int, format: PixelFormat, hdr: bool): seq<Filter> {
    if hdr then [LinearLight, FormatAs(GBRPF32LE), ToneMap, ToBt709, Scale(width, height), FormatAs(format)]
    else if format.YUV420P? then [Scale(width, height)]
    else [Scale(width, height), FormatAs(format)]
  }

  function ColorArgs(hdr: bool): seq<Opt> {
    if hdr then [Framing(ColorPrimaries("bt709")), Framing(ColorTransfer("bt709")), Framing(ColorSpace("bt709")),
                 Framing(ColorRange("tv"))] else []
  }

  function AACArgs(bitrate: string): seq<Opt> {
    [Sounding(AudioEncoder(AACEncoder)), Sounding(AudioBitrate(bitrate)), Sounding(AudioChannels(2)),
     Sounding(AudioRate(48000))]
  }

  function VideoAudioArgs(selection: Selection, smaller: bool): seq<Opt> {
    if selection.audio.Some? then AACArgs(if smaller then "128k" else "192k") else []
  }

  function MP4Args(output: string): seq<Opt> { [FastStartFlag, Container("mp4"), Output(output)] }

  function Level(smaller: bool): string { if smaller then "28" else "20" }

  /** The software encode. */
  function VideoArgs(input: string, output: string, selection: Selection, smaller: bool): seq<Opt>
    requires selection.video.Some? && UsableVideo(selection.video.value)
  {
    var video := selection.video.value;
    var (w, h) := TargetSize(video, smaller);
    InputArgs(input) + [MapStream(video.index)] + AudioMap(selection)
    + StripArgs() + [Dropping(Subtitles), Dropping(DataStreams)]
    + [Framing(VideoEncoder(Libx264)), Framing(Preset), Framing(Crf(Level(smaller)))]
    + [Framing(VideoFilter(SoftwareFilter(w, h, YUV420P, IsHDR(video)))), Framing(PixFmt(YUV420P))]
    + ColorArgs(IsHDR(video)) + VideoAudioArgs(selection, smaller) + MP4Args(output)
  }

  /** The hardware encode, with either decoder. */
  function VAAPIArgs(input: string, output: string, selection: Selection, smaller: bool, device: string, hardware: bool)
    : seq<Opt>
    requires selection.video.Some? && UsableVideo(selection.video.value)
  {
    var video := selection.video.value;
    var (w, h) := TargetSize(video, smaller);
    Banner() + [Running(InitHwDevice(device)), Running(FilterHwDevice)]
    + (if hardware then [Running(HwAccel), Running(HwAccelDevice), Running(HwAccelOutputFormat)] else [])
    + [Running(ProtocolWhitelist), Input(input)] + [MapStream(video.index)] + AudioMap(selection)
    + StripArgs() + [Dropping(Subtitles), Dropping(DataStreams)]
    + [Framing(VideoEncoder(H264VAAPI)), Framing(Qp(Level(smaller)))]
    + [Framing(VideoFilter(if hardware then [ScaleVaapi(w, h, NV12)]
                           else SoftwareFilter(w, h, NV12, IsHDR(video)) + [HwUpload]))]
    + ColorArgs(IsHDR(video)) + VideoAudioArgs(selection, smaller) + MP4Args(output)
  }

  function AudioHead(input: string, audio: Stream): seq<Opt> {
    InputArgs(input) + [MapStream(audio.index)] + StripArgs()
        + [Dropping(VideoStreams), Dropping(Subtitles), Dropping(DataStreams)]
  }

  function AACAudioArgs(input: string, output: string, audio: Stream): seq<Opt> {
    AudioHead(input, audio) + AACArgs("192k") + MP4Args(output)
  }

  function MP3AudioArgs(input: string, output: string, audio: Stream): seq<Opt> {
    AudioHead(input, audio) + [Sounding(AudioEncoder(Libmp3lame)), Sounding(AudioBitrate("192k")),
                               Sounding(AudioChannels(2)), Sounding(AudioRate(48000))]
    + [Container("mp3"), Output(output)]
  }

  function FLACAudioArgs(input: string, output: string, audio: Stream): seq<Opt> {
    AudioHead(input, audio) + [Sounding(AudioEncoder(FLACEncoder)), Sounding(CompressionLevel)]
        + [Container("flac"), Output(output)]
  }

  // ---------------------------------------------------------------- contracts

  function BlankExpected(duration: Option<nat>, tolerance: nat): Expected {
    Expected("", "", "", "", "", "", "", "", 0, 0, 0, AudioUnset, 0, "", 0, duration, tolerance, false)
  }

  function VideoExpected(selection: Selection, smaller: bool, duration: Option<nat>, tolerance: nat): Expected
    requires selection.video.Some? && UsableVideo(selection.video.value)
  {
    var (w, h) := TargetSize(selection.video.value, smaller);
    var audio := selection.audio.Some?;
    var e := BlankExpected(duration, tolerance).(
      videoCodec := "h264", audioCodec := if audio then "aac" else "", pixelFormat := "yuv420p",
      width := w, height := h, audioPresence := if audio then AudioRequired else AudioForbidden,
      channels := if audio then 2 else 0, channelLayout := if audio then "stereo" else "",
      sampleRate := if audio then 48000 else 0, fastStart := true);
    if IsHDR(selection.video.value)
    then e.(colorRange := "tv", colorSpace := "bt709", colorTransfer := "bt709", colorPrimaries := "bt709")
    else e
  }

  function AudioExpected(codec: string, channels: int, layout: string, rate: int, fast: bool,
                         duration: Option<nat>, tolerance: nat): Expected
  {
    BlankExpected(duration, tolerance).(
      audioCodec := codec, audioPresence := AudioRequired, channels := channels, channelLayout := layout,
      sampleRate := rate, fastStart := fast)
  }

  // ---------------------------------------------------------------- the plan a request determines

  /** What the chosen operation needs of the input; the same in every mode. */
  function Rejection(operation: Operation, selection: Selection): Option<PlanError> {
    match operation
    case CompatibleVideo => VideoRejection(selection)
    case SmallerVideo => VideoRejection(selection)
    case ExtractAudio => if selection.audio.None? then Some(NoSupportedAudio) else None
    case CompatibleAudio => if selection.audio.None? then Some(NoSupportedAudio) else None
    case LosslessAudio =>
      if selection.audio.None? then Some(NoSupportedAudio)
      else if LossyFLACSource(selection.audio.value) then Some(UnsupportedLosslessAudio)
      else None
    case _ => Some(InvalidRequest)
  }

  function VideoRejection(selection: Selection): Option<PlanError> {
    if selection.video.None? then Some(NoUsableVideo)
    else if IsHDR(selection.video.value) && !SupportsToneMapping(selection.video.value) then Some(UnsupportedHDR)
    else None
  }

  predicate VideoOperation(operation: Operation) {
    operation.CompatibleVideo? || operation.SmallerVideo?
  }

  lemma SelectedVideoUsable(streams: seq<Stream>)
    ensures Select(streams).video.Some? ==> UsableVideo(Select(streams).video.value)
  {
    var found := First(streams, SelectableVideo);
    if found.Some? {
      var i :| 0 <= i < |streams| && streams[i] == found.value && SelectableVideo(found.value);
    }
  }

  /** The plan in software, before acceleration is looked at. */
  function SoftwarePlan(request: Request, mode: Mode): Result<Plan, PlanError> {
    var selection := Select(request.probe.streams);
    var tolerance: nat := if request.tolerance <= 0 then DEFAULT_TOLERANCE else request.tolerance;
    var blank := Plan(request.operation, [], request.outputPath, request.timeout, selection.warnings, [],
                      BlankExpected(None, tolerance), mode, CPUPath, NoFallback, []);
    var rejection := Rejection(request.operation, selection);
    if rejection.Some? then Err(rejection.value)
    else
      SelectedVideoUsable(request.probe.streams);
      var container := Lookup(request.operation).value.container;
      if VideoOperation(request.operation) then
        var smaller := request.operation.SmallerVideo?;
        Ok(blank.(args := VideoArgs(request.inputPath, request.outputPath, selection, smaller),
                  requiredFilters := if IsHDR(selection.video.value) then ["zscale", "tonemap"] else [],
                  expected := VideoExpected(selection, smaller, VideoDuration(request.probe, selection), tolerance).(
                                container := container)))
      else
        var audio, duration := selection.audio.value, AudioDuration(request.probe, selection);
        if request.operation.ExtractAudio? then
          Ok(blank.(args := AACAudioArgs(request.inputPath, request.outputPath, audio),
                    expected :=
                      AudioExpected("aac", 2, "stereo", 48000, true, duration, tolerance).(container := container)))
        else if request.operation.CompatibleAudio? then
          Ok(blank.(args := MP3AudioArgs(request.inputPath, request.outputPath, audio),
                    expected :=
                      AudioExpected("mp3", 2, "stereo", 48000, false, duration, tolerance).(container := container)))
        else
          Ok(blank.(args := FLACAudioArgs(request.inputPath, request.outputPath, audio),
                    expected := AudioExpected("flac", audio.channels, audio.channelLayout, audio.sampleRate, false,
                                              duration, tolerance).(container := container)))
  }

  /** Acceleration of a finished software plan of a video operation. */
  function Accelerated(plan: Plan, request: Request, mode: Mode, device: string): Result<Plan, PlanError>
    requires SoftwarePlan(request, mode) == Ok(plan) && VideoOperation(request.operation)
  {
    var selection := Select(request.probe.streams);
    SelectedVideoUsable(request.probe.streams);
    if mode.CPUMode? then Ok(plan)
    else if !Accelerates(request.vaapi, device) then
      if mode.VAAPIMode? then Err(AccelerationUnavailable)
      else Ok(plan.(fallback := if request.vaapi.Some? && request.vaapi.value.reason != NoFallback
                                then request.vaapi.value.reason else ProbeUnavailable))
    else
      var hardware := UsesHardware(selection.video.value, request.vaapi.value);
      Ok(plan.(cpuArgs := plan.args,
               args := VAAPIArgs(request.inputPath, request.outputPath, selection, request.operation.SmallerVideo?,
                                 device, hardware),
               path := if hardware then HardwareDecode else SoftwareDecode))
  }

  predicate WellFormed(request: Request) {
    && request.inputPath != "" && request.outputPath != ""
    && LocalPath(request.inputPath) && LocalPath(request.outputPath)
    && request.timeout >= 0 && request.tolerance >= 0
  }

  function PlanFor(request: Request): Result<Plan, PlanError> {
    if !WellFormed(request) then Err(InvalidRequest)
    else
      var acceleration := NormalizeAcceleration(request.acceleration);
      if acceleration.None? then Err(InvalidRequest)
      else
        var (mode, device) := acceleration.value;
        var software := SoftwarePlan(request, mode);
        if software.Err? || !VideoOperation(request.operation) then software
        else Accelerated(software.value, request, mode, device)
  }

  // ---------------------------------------------------------------- what an argument list means

  datatype Codec = NoCodec | H264 | AAC | MP3 | FLAC

  /** The sampling of a frame format; the two video encoders name the same one apart. */
  datatype Layout = NoLayout | Planar420 | PlanarFloat | OtherLayout

  /** What the frames are before anything is done to them, and the codecs and pixel
      formats that the device decodes, which may be more than its probe tried. */
  datatype Source = Source(rotation: int, pixelFormat: string, codec: string, decodable: set<(string, string)>)

  /** The two encoders control their rate in different ways, each by one number. */
  datatype Rate = NoRate | ConstantRate(level: string) | ConstantQuantizer(level: string)

  datatype Drops = Drops(containerTags: bool, streamTags: bool, chapters: bool, subtitles: bool, data: bool,
                         video: bool)

  datatype Tags = Tags(primaries: string, transfer: string, space: string, range: string)

  /** The frames as they go through: how far they are still turned, what the filters did
      to them, whether they are in the device's memory, and whether some step got frames
      it cannot work on. */
  datatype Frames = Frames(encoder: Option<Encoder>, rate: Rate, turned: int, width: int, height: int, layout: Layout,
                           toneMapped: bool, frameColor: string, tags: Tags, onDevice: bool, broken: bool)

  datatype Sound = Sound(codec: Codec, bitrate: string, channels: int, sampleRate: int)

  /** What an invocation does with a source; defaults are empty.  `surfaces` says that
      frames are decoded by the device into its own memory. */
  datatype Effect = Effect(
    source: Source,
    surfaces: bool,
    input: string,
    maps: seq<int>,
    drops: Drops,
    frames: Frames,
    sound: Sound,
    fastStart: bool,
    container: string,
    output: string)

  const NO_TAGS := Tags("", "", "", "")
  const NO_FRAMES := Frames(None, NoRate, 0, 0, 0, NoLayout, false, "", NO_TAGS, false, false)
  const NO_SOURCE := Source(0, "", "", {})
  const NO_SOUND := Sound(NoCodec, "", 0, 0)
  const NOTHING := Effect(NO_SOURCE, false, "", [], Drops(false, false, false, false, false, false), NO_FRAMES, NO_SOUND,
                          false, "", "")

  function From(source: Source): Effect { NOTHING.(source := source) }

  /** A source as the request's probe reports it, on a device that decodes at least what
      the acceleration report says it decoded. */
  ghost predicate Describes(request: Request, source: Source) {
    var video := Select(request.probe.streams).video;
    && (video.Some? ==> source.rotation == video.value.Rotation() && source.pixelFormat == video.value.pixelFormat
                        && source.codec == video.value.codec)
    && (request.vaapi.Some? ==> forall codec :: codec in request.vaapi.value.hardwareCodecs ==>
                                                  Decodes(source, codec, "yuv420p"))
  }

  predicate Decodes(source: Source, codec: string, pixelFormat: string) {
    (codec, pixelFormat) in source.decodable
  }

  /** The one whose device decodes nothing else. */
  function LeastSource(request: Request): (source: Source)
    ensures Describes(request, source)
    ensures request.vaapi.Some? ==> forall codec, format :: Decodes(source, codec, format) ==>
                                                              codec in request.vaapi.value.hardwareCodecs
                                                              && format == "yuv420p"
  {
    var video := Select(request.probe.streams).video;
    var codecs := if request.vaapi.Some? then request.vaapi.value.hardwareCodecs else {};
    var decodable := set codec | codec in codecs :: (codec, "yuv420p");
    if video.None? then NO_SOURCE.(decodable := decodable)
    else Source(video.value.Rotation(), video.value.pixelFormat, video.value.codec, decodable)
  }

  function CodecOf(encoder: Encoder): Codec {
    match encoder
    case Libx264 => H264
    case H264VAAPI => H264
    case AACEncoder => AAC
    case Libmp3lame => MP3
    case FLACEncoder => FLAC
  }

  function FrameCodec(e: Frames): Codec {
    if e.encoder.Some? then CodecOf(e.encoder.value) else NoCodec
  }

  /** The name a probe reports a codec by. */
  function CodecName(codec: Codec): string {
    match codec
    case NoCodec => ""
    case H264 => "h264"
    case AAC => "aac"
    case MP3 => "mp3"
    case FLAC => "flac"
  }

  function LayoutOf(format: PixelFormat): Layout {
    if format.GBRPF32LE? then PlanarFloat else Planar420
  }

  function SourceLayout(source: Source): Layout {
    if source.pixelFormat == "yuv420p" then Planar420 else OtherLayout
  }

  predicate DeviceDecodes(source: Source) {
    Decodes(source, Lowered(TrimSpace(source.codec)), source.pixelFormat)
  }

  /** The frames a filter graph gets.  The software decoder turns them upright; the device
      hands them over as they were coded, in its own memory, if it can decode them. */
  function Decoded(e: Effect): Frames {
    e.frames.(layout := SourceLayout(e.source), turned := if e.surfaces then e.source.rotation else 0,
              onDevice := e.surfaces, broken := e.surfaces && !DeviceDecodes(e.source))
  }

  /** A step that works on frames in main memory. */
  function OnHost(e: Frames): Frames { e.(broken := e.broken || e.onDevice) }

  function ApplyFilter(e: Frames, f: Filter): Frames {
    match f
    case LinearLight => OnHost(e)
    case ToneMap => OnHost(e).(toneMapped := true)
    case ToBt709 => OnHost(e).(frameColor := "bt709")
    case Scale(w, h) => OnHost(e).(width := w, height := h)
    case FormatAs(format) => OnHost(e).(layout := LayoutOf(format))
    case HwUpload => OnHost(e).(onDevice := true)
    case ScaleVaapi(w, h, format) =>
      e.(width := w, height := h, layout := LayoutOf(format), broken := e.broken || !e.onDevice)
  }

  /** Each encoder takes frames from its own kind of memory. */
  function Encoded(e: Frames): Frames {
    e.(broken := e.broken || (e.encoder == Some(H264VAAPI) && !e.onDevice) || (e.encoder == Some(Libx264) && e.onDevice))
  }

  function ApplyFilters(e: Frames, filters: seq<Filter>): Frames
    decreases |filters|
  {
    if filters == [] then e else ApplyFilters(ApplyFilter(e, filters[0]), filters[1..])
  }

  function ApplyToFrames(e: Frames, o: FrameOption): Frames {
    match o
    case VideoEncoder(encoder) => e.(encoder := Some(encoder))
    case Preset => e
    case Crf(level) => e.(rate := ConstantRate(level))
    case Qp(level) => e.(rate := ConstantQuantizer(level))
    case VideoFilter(filters) => ApplyFilters(e, filters)
    case PixFmt(format) => e.(layout := LayoutOf(format))
    case ColorPrimaries(v) => e.(tags := e.tags.(primaries := v))
    case ColorTransfer(v) => e.(tags := e.tags.(transfer := v))
    case ColorSpace(v) => e.(tags := e.tags.(space := v))
    case ColorRange(v) => e.(tags := e.tags.(range := v))
  }

  function ApplyToSound(e: Sound, o: SoundOption): Sound {
    match o
    case AudioEncoder(encoder) => e.(codec := CodecOf(encoder))
    case AudioBitrate(rate) => e.(bitrate := rate)
    case AudioChannels(count) => e.(channels := count)
    case AudioRate(hertz) => e.(sampleRate := hertz)
    case CompressionLevel => e
  }

  function ApplyToDrops(e: Drops, o: DropOption): Drops {
    match o
    case ContainerTags => e.(containerTags := true)
    case StreamTags => e.(streamTags := true)
    case Chapters => e.(chapters := true)
    case Subtitles => e.(subtitles := true)
    case DataStreams => e.(data := true)
    case VideoStreams => e.(video := true)
  }

  function Apply(e: Effect, o: Opt): Effect {
    match o
    case Running(r) => if r.HwAccelOutputFormat? then e.(surfaces := true) else e
    case Input(path) => e.(input := path)
    case MapStream(i) => e.(maps := e.maps + [i])
    case Dropping(d) => e.(drops := ApplyToDrops(e.drops, d))
    case Framing(f) => e.(frames := ApplyToFrames(if f.VideoFilter? then Decoded(e) else e.frames, f))
    case Sounding(s) => e.(sound := ApplyToSound(e.sound, s))
    case FastStartFlag => e.(fastStart := true)
    case Container(name) => e.(container := name)
    case Output(path) => e.(output := path, frames := Encoded(e.frames))
  }

  function Interpret(e: Effect, args: seq<Opt>): Effect
    decreases |args|
  {
    if args == [] then e else Interpret(Apply(e, args[0]), args[1..])
  }

  lemma {:induction false} InterpretAppend(e: Effect, a: seq<Opt>, b: seq<Opt>)
    ensures Interpret(e, a + b) == Interpret(Interpret(e, a), b)
    decreases |a|
  {
    if a == [] {
      assert a + b == b;
    } else {
      InterpretAppend(Apply(e, a[0]), a[1..], b);
      assert (a + b)[1..] == a[1..] + b;
    }
  }

  lemma Interpret1(e: Effect, a: Opt)
    ensures Interpret(e, [a]) == Apply(e, a)
  {
  }

  lemma Interpret2(e: Effect, a: Opt, b: Opt)
    ensures Interpret(e, [a, b]) == Apply(Apply(e, a), b)
  {
    assert [a, b][1..] == [b];
    Interpret1(Apply(e, a), b);
  }

  lemma Interpret3(e: Effect, a: Opt, b: Opt, c: Opt)
    ensures Interpret(e, [a, b, c]) == Apply(Apply(Apply(e, a), b), c)
  {
    assert [a, b, c][1..] == [b, c];
    Interpret2(Apply(e, a), b, c);
  }

  lemma Interpret4(e: Effect, a: Opt, b: Opt, c: Opt, d: Opt)
    ensures Interpret(e, [a, b, c, d]) == Apply(Apply(Apply(Apply(e, a), b), c), d)
  {
    assert [a, b, c, d][1..] == [b, c, d];
    Interpret3(Apply(e, a), b, c, d);
  }

  lemma Filters1(e: Frames, a: Filter)
    ensures ApplyFilters(e, [a]) == ApplyFilter(e, a)
  {
  }

  lemma Filters2(e: Frames, a: Filter, b: Filter)
    ensures ApplyFilters(e, [a, b]) == ApplyFilter(ApplyFilter(e, a), b)
  {
    assert [a, b][1..] == [b];
    Filters1(ApplyFilter(e, a), b);
  }

  lemma {:induction false} FiltersAppend(e: Frames, a: seq<Filter>, b: seq<Filter>)
    ensures ApplyFilters(e, a + b) == ApplyFilters(ApplyFilters(e, a), b)
    decreases |a|
  {
    if a == [] {
      assert a + b == b;
    } else {
      FiltersAppend(ApplyFilter(e, a[0]), a[1..], b);
      assert (a + b)[1..] == a[1..] + b;
    }
  }
}
