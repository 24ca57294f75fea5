/** What the argument lists of `MediaPlan` mean: every list keeps its contract, and
    software and hardware encodes mean the same. */
module MediaMeaning {
  import opened Options
  import opened Profiles
  import opened ProfileRegistry
  import opened Streams
  import opened MediaPlan
  import Texts

  // ---------------------------------------------------------------- groups of options

  lemma BannerMeans(e: Effect)
    ensures Interpret(e, Banner()) == e
  {
    InterpretAppend(e, [Running(HideBanner), Running(LogLevel), Running(NoStdin), Running(Overwrite)],
                    [Running(ProgressPipe), Running(NoStats)]);
    Interpret4(e, Running(HideBanner), Running(LogLevel), Running(NoStdin), Running(Overwrite));
    Interpret2(e, Running(ProgressPipe), Running(NoStats));
  }

  lemma InputMeans(e: Effect, path: string)
    ensures Interpret(e, InputArgs(path)) == e.(input := path)
  {
    BannerMeans(e);
    InterpretAppend(e, Banner(), [Running(ProtocolWhitelist), Input(path)]);
    Interpret2(e, Running(ProtocolWhitelist), Input(path));
  }

  lemma StripMeans(e: Effect)
    ensures Interpret(e, StripArgs()) == e.(drops := e.drops.(containerTags := true, streamTags := true,
                                                              chapters := true))
  {
    Interpret3(e, Dropping(ContainerTags), Dropping(StreamTags), Dropping(Chapters));
  }

  function MappedAudio(selection: Selection): seq<int> {
    if selection.audio.Some? then [selection.audio.value.index] else []
  }

  lemma AudioMapMeans(e: Effect, selection: Selection)
    ensures Interpret(e, AudioMap(selection)) == e.(maps := e.maps + MappedAudio(selection))
  {
    assert e.maps + [] == e.maps;
  }

  const BT709 := Tags("bt709", "bt709", "bt709", "tv")

  lemma ColorMeans(e: Effect, hdr: bool)
    ensures Interpret(e, ColorArgs(hdr)) == if hdr then e.(frames := e.frames.(tags := BT709)) else e
  {
    if hdr {
      Interpret4(e, Framing(ColorPrimaries("bt709")), Framing(ColorTransfer("bt709")), Framing(ColorSpace("bt709")),
                 Framing(ColorRange("tv")));
    }
  }

  function Stereo(codec: Codec, rate: string): Sound { Sound(codec, rate, 2, 48000) }

  lemma AACMeans(e: Effect, rate: string)
    ensures Interpret(e, AACArgs(rate)) == e.(sound := Stereo(AAC, rate))
  {
    Interpret4(e, Sounding(AudioEncoder(AACEncoder)), Sounding(AudioBitrate(rate)), Sounding(AudioChannels(2)),
               Sounding(AudioRate(48000)));
  }

  lemma MP4Means(e: Effect, path: string)
    ensures Interpret(e, MP4Args(path)) ==
            e.(fastStart := true, container := "mp4", output := path, frames := Encoded(e.frames))
  {
    Interpret3(e, FastStartFlag, Container("mp4"), Output(path));
  }

  lemma SoftwareFilterMeans(e: Frames, w: int, h: int, format: PixelFormat, hdr: bool)
    requires !e.onDevice
    ensures ApplyFilters(e, SoftwareFilter(w, h, format, hdr)) ==
            (if hdr then e.(toneMapped := true, frameColor := "bt709", width := w, height := h,
                            layout := LayoutOf(format))
             else if format.YUV420P? then e.(width := w, height := h)
             else e.(width := w, height := h, layout := LayoutOf(format)))
  {
    if hdr {
      var a, b, c := [LinearLight, FormatAs(GBRPF32LE)], [ToneMap, ToBt709], [Scale(w, h), FormatAs(format)];
      assert SoftwareFilter(w, h, format, hdr) == a + b + c;
      FiltersAppend(e, a + b, c);
      FiltersAppend(e, a, b);
      Filters2(e, LinearLight, FormatAs(GBRPF32LE));
      var e1 := e.(layout := PlanarFloat);
      Filters2(e1, ToneMap, ToBt709);
      Filters2(e1.(toneMapped := true, frameColor := "bt709"), Scale(w, h), FormatAs(format));
    } else if !format.YUV420P? {
      Filters2(e, Scale(w, h), FormatAs(format));
    }
  }

  // ---------------------------------------------------------------- video

  /** The part of a video invocation that both encoders build the same way: what is
      read, mapped and dropped. */
  function VideoStart(source: Source, input: string, selection: Selection): Effect
    requires selection.video.Some?
  {
    From(source).(input := input, maps := [selection.video.value.index] + MappedAudio(selection),
             drops := Drops(true, true, true, true, true, false))
  }

  function TargetFrames(video: Stream, smaller: bool): Frames
    requires UsableVideo(video)
  {
    var (w, h) := TargetSize(video, smaller);
    var level := ConstantRate(Level(smaller));
    if IsHDR(video) then Frames(Some(Libx264), level, 0, w, h, Planar420, true, "bt709", BT709, false, false)
    else Frames(Some(Libx264), level, 0, w, h, Planar420, false, "", NO_TAGS, false, false)
  }

  function TargetSound(selection: Selection, smaller: bool): Sound {
    if selection.audio.Some? then Stereo(AAC, if smaller then "128k" else "192k") else NO_SOUND
  }

  /** What converting a video in software means. */
  function VideoEffect(source: Source, input: string, output: string, selection: Selection, smaller: bool): Effect
    requires selection.video.Some? && UsableVideo(selection.video.value)
  {
    VideoStart(source, input, selection).(frames := TargetFrames(selection.video.value, smaller),
                                          sound := TargetSound(selection, smaller),
                                          fastStart := true, container := "mp4", output := output)
  }

  /** The same by the device's encoder, whose frames may be decoded into its memory: then
      they are not turned upright, not tone mapped, and there only if it can decode them. */
  function OnDevice(e: Effect, smaller: bool, surfaces: bool): Effect {
    var f := e.frames.(encoder := Some(H264VAAPI), rate := ConstantQuantizer(Level(smaller)), onDevice := true);
    if !surfaces then e.(frames := f)
    else e.(surfaces := true, frames := f.(turned := e.source.rotation, broken := !DeviceDecodes(e.source),
                                           toneMapped := false, frameColor := ""))
  }

  /** Color, audio and output options, after the frames are settled. */
  lemma VideoEndMeans(source: Source, e: Effect, selection: Selection, smaller: bool, hdr: bool, output: string,
                      before: seq<Opt>)
    requires Interpret(From(source), before) == e && e.sound == NO_SOUND
    ensures Interpret(From(source), before + ColorArgs(hdr) + VideoAudioArgs(selection, smaller) + MP4Args(output)) ==
      e.(frames := Encoded(if hdr then e.frames.(tags := BT709) else e.frames), sound := TargetSound(selection, smaller),
         fastStart := true, container := "mp4", output := output)
  {
    var colors, audio := ColorArgs(hdr), VideoAudioArgs(selection, smaller);
    InterpretAppend(From(source), before + colors + audio, MP4Args(output));
    InterpretAppend(From(source), before + colors, audio);
    InterpretAppend(From(source), before, colors);
    ColorMeans(e, hdr);
    var c := Interpret(e, colors);
    if selection.audio.Some? {
      AACMeans(c, if smaller then "128k" else "192k");
    }
    MP4Means(Interpret(c, audio), output);
  }

  lemma DropTwoMeans(e: Effect)
    ensures Interpret(e, [Dropping(Subtitles), Dropping(DataStreams)]) ==
            e.(drops := e.drops.(subtitles := true, data := true))
  {
    Interpret2(e, Dropping(Subtitles), Dropping(DataStreams));
  }

  /** Maps and dropped parts, after the input is read. */
  lemma VideoMapsMean(source: Source, surfaces: bool, input: string, selection: Selection, before: seq<Opt>)
    requires selection.video.Some?
    requires Interpret(From(source), before) == From(source).(surfaces := surfaces, input := input)
    ensures Interpret(From(source), before + [MapStream(selection.video.value.index)] + AudioMap(selection)
                                    + StripArgs() + [Dropping(Subtitles), Dropping(DataStreams)]) ==
            VideoStart(source, input, selection).(surfaces := surfaces)
  {
    var e := From(source).(surfaces := surfaces, input := input);
    var first := [MapStream(selection.video.value.index)];
    InterpretAppend(From(source), before, first);
    InterpretAppend(From(source), before + first, AudioMap(selection));
    InterpretAppend(From(source), before + first + AudioMap(selection), StripArgs());
    InterpretAppend(From(source), before + first + AudioMap(selection) + StripArgs(),
                    [Dropping(Subtitles), Dropping(DataStreams)]);
    Interpret1(e, first[0]);
    assert [] + [selection.video.value.index] == [selection.video.value.index];
    var e1 := e.(maps := [selection.video.value.index]);
    AudioMapMeans(e1, selection);
    var e2 := e1.(maps := e1.maps + MappedAudio(selection));
    StripMeans(e2);
    DropTwoMeans(Interpret(e2, StripArgs()));
  }

  /** What the encoder and filter options make of decoded frames. */
  ghost predicate Framed(e: Effect, w: int, h: int, toneMaps: bool, encoder: Encoder, rate: Rate, r: Effect) {
    var f := Decoded(e).(encoder := Some(encoder), rate := rate, width := w, height := h, layout := Planar420,
                         onDevice := encoder.H264VAAPI?);
    r == e.(frames := if toneMaps then f.(toneMapped := true, frameColor := "bt709") else f)
  }

  lemma SoftwareFramesMean(source: Source, e: Effect, w: int, h: int, smaller: bool, hdr: bool, before: seq<Opt>)
    requires Interpret(From(source), before) == e && !e.surfaces
    ensures Framed(e, w, h, hdr, Libx264, ConstantRate(Level(smaller)),
                   Interpret(From(source), before + [Framing(VideoEncoder(Libx264)), Framing(Preset),
                                                     Framing(Crf(Level(smaller)))]
                                           + [Framing(VideoFilter(SoftwareFilter(w, h, YUV420P, hdr))),
                                              Framing(PixFmt(YUV420P))]))
  {
    var codec := [Framing(VideoEncoder(Libx264)), Framing(Preset), Framing(Crf(Level(smaller)))];
    var filter := SoftwareFilter(w, h, YUV420P, hdr);
    InterpretAppend(From(source), before + codec, [Framing(VideoFilter(filter)), Framing(PixFmt(YUV420P))]);
    InterpretAppend(From(source), before, codec);
    Interpret3(e, Framing(VideoEncoder(Libx264)), Framing(Preset), Framing(Crf(Level(smaller))));
    var e1 := e.(frames := e.frames.(encoder := Some(Libx264), rate := ConstantRate(Level(smaller))));
    SoftwareFilterMeans(Decoded(e1), w, h, YUV420P, hdr);
    Interpret2(e1, Framing(VideoFilter(filter)), Framing(PixFmt(YUV420P)));
  }

  lemma HardwareFilterMeans(e: Frames, w: int, h: int, hdr: bool, hardware: bool)
    requires e.onDevice == hardware
    ensures ApplyFilters(e, if hardware then [ScaleVaapi(w, h, NV12)]
                            else SoftwareFilter(w, h, NV12, hdr) + [HwUpload]) ==
      if hdr && !hardware
      then e.(toneMapped := true, frameColor := "bt709", width := w, height := h, layout := Planar420,
              onDevice := true)
      else e.(width := w, height := h, layout := Planar420, onDevice := true)
  {
    if hardware {
      Filters1(e, ScaleVaapi(w, h, NV12));
    } else {
      FiltersAppend(e, SoftwareFilter(w, h, NV12, hdr), [HwUpload]);
      SoftwareFilterMeans(e, w, h, NV12, hdr);
      Filters1(ApplyFilters(e, SoftwareFilter(w, h, NV12, hdr)), HwUpload);
    }
  }

  lemma HardwareFramesMean(source: Source, e: Effect, w: int, h: int, smaller: bool, hdr: bool, before: seq<Opt>)
    requires Interpret(From(source), before) == e
    ensures Framed(e, w, h, hdr && !e.surfaces, H264VAAPI, ConstantQuantizer(Level(smaller)),
                   Interpret(From(source), before + [Framing(VideoEncoder(H264VAAPI)), Framing(Qp(Level(smaller)))]
                                           + [Framing(VideoFilter(if e.surfaces then [ScaleVaapi(w, h, NV12)]
                                                                  else SoftwareFilter(w, h, NV12, hdr) + [HwUpload]))]))
  {
    var codec := [Framing(VideoEncoder(H264VAAPI)), Framing(Qp(Level(smaller)))];
    var filter := if e.surfaces then [ScaleVaapi(w, h, NV12)] else SoftwareFilter(w, h, NV12, hdr) + [HwUpload];
    InterpretAppend(From(source), before + codec, [Framing(VideoFilter(filter))]);
    InterpretAppend(From(source), before, codec);
    Interpret2(e, Framing(VideoEncoder(H264VAAPI)), Framing(Qp(Level(smaller))));
    var e1 := e.(frames := e.frames.(encoder := Some(H264VAAPI), rate := ConstantQuantizer(Level(smaller))));
    HardwareFilterMeans(Decoded(e1), w, h, hdr, e.surfaces);
    Interpret1(e1, Framing(VideoFilter(filter)));
  }

  lemma VideoArgsMean(source: Source, input: string, output: string, selection: Selection, smaller: bool)
    requires selection.video.Some? && UsableVideo(selection.video.value)
    ensures Interpret(From(source), VideoArgs(input, output, selection, smaller)) ==
            VideoEffect(source, input, output, selection, smaller)
  {
    var video := selection.video.value;
    var (w, h) := TargetSize(video, smaller);
    var start := InputArgs(input);
    InputMeans(From(source), input);
    VideoMapsMean(source, false, input, selection, start);
    var mapped := start + [MapStream(video.index)] + AudioMap(selection) + StripArgs()
        + [Dropping(Subtitles), Dropping(DataStreams)];
    SoftwareFramesMean(source, VideoStart(source, input, selection), w, h, smaller, IsHDR(video), mapped);
    var framed := mapped + [Framing(VideoEncoder(Libx264)), Framing(Preset), Framing(Crf(Level(smaller)))]
                  + [Framing(VideoFilter(SoftwareFilter(w, h, YUV420P, IsHDR(video)))), Framing(PixFmt(YUV420P))];
    VideoEndMeans(source, Interpret(From(source), framed), selection, smaller, IsHDR(video), output, framed);
  }

  /** Of the device options in front only one bears on the frames. */
  lemma DeviceMeans(source: Source, input: string, device: string, hardware: bool)
    ensures Interpret(From(source), Banner() + [Running(InitHwDevice(device)), Running(FilterHwDevice)]
                                    + (if hardware then [Running(HwAccel), Running(HwAccelDevice),
                                                         Running(HwAccelOutputFormat)] else [])
                                    + [Running(ProtocolWhitelist), Input(input)])
            == From(source).(surfaces := hardware, input := input)
  {
    var decoder := if hardware then [Running(HwAccel), Running(HwAccelDevice), Running(HwAccelOutputFormat)] else [];
    var init := [Running(InitHwDevice(device)), Running(FilterHwDevice)];
    InterpretAppend(From(source), Banner() + init + decoder, [Running(ProtocolWhitelist), Input(input)]);
    InterpretAppend(From(source), Banner() + init, decoder);
    InterpretAppend(From(source), Banner(), init);
    BannerMeans(From(source));
    Interpret2(From(source), init[0], init[1]);
    if hardware {
      Interpret3(From(source), Running(HwAccel), Running(HwAccelDevice), Running(HwAccelOutputFormat));
    }
    Interpret2(From(source).(surfaces := hardware), Running(ProtocolWhitelist), Input(input));
  }

  lemma VAAPIArgsMean(source: Source, input: string, output: string, selection: Selection, smaller: bool,
                      device: string, hardware: bool)
    requires selection.video.Some? && UsableVideo(selection.video.value)
    ensures Interpret(From(source), VAAPIArgs(input, output, selection, smaller, device, hardware))
            == OnDevice(VideoEffect(source, input, output, selection, smaller), smaller, hardware)
  {
    var video := selection.video.value;
    var (w, h) := TargetSize(video, smaller);
    var decoder := if hardware then [Running(HwAccel), Running(HwAccelDevice), Running(HwAccelOutputFormat)] else [];
    var start := Banner() + [Running(InitHwDevice(device)), Running(FilterHwDevice)] + decoder
        + [Running(ProtocolWhitelist), Input(input)];
    DeviceMeans(source, input, device, hardware);
    VideoMapsMean(source, hardware, input, selection, start);
    var mapped := start + [MapStream(video.index)] + AudioMap(selection) + StripArgs()
        + [Dropping(Subtitles), Dropping(DataStreams)];
    var e := VideoStart(source, input, selection).(surfaces := hardware);
    HardwareFramesMean(source, e, w, h, smaller, IsHDR(video), mapped);
    var filter := if hardware then [ScaleVaapi(w, h, NV12)] else SoftwareFilter(w, h, NV12, IsHDR(video)) + [HwUpload];
    var framed := mapped + [Framing(VideoEncoder(H264VAAPI)), Framing(Qp(Level(smaller)))]
        + [Framing(VideoFilter(filter))];
    VideoEndMeans(source, Interpret(From(source), framed), selection, smaller, IsHDR(video), output, framed);
  }

  // ---------------------------------------------------------------- audio

  function AudioStart(source: Source, input: string, audio: Stream): Effect {
    From(source).(input := input, maps := [audio.index], drops := Drops(true, true, true, true, true, true))
  }

  lemma AudioHeadMeans(source: Source, input: string, audio: Stream)
    ensures Interpret(From(source), AudioHead(input, audio)) == AudioStart(source, input, audio)
  {
    var e := From(source).(input := input);
    InputMeans(From(source), input);
    InterpretAppend(From(source), InputArgs(input), [MapStream(audio.index)]);
    InterpretAppend(From(source), InputArgs(input) + [MapStream(audio.index)], StripArgs());
    InterpretAppend(From(source), InputArgs(input) + [MapStream(audio.index)] + StripArgs(),
                    [Dropping(VideoStreams), Dropping(Subtitles), Dropping(DataStreams)]);
    Interpret1(e, MapStream(audio.index));
    assert [] + [audio.index] == [audio.index];
    var e1 := e.(maps := [audio.index]);
    StripMeans(e1);
    Interpret3(Interpret(e1, StripArgs()), Dropping(VideoStreams), Dropping(Subtitles), Dropping(DataStreams));
  }

  lemma AACAudioArgsMean(source: Source, input: string, output: string, audio: Stream)
    ensures Interpret(From(source), AACAudioArgs(input, output, audio)) ==
            AudioStart(source, input, audio).(sound := Stereo(AAC, "192k"), fastStart := true, container := "mp4",
                                      output := output)
  {
    AudioHeadMeans(source, input, audio);
    InterpretAppend(From(source), AudioHead(input, audio) + AACArgs("192k"), MP4Args(output));
    InterpretAppend(From(source), AudioHead(input, audio), AACArgs("192k"));
    AACMeans(AudioStart(source, input, audio), "192k");
    MP4Means(Interpret(AudioStart(source, input, audio), AACArgs("192k")), output);
  }

  lemma FormatMeans(e: Effect, container: string, output: string)
    ensures Interpret(e, [Container(container), Output(output)]) ==
            e.(container := container, output := output, frames := Encoded(e.frames))
  {
    Interpret2(e, Container(container), Output(output));
  }

  lemma MP3AudioArgsMean(source: Source, input: string, output: string, audio: Stream)
    ensures Interpret(From(source), MP3AudioArgs(input, output, audio)) ==
            AudioStart(source, input, audio).(sound := Stereo(MP3, "192k"), container := "mp3", output := output)
  {
    var codec := [Sounding(AudioEncoder(Libmp3lame)), Sounding(AudioBitrate("192k")), Sounding(AudioChannels(2)),
                  Sounding(AudioRate(48000))];
    AudioHeadMeans(source, input, audio);
    InterpretAppend(From(source), AudioHead(input, audio) + codec, [Container("mp3"), Output(output)]);
    InterpretAppend(From(source), AudioHead(input, audio), codec);
    Interpret4(AudioStart(source, input, audio), codec[0], codec[1], codec[2], codec[3]);
    FormatMeans(Interpret(AudioStart(source, input, audio), codec), "mp3", output);
  }

  lemma FLACAudioArgsMean(source: Source, input: string, output: string, audio: Stream)
    ensures Interpret(From(source), FLACAudioArgs(input, output, audio)) ==
            AudioStart(source, input, audio).(sound := NO_SOUND.(codec := FLAC), container := "flac", output := output)
  {
    var codec := [Sounding(AudioEncoder(FLACEncoder)), Sounding(CompressionLevel)];
    AudioHeadMeans(source, input, audio);
    InterpretAppend(From(source), AudioHead(input, audio) + codec, [Container("flac"), Output(output)]);
    InterpretAppend(From(source), AudioHead(input, audio), codec);
    Interpret2(AudioStart(source, input, audio), codec[0], codec[1]);
    FormatMeans(Interpret(AudioStart(source, input, audio), codec), "flac", output);
  }

  // ---------------------------------------------------------------- taking plans apart

  lemma Containers(operation: Operation)
    requires Lookup(operation).Some?
    ensures VideoOperation(operation) || operation.ExtractAudio? ==> Lookup(operation).value.container == "mp4"
    ensures operation.CompatibleAudio? ==> Lookup(operation).value.container == "mp3"
    ensures operation.LosslessAudio? ==> Lookup(operation).value.container == "flac"
  {
  }

  /** A plan is the software plan of its request, accelerated if it is a video. */
  lemma PlanParts(request: Request, plan: Plan) returns (mode: Mode, device: string)
    requires PlanFor(request) == Ok(plan)
    ensures NormalizeAcceleration(request.acceleration) == Some((mode, device)) && SoftwarePlan(request, mode).Ok?
    ensures Rejection(request.operation, Select(request.probe.streams)).None?
    ensures if VideoOperation(request.operation)
            then Accelerated(SoftwarePlan(request, mode).value, request, mode, device) == Ok(plan)
            else plan == SoftwarePlan(request, mode).value
  {
    mode, device := NormalizeAcceleration(request.acceleration).value.0,
        NormalizeAcceleration(request.acceleration).value.1;
  }

  lemma SoftwareVideo(request: Request, mode: Mode)
    requires SoftwarePlan(request, mode).Ok? && VideoOperation(request.operation)
    ensures var selection, smaller := Select(request.probe.streams), request.operation.SmallerVideo?;
      var plan := SoftwarePlan(request, mode).value;
      && selection.video.Some? && UsableVideo(selection.video.value)
      && plan.args == VideoArgs(request.inputPath, request.outputPath, selection, smaller)
      && plan.outputPath == request.outputPath && plan.path == CPUPath && plan.cpuArgs == []
      && plan.expected == VideoExpected(selection, smaller, plan.expected.duration,
                                        plan.expected.tolerance).(container := "mp4")
  {
    SelectedVideoUsable(request.probe.streams);
    Containers(request.operation);
  }

  lemma SoftwareAudio(request: Request, mode: Mode)
    requires SoftwarePlan(request, mode).Ok? && !VideoOperation(request.operation)
    ensures var plan, selection := SoftwarePlan(request, mode).value, Select(request.probe.streams);
      && selection.audio.Some? && plan.outputPath == request.outputPath && plan.path == CPUPath && plan.cpuArgs == []
      && AudioPlanned(request, plan, selection.audio.value)
  {
    Containers(request.operation);
  }

  ghost predicate AudioPlanned(request: Request, plan: Plan, audio: Stream) {
    var d, t := plan.expected.duration, plan.expected.tolerance;
    || (request.operation.ExtractAudio? && plan.args == AACAudioArgs(request.inputPath, request.outputPath, audio)
        && plan.expected == AudioExpected("aac", 2, "stereo", 48000, true, d, t).(container := "mp4"))
    || (request.operation.CompatibleAudio? && plan.args == MP3AudioArgs(request.inputPath, request.outputPath, audio)
        && plan.expected == AudioExpected("mp3", 2, "stereo", 48000, false, d, t).(container := "mp3"))
    || (request.operation.LosslessAudio? && plan.args == FLACAudioArgs(request.inputPath, request.outputPath, audio)
        && plan.expected == AudioExpected("flac", audio.channels, audio.channelLayout, audio.sampleRate, false, d, t).(
             container := "flac"))
  }

  // ---------------------------------------------------------------- every mode means the same

  function WithMode(request: Request, mode: string): Request {
    request.(acceleration := request.acceleration.(mode := mode))
  }

  /** What does not depend on who encodes. */
  ghost predicate SameContract(a: Plan, b: Plan) {
    && a.operation == b.operation && a.outputPath == b.outputPath && a.timeout == b.timeout
    && a.warnings == b.warnings && a.requiredFilters == b.requiredFilters && a.expected == b.expected
  }

  lemma CPUWord()
    ensures ModeOf("cpu") == Some(CPUMode)
  {
    assert "cpu"[0] != "auto"[0];
  }

  lemma AutoWord()
    ensures ModeOf("auto") == Some(AutoMode)
  {
  }

  lemma VAAPIWord()
    ensures ModeOf("vaapi") == Some(VAAPIMode)
  {
    assert "vaapi"[0] != "auto"[0] && "vaapi"[0] != "cpu"[0];
  }

  lemma ModeNormalizes(config: AccelerationConfig, text: string, mode: Mode)
    requires ModeOf(text) == Some(mode)
    ensures var device := if config.device == "" then DEFAULT_DEVICE else config.device;
      NormalizeAcceleration(config.(mode := text)) == if UsableDevice(device) then Some((mode, device)) else None
  {
  }

  lemma ModesNormalize(config: AccelerationConfig)
    ensures var cpu := NormalizeAcceleration(config.(mode := "cpu"));
      var auto := NormalizeAcceleration(config.(mode := "auto"));
      var vaapi := NormalizeAcceleration(config.(mode := "vaapi"));
      && (cpu.Some? <==> auto.Some?) && (cpu.Some? <==> vaapi.Some?)
      && (cpu.Some? ==> cpu.value.0 == CPUMode && auto.value.0 == AutoMode && vaapi.value.0 == VAAPIMode)
      && (cpu.Some? ==> auto.value.1 == cpu.value.1 && vaapi.value.1 == cpu.value.1)
  {
    CPUWord();
    AutoWord();
    VAAPIWord();
    ModeNormalizes(config, "cpu", CPUMode);
    ModeNormalizes(config, "auto", AutoMode);
    ModeNormalizes(config, "vaapi", VAAPIMode);
  }

  lemma SoftwareModes(request: Request, a: string, b: string, m: Mode, n: Mode)
    ensures var x, y := SoftwarePlan(WithMode(request, a), m), SoftwarePlan(WithMode(request, b), n);
      && (x.Ok? <==> y.Ok?)
      && (x.Err? ==> y == x)
      && (x.Ok? ==> y.value == x.value.(requested := n) && x.value.path == CPUPath && x.value.cpuArgs == []
                    && x.value.fallback == NoFallback && x.value.requested == m)
  {
  }

  function DeviceOf(request: Request): string {
    if request.acceleration.device == "" then DEFAULT_DEVICE else request.acceleration.device
  }

  /** What a request in some mode plans, once the mode is known to be readable. */
  lemma PlanByMode(request: Request, text: string, mode: Mode)
    requires NormalizeAcceleration(WithMode(request, text).acceleration) == Some((mode, DeviceOf(request)))
    requires WellFormed(request)
    ensures var r := WithMode(request, text); var software := SoftwarePlan(r, mode);
      PlanFor(r) == if software.Err? || !VideoOperation(request.operation) then software
                    else Accelerated(software.value, r, mode, DeviceOf(request))
  {
  }

  /** What can be seen of an invocation's output, whoever encodes it: everything but the
      encoder, its rate control and the memory it worked in. */
  function Seen(e: Effect): Effect {
    e.(surfaces := false,
       frames := e.frames.(encoder := if FrameCodec(e.frames) == H264 then Some(Libx264) else e.frames.encoder,
                           rate := NoRate, onDevice := false))
  }

  /** A plan accelerated in automatic mode means what the software plan means for the
      source, turned and laid out as it is: the same streams, size, upright orientation,
      color, sound and dropped parts.  Only the rate controls differ, by the same number. */
  ghost predicate MeansSoftware(source: Source, plan: Plan, software: Plan) {
    && SameContract(plan, software)
    && (if plan.path.CPUPath? then plan.args == software.args && plan.cpuArgs == []
        else
          && plan.cpuArgs == software.args
          && Seen(Interpret(From(source), plan.args)) == Seen(Interpret(From(source), software.args))
          && Interpret(From(source), software.args).frames.rate == ConstantRate(Level(plan.operation.SmallerVideo?))
          && Interpret(From(source), plan.args).frames.rate == ConstantQuantizer(Level(plan.operation.SmallerVideo?)))
  }

  lemma SeenOnDevice(source: Source, input: string, output: string, selection: Selection, smaller: bool,
                     surfaces: bool)
    requires selection.video.Some? && UsableVideo(selection.video.value)
    ensures var e := VideoEffect(source, input, output, selection, smaller);
      Seen(OnDevice(e, smaller, surfaces)) == Seen(e) <==>
      (surfaces ==> !IsHDR(selection.video.value) && source.rotation == 0 && DeviceDecodes(source))
  {
    var e := VideoEffect(source, input, output, selection, smaller);
    if Seen(OnDevice(e, smaller, surfaces)) == Seen(e) {
      assert Seen(OnDevice(e, smaller, surfaces)).frames == Seen(e).frames;
    }
  }

  /** Decoding on the device has the same visible effect as decoding in software. */
  ghost predicate DecodeMeansSoftware(request: Request, source: Source, device: string)
    requires Select(request.probe.streams).video.Some? && UsableVideo(Select(request.probe.streams).video.value)
  {
    var selection, smaller := Select(request.probe.streams), request.operation.SmallerVideo?;
    Seen(Interpret(From(source), VAAPIArgs(request.inputPath, request.outputPath, selection, smaller, device, true)))
    == Seen(Interpret(From(source), VideoArgs(request.inputPath, request.outputPath, selection, smaller)))
  }

  /** When decoding on a device is harmless: exactly for the upright sources without
      high dynamic range that the device can decode.  The guard is enough for that on
      every device that decodes at least what its probe decoded. */
  lemma HardwareDecodeMeansIff(request: Request, source: Source, device: string)
    requires request.vaapi.Some? && Select(request.probe.streams).video.Some? && Describes(request, source)
    requires UsableVideo(Select(request.probe.streams).video.value)
    ensures var video := Select(request.probe.streams).video.value;
      && (DecodeMeansSoftware(request, source, device) <==>
          !IsHDR(video) && video.Rotation() == 0 && DeviceDecodes(source))
      && (UsesHardware(video, request.vaapi.value) ==> DecodeMeansSoftware(request, source, device))
  {
    var selection, smaller := Select(request.probe.streams), request.operation.SmallerVideo?;
    VAAPIArgsMean(source, request.inputPath, request.outputPath, selection, smaller, device, true);
    VideoArgsMean(source, request.inputPath, request.outputPath, selection, smaller);
    SeenOnDevice(source, request.inputPath, request.outputPath, selection, smaller, true);
    GuardDecodes(request, source);
  }

  lemma GuardDecodes(request: Request, source: Source)
    requires request.vaapi.Some? && Select(request.probe.streams).video.Some? && Describes(request, source)
    ensures UsesHardware(Select(request.probe.streams).video.value, request.vaapi.value) ==> DeviceDecodes(source)
  {
    var video := Select(request.probe.streams).video.value;
    if UsesHardware(video, request.vaapi.value) {
      var codec := Texts.Lowered(Texts.TrimSpace(video.codec));
      assert codec in request.vaapi.value.hardwareCodecs && Decodes(source, codec, "yuv420p");
    }
  }

  /** No weaker guard would do: it lets a source through exactly when decoding is harmless
      on every device that its acceleration report may be of. */
  lemma GuardIsExact(request: Request, device: string)
    requires request.vaapi.Some? && Select(request.probe.streams).video.Some?
    requires UsableVideo(Select(request.probe.streams).video.value)
    ensures UsesHardware(Select(request.probe.streams).video.value, request.vaapi.value) <==>
            forall source :: Describes(request, source) ==> DecodeMeansSoftware(request, source, device)
  {
    forall source | Describes(request, source)
      ensures UsesHardware(Select(request.probe.streams).video.value, request.vaapi.value) ==>
                DecodeMeansSoftware(request, source, device)
    {
      HardwareDecodeMeansIff(request, source, device);
    }
    HardwareDecodeMeansIff(request, LeastSource(request), device);
  }

  /** The hardware command with the guarded decoder: the same visible effect, and the
      same number for another rate control. */
  lemma GuardedDecodeMeans(request: Request, source: Source, device: string)
    requires request.vaapi.Some? && Select(request.probe.streams).video.Some? && Describes(request, source)
    requires UsableVideo(Select(request.probe.streams).video.value)
    ensures var selection, smaller := Select(request.probe.streams), request.operation.SmallerVideo?;
      var hardware := UsesHardware(selection.video.value, request.vaapi.value);
      var accelerated := Interpret(From(source), VAAPIArgs(request.inputPath, request.outputPath, selection, smaller,
                                                           device, hardware));
      var software := Interpret(From(source), VideoArgs(request.inputPath, request.outputPath, selection, smaller));
      && Seen(accelerated) == Seen(software)
      && software.frames.rate == ConstantRate(Level(smaller))
      && accelerated.frames.rate == ConstantQuantizer(Level(smaller))
  {
    var selection, smaller := Select(request.probe.streams), request.operation.SmallerVideo?;
    var hardware := UsesHardware(selection.video.value, request.vaapi.value);
    VAAPIArgsMean(source, request.inputPath, request.outputPath, selection, smaller, device, hardware);
    VideoArgsMean(source, request.inputPath, request.outputPath, selection, smaller);
    SeenOnDevice(source, request.inputPath, request.outputPath, selection, smaller, hardware);
    GuardDecodes(request, source);
  }

  lemma AcceleratedMeansSoftware(request: Request, source: Source, device: string)
    requires Describes(request, source)
    requires VideoOperation(request.operation) && SoftwarePlan(request, AutoMode).Ok?
    requires SoftwarePlan(request, AutoMode).value.path == CPUPath
             && SoftwarePlan(request, AutoMode).value.cpuArgs == []
    ensures var software := SoftwarePlan(request, AutoMode).value;
      var plan := Accelerated(software, request, AutoMode, device);
      plan.Ok? && MeansSoftware(source, plan.value, software)
  {
    SoftwareVideo(request, AutoMode);
    if Accelerates(request.vaapi, device) {
      GuardedDecodeMeans(request, source, device);
    }
  }

  lemma AutoPlanMeans(request: Request, source: Source, cpu: Plan)
    requires Describes(request, source) && SoftwarePlan(request, AutoMode).Ok?
    requires var software := SoftwarePlan(request, AutoMode).value;
      cpu == software.(requested := CPUMode) && cpu.path == CPUPath && cpu.cpuArgs == []
    ensures var software := SoftwarePlan(request, AutoMode).value;
      var auto := if VideoOperation(request.operation)
                  then Accelerated(software, request, AutoMode, DeviceOf(request)) else Ok(software);
      auto.Ok? && MeansSoftware(source, auto.value, cpu)
  {
    if VideoOperation(request.operation) {
      AcceleratedMeansSoftware(request, source, DeviceOf(request));
    }
  }

  /** For every request, source and device as reported, automatic mode succeeds exactly when software mode does, with
      the same rejection, warnings and output contract.  When it stays in software its
      arguments are the same; otherwise they mean the same, and the software arguments
      are the ones kept for the retry. */
  lemma AutoMeansCPU(request: Request, source: Source)
    requires Describes(request, source)
    ensures var cpu, auto := PlanFor(WithMode(request, "cpu")), PlanFor(WithMode(request, "auto"));
      && (cpu.Err? ==> auto == cpu)
      && (cpu.Ok? ==>
            auto.Ok? && MeansSoftware(source, auto.value, cpu.value)
            && cpu.value.path.CPUPath? && cpu.value.cpuArgs == [])
  {
    ModesNormalize(request.acceleration);
    if WellFormed(request) && NormalizeAcceleration(WithMode(request, "cpu").acceleration).Some? {
      PlanByMode(request, "cpu", CPUMode);
      PlanByMode(request, "auto", AutoMode);
      SoftwareModes(request, "cpu", "auto", CPUMode, AutoMode);
      if SoftwarePlan(WithMode(request, "auto"), AutoMode).Ok? {
        AutoPlanMeans(WithMode(request, "auto"), source, SoftwarePlan(WithMode(request, "cpu"), CPUMode).value);
      }
    }
  }

  /** Required hardware adds exactly one rejection: a video for a device whose probe
      did not succeed.  Otherwise it plans what automatic mode plans. */
  lemma VAAPIAddsOneRejection(request: Request)
    ensures var auto, vaapi := PlanFor(WithMode(request, "auto")), PlanFor(WithMode(request, "vaapi"));
      if auto.Ok? && VideoOperation(request.operation) && !Accelerates(request.vaapi, DeviceOf(request))
      then vaapi == Err(AccelerationUnavailable) && auto.value.path.CPUPath?
      else vaapi == if auto.Ok? then Ok(auto.value.(requested := VAAPIMode)) else auto
  {
    ModesNormalize(request.acceleration);
    var auto, vaapi := WithMode(request, "auto"), WithMode(request, "vaapi");
    if WellFormed(request) && NormalizeAcceleration(auto.acceleration).Some? {
      PlanByMode(request, "auto", AutoMode);
      PlanByMode(request, "vaapi", VAAPIMode);
      SoftwareModes(request, "auto", "vaapi", AutoMode, VAAPIMode);
      if VideoOperation(request.operation) && SoftwarePlan(auto, AutoMode).Ok? {
        AcceleratedModes(request, DeviceOf(request));
      }
    }
  }

  lemma AcceleratedModes(request: Request, device: string)
    requires VideoOperation(request.operation) && SoftwarePlan(WithMode(request, "auto"), AutoMode).Ok?
    requires SoftwarePlan(WithMode(request, "vaapi"), VAAPIMode)
             == Ok(SoftwarePlan(WithMode(request, "auto"), AutoMode).value.(requested := VAAPIMode))
    requires SoftwarePlan(WithMode(request, "auto"), AutoMode).value.path == CPUPath
    ensures var auto := Accelerated(SoftwarePlan(WithMode(request, "auto"), AutoMode).value, WithMode(request, "auto"),
                                    AutoMode, device);
      var vaapi := Accelerated(SoftwarePlan(WithMode(request, "vaapi"), VAAPIMode).value, WithMode(request, "vaapi"),
                               VAAPIMode, device);
      && auto.Ok?
      && if Accelerates(request.vaapi, device) then vaapi == Ok(auto.value.(requested := VAAPIMode))
         else vaapi == Err(AccelerationUnavailable) && auto.value.path == CPUPath
  {
  }

  // ---------------------------------------------------------------- arguments keep the contract

  /** A sound setting of zero leaves the source's value, which is then what is expected. */
  ghost predicate SoundKept(sound: Sound, expected: Expected, selection: Selection) {
    && CodecName(sound.codec) == expected.audioCodec
    && (sound.codec.NoCodec? <==> !expected.audioPresence.AudioRequired?)
    && (sound.channels != 0 ==> expected.channels == sound.channels && expected.sampleRate == sound.sampleRate
                                && expected.channelLayout == "stereo")
    && (sound.channels == 0 && expected.audioPresence.AudioRequired? ==>
          && selection.audio.Some?
          && expected.channels == selection.audio.value.channels
          && expected.channelLayout == selection.audio.value.channelLayout
          && expected.sampleRate == selection.audio.value.sampleRate)
  }

  ghost predicate FramesKept(frames: Frames, expected: Expected) {
    && CodecName(FrameCodec(frames)) == expected.videoCodec
    && !frames.broken && frames.turned == expected.rotation
    && frames.width == expected.width && frames.height == expected.height
    && (frames.layout.Planar420? <==> expected.pixelFormat == "yuv420p")
    && frames.tags == Tags(expected.colorPrimaries, expected.colorTransfer, expected.colorSpace, expected.colorRange)
    && (frames.toneMapped <==> expected.colorTransfer == "bt709")
  }

  /** An invocation that produces what the contract checks, and nothing it forbids:
      exactly the demanded streams are mapped, metadata and chapters are dropped, and
      the output path is the last argument. */
  ghost predicate KeepsContract(source: Source, args: seq<Opt>, plan: Plan, request: Request) {
    && args != [] && args[|args| - 1] == Output(plan.outputPath)
    && EffectKeeps(Seen(Interpret(From(source), args)), plan, request)
  }

  ghost predicate EffectKeeps(e: Effect, plan: Plan, request: Request) {
    var selection := Select(request.probe.streams);
    && e.input == request.inputPath && e.output == plan.outputPath == request.outputPath
    && e.container == plan.expected.container && e.fastStart == plan.expected.fastStart
    && |e.maps| == WantedVideos(plan.expected) + WantedAudios(plan.expected)
    && e.drops.containerTags && e.drops.streamTags && e.drops.chapters && e.drops.subtitles && e.drops.data
    && (e.drops.video <==> plan.expected.videoCodec == "")
    && SoundKept(e.sound, plan.expected, selection)
    && FramesKept(e.frames, plan.expected)
    && (plan.expected.videoCodec != "" ==> selection.video.Some? && e.maps[0] == selection.video.value.index)
    && (plan.expected.audioPresence.AudioRequired? ==>
          selection.audio.Some? && e.maps[|e.maps| - 1] == selection.audio.value.index)
  }

  lemma VideoSoundKept(selection: Selection, smaller: bool, duration: Option<nat>, tolerance: nat)
    requires selection.video.Some? && UsableVideo(selection.video.value)
    ensures SoundKept(TargetSound(selection, smaller),
                      VideoExpected(selection, smaller, duration, tolerance), selection)
  {
  }

  lemma VideoFramesKept(selection: Selection, smaller: bool, duration: Option<nat>, tolerance: nat)
    requires selection.video.Some? && UsableVideo(selection.video.value)
    ensures FramesKept(TargetFrames(selection.video.value, smaller),
                       VideoExpected(selection, smaller, duration, tolerance))
  {
    assert "bt709" != "";
  }

  lemma VideoMapsKept(source: Source, input: string, selection: Selection, smaller: bool, duration: Option<nat>,
                      tolerance: nat)
    requires selection.video.Some? && UsableVideo(selection.video.value)
    ensures var maps := VideoStart(source, input, selection).maps;
      && |maps| == WantedVideos(VideoExpected(selection, smaller, duration, tolerance))
                   + WantedAudios(VideoExpected(selection, smaller, duration, tolerance))
      && maps[0] == selection.video.value.index
      && (selection.audio.Some? ==> maps[|maps| - 1] == selection.audio.value.index)
  {
    assert "h264" != "";
  }

  /** The contract's parts look only at fields that naming the container leaves alone. */
  lemma ContainerApart(frames: Frames, sound: Sound, expected: Expected, container: string, selection: Selection)
    ensures FramesKept(frames, expected) <==> FramesKept(frames, expected.(container := container))
    ensures SoundKept(sound, expected, selection) <==> SoundKept(sound, expected.(container := container), selection)
    ensures WantedVideos(expected.(container := container)) == WantedVideos(expected)
    ensures WantedAudios(expected.(container := container)) == WantedAudios(expected)
  {
  }

  lemma VideoEffectKeeps(source: Source, plan: Plan, request: Request)
    requires VideoPlanned(plan, request)
    ensures var selection, smaller := Select(request.probe.streams), request.operation.SmallerVideo?;
      EffectKeeps(VideoEffect(source, request.inputPath, request.outputPath, selection, smaller), plan,
                  request)
  {
    var selection, smaller := Select(request.probe.streams), request.operation.SmallerVideo?;
    var expected := VideoExpected(selection, smaller, plan.expected.duration, plan.expected.tolerance);
    VideoSoundKept(selection, smaller, plan.expected.duration, plan.expected.tolerance);
    VideoFramesKept(selection, smaller, plan.expected.duration, plan.expected.tolerance);
    VideoMapsKept(source, request.inputPath, selection, smaller, plan.expected.duration,
                  plan.expected.tolerance);
    ContainerApart(TargetFrames(selection.video.value, smaller), TargetSound(selection, smaller), expected, "mp4",
                   selection);
    assert plan.expected.videoCodec == "h264" != "";
  }

  ghost predicate VideoPlanned(plan: Plan, request: Request) {
    var selection, smaller := Select(request.probe.streams), request.operation.SmallerVideo?;
    && VideoOperation(request.operation) && selection.video.Some? && UsableVideo(selection.video.value)
    && plan.outputPath == request.outputPath
    && plan.expected == VideoExpected(selection, smaller, plan.expected.duration,
                                      plan.expected.tolerance).(container := "mp4")
  }

  /** What can be seen decides whether the contract is kept. */
  lemma SeenKeeps(e: Effect, plan: Plan, request: Request)
    ensures EffectKeeps(Seen(e), plan, request) <==> EffectKeeps(e, plan, request)
  {
    assert FrameCodec(Seen(e).frames) == FrameCodec(e.frames);
    assert FramesKept(Seen(e).frames, plan.expected) <==> FramesKept(e.frames, plan.expected);
  }

  lemma VideoKeeps(source: Source, args: seq<Opt>, plan: Plan, request: Request)
    requires VideoPlanned(plan, request)
    requires args != [] && args[|args| - 1] == Output(request.outputPath)
    requires var selection, smaller := Select(request.probe.streams), request.operation.SmallerVideo?;
      Seen(Interpret(From(source), args))
      == Seen(VideoEffect(source, request.inputPath, request.outputPath, selection, smaller))
    ensures KeepsContract(source, args, plan, request)
  {
    var selection, smaller := Select(request.probe.streams), request.operation.SmallerVideo?;
    VideoEffectKeeps(source, plan, request);
    SeenKeeps(VideoEffect(source, request.inputPath, request.outputPath, selection, smaller), plan, request);
  }

  /** Every plan of every request: its arguments keep its contract, and so do the
      software arguments kept for a retry. */
  lemma PlansKeepContract(request: Request, source: Source)
    requires Describes(request, source)
    ensures var r := PlanFor(request);
      r.Ok? ==> KeepsContract(source, r.value.args, r.value, request)
                && (r.value.path.CPUPath? <==> r.value.cpuArgs == [])
                && (r.value.cpuArgs != [] ==> KeepsContract(source, r.value.cpuArgs, r.value, request))
  {
    var r := PlanFor(request);
    if r.Ok? {
      if VideoOperation(request.operation) {
        VideoPlanKeeps(request, source, r.value);
      } else {
        AudioPlanKeeps(request, source, r.value);
      }
    }
  }

  lemma VideoPlanKeeps(request: Request, source: Source, plan: Plan)
    requires Describes(request, source) && PlanFor(request) == Ok(plan) && VideoOperation(request.operation)
    ensures KeepsContract(source, plan.args, plan, request)
    ensures plan.path.CPUPath? <==> plan.cpuArgs == []
    ensures plan.cpuArgs != [] ==> KeepsContract(source, plan.cpuArgs, plan, request)
  {
    var mode, device := PlanParts(request, plan);
    SoftwareVideo(request, mode);
    AcceleratedKeeps(request, source, SoftwarePlan(request, mode).value, plan, mode, device);
  }

  lemma SoftwareArgsKeep(source: Source, plan: Plan, request: Request)
    requires VideoPlanned(plan, request)
    ensures KeepsContract(source, VideoArgs(request.inputPath, request.outputPath, Select(request.probe.streams),
                                    request.operation.SmallerVideo?), plan, request)
  {
    var selection, smaller := Select(request.probe.streams), request.operation.SmallerVideo?;
    VideoArgsMean(source, request.inputPath, request.outputPath, selection, smaller);
    VideoKeeps(source, VideoArgs(request.inputPath, request.outputPath, selection, smaller), plan, request);
  }

  lemma HardwareArgsKeep(source: Source, plan: Plan, request: Request, device: string, hardware: bool)
    requires VideoPlanned(plan, request) && request.vaapi.Some? && Describes(request, source)
    requires hardware == UsesHardware(Select(request.probe.streams).video.value, request.vaapi.value)
    ensures KeepsContract(source, VAAPIArgs(request.inputPath, request.outputPath, Select(request.probe.streams),
                                    request.operation.SmallerVideo?, device, hardware), plan, request)
  {
    var selection, smaller := Select(request.probe.streams), request.operation.SmallerVideo?;
    VAAPIArgsMean(source, request.inputPath, request.outputPath, selection, smaller, device, hardware);
    SeenOnDevice(source, request.inputPath, request.outputPath, selection, smaller, hardware);
    GuardDecodes(request, source);
    VideoKeeps(source, VAAPIArgs(request.inputPath, request.outputPath, selection, smaller, device, hardware), plan,
               request);
  }

  lemma AcceleratedKeeps(request: Request, source: Source, software: Plan, plan: Plan, mode: Mode, device: string)
    requires Describes(request, source)
    requires SoftwarePlan(request, mode) == Ok(software) && VideoOperation(request.operation)
    requires Accelerated(software, request, mode, device) == Ok(plan)
    requires var selection, smaller := Select(request.probe.streams), request.operation.SmallerVideo?;
      && selection.video.Some? && UsableVideo(selection.video.value)
      && software.args == VideoArgs(request.inputPath, request.outputPath, selection, smaller)
      && software.outputPath == request.outputPath && software.path == CPUPath && software.cpuArgs == []
      && software.expected
         == VideoExpected(selection, smaller, software.expected.duration,
                          software.expected.tolerance).(container := "mp4")
    ensures KeepsContract(source, plan.args, plan, request)
    ensures plan.path.CPUPath? <==> plan.cpuArgs == []
    ensures plan.cpuArgs != [] ==> KeepsContract(source, plan.cpuArgs, plan, request)
  {
    SoftwareArgsKeep(source, plan, request);
    if !mode.CPUMode? && Accelerates(request.vaapi, device) {
      HardwareArgsKeep(source, plan, request, device,
                       UsesHardware(Select(request.probe.streams).video.value, request.vaapi.value));
    }
  }

  /** One audio stream, sound of its own, nothing else kept. */
  lemma AudioKeeps(source: Source, args: seq<Opt>, plan: Plan, request: Request, sound: Sound, fast: bool)
    requires Select(request.probe.streams).audio.Some?
    requires args != [] && args[|args| - 1] == Output(request.outputPath) && plan.outputPath == request.outputPath
    requires Interpret(From(source), args) ==
             AudioStart(source, request.inputPath, Select(request.probe.streams).audio.value).(
               sound := sound, fastStart := fast, container := plan.expected.container, output := request.outputPath)
    requires plan.expected.videoCodec == "" && plan.expected.audioPresence.AudioRequired?
             && plan.expected.fastStart == fast
    requires FramesKept(NO_FRAMES, plan.expected) && SoundKept(sound, plan.expected, Select(request.probe.streams))
    ensures KeepsContract(source, args, plan, request)
  {
    SeenKeeps(Interpret(From(source), args), plan, request);
  }

  lemma AudioExpectedKeeps(codec: Codec, sound: Sound, expected: Expected, selection: Selection)
    requires selection.audio.Some? && !codec.NoCodec? && sound.codec == codec
    requires var audio := selection.audio.value; var d, t := expected.duration, expected.tolerance;
      || (sound.channels == 2 && sound.sampleRate == 48000 &&
          expected ==
          AudioExpected(CodecName(codec), 2, "stereo", 48000, expected.fastStart, d, t).(container := expected.container))
      || (sound.channels == 0 &&
          expected == AudioExpected(CodecName(codec), audio.channels, audio.channelLayout, audio.sampleRate,
                                    expected.fastStart, d, t).(container := expected.container))
    ensures FramesKept(NO_FRAMES, expected) && SoundKept(sound, expected, selection)
    ensures expected.videoCodec == "" && expected.audioPresence.AudioRequired?
  {
    assert "bt709" != "" && "yuv420p" != "";
  }

  lemma AudioPlanKeeps(request: Request, source: Source, plan: Plan)
    requires PlanFor(request) == Ok(plan) && !VideoOperation(request.operation)
    ensures KeepsContract(source, plan.args, plan, request) && plan.path.CPUPath? && plan.cpuArgs == []
  {
    var mode, _ := PlanParts(request, plan);
    SoftwareAudio(request, mode);
    AudioPlannedKeeps(request, source, plan);
  }

  lemma AACKeeps(request: Request, source: Source, plan: Plan)
    requires Select(request.probe.streams).audio.Some? && plan.outputPath == request.outputPath
    requires AudioPlanned(request, plan, Select(request.probe.streams).audio.value) && request.operation.ExtractAudio?
    ensures KeepsContract(source, plan.args, plan, request)
  {
    var selection := Select(request.probe.streams);
    AACAudioArgsMean(source, request.inputPath, request.outputPath, selection.audio.value);
    AudioExpectedKeeps(AAC, Stereo(AAC, "192k"), plan.expected, selection);
    AudioKeeps(source, plan.args, plan, request, Stereo(AAC, "192k"), true);
  }

  lemma MP3Keeps(request: Request, source: Source, plan: Plan)
    requires Select(request.probe.streams).audio.Some? && plan.outputPath == request.outputPath
    requires AudioPlanned(request, plan, Select(request.probe.streams).audio.value)
             && request.operation.CompatibleAudio?
    ensures KeepsContract(source, plan.args, plan, request)
  {
    var selection := Select(request.probe.streams);
    MP3AudioArgsMean(source, request.inputPath, request.outputPath, selection.audio.value);
    AudioExpectedKeeps(MP3, Stereo(MP3, "192k"), plan.expected, selection);
    AudioKeeps(source, plan.args, plan, request, Stereo(MP3, "192k"), false);
  }

  lemma FLACKeeps(request: Request, source: Source, plan: Plan)
    requires Select(request.probe.streams).audio.Some? && plan.outputPath == request.outputPath
    requires AudioPlanned(request, plan, Select(request.probe.streams).audio.value) && request.operation.LosslessAudio?
    ensures KeepsContract(source, plan.args, plan, request)
  {
    var selection := Select(request.probe.streams);
    FLACAudioArgsMean(source, request.inputPath, request.outputPath, selection.audio.value);
    AudioExpectedKeeps(FLAC, NO_SOUND.(codec := FLAC), plan.expected, selection);
    AudioKeeps(source, plan.args, plan, request, NO_SOUND.(codec := FLAC), false);
  }

  lemma AudioPlannedKeeps(request: Request, source: Source, plan: Plan)
    requires Select(request.probe.streams).audio.Some? && plan.outputPath == request.outputPath
    requires AudioPlanned(request, plan, Select(request.probe.streams).audio.value)
    ensures KeepsContract(source, plan.args, plan, request)
  {
    if request.operation.ExtractAudio? {
      AACKeeps(request, source, plan);
    } else if request.operation.CompatibleAudio? {
      MP3Keeps(request, source, plan);
    } else {
      FLACKeeps(request, source, plan);
    }
  }

  // ---------------------------------------------------------------- where a plan writes

  /** The output path is the last argument, and the only one. */
  ghost predicate WritesLast(args: seq<Opt>, path: string) {
    && args != [] && args[|args| - 1] == Output(path)
    && forall i :: 0 <= i < |args| - 1 ==> !args[i].Output?
  }

  lemma WritesLastAppend(before: seq<Opt>, after: seq<Opt>, path: string)
    requires WritesLast(after, path) && forall i :: 0 <= i < |before| ==> !before[i].Output?
    ensures WritesLast(before + after, path)
  {
  }

  /** No builder names the output before the end. */
  lemma PlansWriteLast(request: Request)
    ensures var r := PlanFor(request);
      r.Ok? ==> WritesLast(r.value.args, r.value.outputPath)
                && (r.value.cpuArgs != [] ==> WritesLast(r.value.cpuArgs, r.value.outputPath))
  {
    var r := PlanFor(request);
    if r.Ok? {
      var mode, device := PlanParts(request, r.value);
      if VideoOperation(request.operation) {
        SoftwareVideo(request, mode);
        VideoWritesLast(request, mode, device, r.value);
      } else {
        SoftwareAudio(request, mode);
        AudioWritesLast(request, r.value, Select(request.probe.streams).audio.value);
      }
    }
  }

  lemma AudioWritesLast(request: Request, plan: Plan, audio: Stream)
    requires AudioPlanned(request, plan, audio)
    ensures WritesLast(plan.args, request.outputPath)
  {
    var head := AudioHead(request.inputPath, audio);
    assert forall i :: 0 <= i < |head| ==> !head[i].Output?;
  }

  lemma VideoWritesLast(request: Request, mode: Mode, device: string, plan: Plan)
    requires VideoOperation(request.operation) && SoftwarePlan(request, mode).Ok?
    requires Accelerated(SoftwarePlan(request, mode).value, request, mode, device) == Ok(plan)
    requires var selection := Select(request.probe.streams);
      && selection.video.Some? && UsableVideo(selection.video.value)
      && SoftwarePlan(request, mode).value.args
         == VideoArgs(request.inputPath, request.outputPath, selection, request.operation.SmallerVideo?)
      && SoftwarePlan(request, mode).value.outputPath == request.outputPath
      && SoftwarePlan(request, mode).value.cpuArgs == []
    ensures WritesLast(plan.args, plan.outputPath)
    ensures plan.cpuArgs != [] ==> WritesLast(plan.cpuArgs, plan.outputPath)
  {
    var selection, smaller := Select(request.probe.streams), request.operation.SmallerVideo?;
    SoftwareWritesLast(request.inputPath, request.outputPath, selection, smaller);
    if !mode.CPUMode? && Accelerates(request.vaapi, device) {
      HardwareWritesLast(request.inputPath, request.outputPath, selection, smaller, device,
                         UsesHardware(selection.video.value, request.vaapi.value));
    }
  }

  ghost predicate NoOutput(args: seq<Opt>) {
    forall i :: 0 <= i < |args| ==> !args[i].Output?
  }

  lemma NoOutputAppend(a: seq<Opt>, b: seq<Opt>)
    requires NoOutput(a) && NoOutput(b)
    ensures NoOutput(a + b)
  {
  }

  lemma SoftwareWritesLast(input: string, output: string, selection: Selection, smaller: bool)
    requires selection.video.Some? && UsableVideo(selection.video.value)
    ensures WritesLast(VideoArgs(input, output, selection, smaller), output)
  {
    var video := selection.video.value;
    var (w, h) := TargetSize(video, smaller);
    var mapped := MapsWriteNothing(InputArgs(input), selection);
    var codec := [Framing(VideoEncoder(Libx264)), Framing(Preset), Framing(Crf(Level(smaller)))];
    var filter := [Framing(VideoFilter(SoftwareFilter(w, h, YUV420P, IsHDR(video)))), Framing(PixFmt(YUV420P))];
    NoOutputAppend(mapped, codec);
    NoOutputAppend(mapped + codec, filter);
    EndWritesLast(mapped + codec + filter, selection, smaller, IsHDR(video), output);
  }

  lemma HardwareWritesLast(input: string, output: string, selection: Selection, smaller: bool, device: string,
                           hardware: bool)
    requires selection.video.Some? && UsableVideo(selection.video.value)
    ensures WritesLast(VAAPIArgs(input, output, selection, smaller, device, hardware), output)
  {
    var video := selection.video.value;
    var (w, h) := TargetSize(video, smaller);
    var init := [Running(InitHwDevice(device)), Running(FilterHwDevice)];
    var decoder := if hardware then [Running(HwAccel), Running(HwAccelDevice), Running(HwAccelOutputFormat)] else [];
    NoOutputAppend(Banner(), init);
    NoOutputAppend(Banner() + init, decoder);
    NoOutputAppend(Banner() + init + decoder, [Running(ProtocolWhitelist), Input(input)]);
    var mapped := MapsWriteNothing(Banner() + init + decoder + [Running(ProtocolWhitelist), Input(input)], selection);
    var codec := [Framing(VideoEncoder(H264VAAPI)), Framing(Qp(Level(smaller)))];
    var filter := [Framing(VideoFilter(if hardware then [ScaleVaapi(w, h, NV12)]
                                       else SoftwareFilter(w, h, NV12, IsHDR(video)) + [HwUpload]))];
    NoOutputAppend(mapped, codec);
    NoOutputAppend(mapped + codec, filter);
    EndWritesLast(mapped + codec + filter, selection, smaller, IsHDR(video), output);
  }

  lemma MapsWriteNothing(before: seq<Opt>, selection: Selection) returns (mapped: seq<Opt>)
    requires selection.video.Some? && NoOutput(before)
    ensures mapped == before + [MapStream(selection.video.value.index)] + AudioMap(selection)
                      + StripArgs() + [Dropping(Subtitles), Dropping(DataStreams)]
    ensures NoOutput(mapped)
  {
    var first := [MapStream(selection.video.value.index)];
    NoOutputAppend(before, first);
    NoOutputAppend(before + first, AudioMap(selection));
    NoOutputAppend(before + first + AudioMap(selection), StripArgs());
    NoOutputAppend(before + first + AudioMap(selection) + StripArgs(), [Dropping(Subtitles), Dropping(DataStreams)]);
    mapped := before + first + AudioMap(selection) + StripArgs() + [Dropping(Subtitles), Dropping(DataStreams)];
  }

  lemma EndWritesLast(before: seq<Opt>, selection: Selection, smaller: bool, hdr: bool, output: string)
    requires NoOutput(before)
    ensures WritesLast(before + ColorArgs(hdr) + VideoAudioArgs(selection, smaller) + MP4Args(output), output)
  {
    NoOutputAppend(before, ColorArgs(hdr));
    NoOutputAppend(before + ColorArgs(hdr), VideoAudioArgs(selection, smaller));
    WritesLastAppend(before + ColorArgs(hdr) + VideoAudioArgs(selection, smaller), MP4Args(output), output);
  }
}
