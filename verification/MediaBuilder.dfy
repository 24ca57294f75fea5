/** The plan under construction, as its builder methods fill it in. */
module MediaBuilder {
  import opened Options
  import opened Profiles
  import opened ProfileRegistry
  import opened Streams
  import opened MediaPlan
  import Dimensions

  class Builder {
    const inputPath: string
    const outputPath: string
    const tolerance: nat
    var args: seq<Opt>
    var expected: Expected
    var path: ExecutionPath
    var fallback: FallbackReason
    var cpuArgs: seq<Opt>

    constructor (inputPath: string, outputPath: string, tolerance: nat)
      ensures this.inputPath == inputPath && this.outputPath == outputPath && this.tolerance == tolerance
      ensures args == [] && cpuArgs == [] && path == CPUPath && fallback == NoFallback
      ensures expected == BlankExpected(None, tolerance)
    {
      this.inputPath, this.outputPath, this.tolerance := inputPath, outputPath, tolerance;
      args, cpuArgs, path, fallback := [], [], CPUPath, NoFallback;
      expected := BlankExpected(None, tolerance);
    }

    method BuildVideo(selection: Selection, smaller: bool)
      requires selection.video.Some? && UsableVideo(selection.video.value) && expected.tolerance == tolerance
      modifies this`args, this`expected
      ensures args == VideoArgs(inputPath, outputPath, selection, smaller)
      ensures expected == VideoExpected(selection, smaller, old(expected).duration, tolerance)
    {
      var video := selection.video.value;
      var (width, height) := DisplayedDimensions(video);
      var level, bitrate := "20", "192k";
      if smaller {
        var fit := Dimensions.FitDimensions(width, height, 1280, 720);
        width, height := fit.0, fit.1;
        level, bitrate := "28", "128k";
      } else {
        width := Dimensions.EvenFloor(width);
        height := Dimensions.EvenFloor(height);
      }
      var hdr := IsHDR(video);
      args := InputArgs(inputPath) + [MapStream(video.index)];
      var presence, codec := AudioForbidden, "";
      if selection.audio.Some? {
        args := args + [MapStream(selection.audio.value.index)];
        presence, codec := AudioRequired, "aac";
      } else {
        args := args + [];
      }
      args := args + StripArgs() + [Dropping(Subtitles), Dropping(DataStreams)]
              + [Framing(VideoEncoder(Libx264)), Framing(Preset), Framing(Crf(level))]
              + [Framing(VideoFilter(SoftwareFilter(width, height, YUV420P, hdr))), Framing(PixFmt(YUV420P))];
      args := args + if hdr then ColorArgs(true) else [];
      args := args + if selection.audio.Some? then AACArgs(bitrate) else [];
      args := args + MP4Args(outputPath);
      expected := BlankExpected(expected.duration, expected.tolerance).(
        videoCodec := "h264", audioCodec := codec, pixelFormat := "yuv420p", width := width, height := height,
        audioPresence := presence,
        channels := if selection.audio.Some? then 2 else 0,
        channelLayout := if selection.audio.Some? then "stereo" else "",
        sampleRate := if selection.audio.Some? then 48000 else 0, fastStart := true);
      if hdr {
        expected := expected.(colorRange := "tv", colorSpace := "bt709", colorTransfer := "bt709",
                              colorPrimaries := "bt709");
      }
    }

    method BuildAACAudio(audio: Stream)
      requires expected.tolerance == tolerance
      modifies this`args, this`expected
      ensures args == AACAudioArgs(inputPath, outputPath, audio)
      ensures expected == AudioExpected("aac", 2, "stereo", 48000, true, old(expected).duration, tolerance)
    {
      args := AudioHead(inputPath, audio);
      args := args + AACArgs("192k");
      args := args + MP4Args(outputPath);
      expected := AudioExpected("aac", 2, "stereo", 48000, true, expected.duration, expected.tolerance);
    }

    method BuildMP3Audio(audio: Stream)
      requires expected.tolerance == tolerance
      modifies this`args, this`expected
      ensures args == MP3AudioArgs(inputPath, outputPath, audio)
      ensures expected == AudioExpected("mp3", 2, "stereo", 48000, false, old(expected).duration, tolerance)
    {
      args := AudioHead(inputPath, audio);
      args := args + [Sounding(AudioEncoder(Libmp3lame)), Sounding(AudioBitrate("192k")),
                      Sounding(AudioChannels(2)), Sounding(AudioRate(48000))];
      args := args + [Container("mp3"), Output(outputPath)];
      expected := AudioExpected("mp3", 2, "stereo", 48000, false, expected.duration, expected.tolerance);
    }

    /** Lossless audio expects the source's own channels, layout and rate. */
    method BuildFLACAudio(audio: Stream)
      requires expected.tolerance == tolerance
      modifies this`args, this`expected
      ensures args == FLACAudioArgs(inputPath, outputPath, audio)
      ensures expected == AudioExpected("flac", audio.channels, audio.channelLayout, audio.sampleRate, false,
                                        old(expected).duration, tolerance)
    {
      args := AudioHead(inputPath, audio);
      args := args + [Sounding(AudioEncoder(FLACEncoder)), Sounding(CompressionLevel)];
      args := args + [Container("flac"), Output(outputPath)];
      expected := AudioExpected("flac", audio.channels, audio.channelLayout, audio.sampleRate, false,
                                expected.duration, expected.tolerance);
    }

    method ApplyAcceleration(mode: Mode, device: string, readiness: Option<Readiness>, selection: Selection,
                             smaller: bool)
      returns (error: Option<PlanError>)
      requires selection.video.Some? && UsableVideo(selection.video.value)
      requires cpuArgs == [] && path == CPUPath && fallback == NoFallback
      modifies this`args, this`path, this`fallback, this`cpuArgs
      ensures error == if mode.VAAPIMode? && !Accelerates(readiness, device) then Some(AccelerationUnavailable)
              else None
      ensures error.Some? || mode.CPUMode? ==>
                args == old(args) && cpuArgs == [] && path == CPUPath && fallback == NoFallback
      ensures mode.AutoMode? && !Accelerates(readiness, device) ==>
                && args == old(args) && cpuArgs == [] && path == CPUPath
                && fallback == (if readiness.Some? && readiness.value.reason != NoFallback
                                then readiness.value.reason else ProbeUnavailable)
      ensures !mode.CPUMode? && Accelerates(readiness, device) ==>
                var hardware := UsesHardware(selection.video.value, readiness.value);
                && cpuArgs == old(args) && fallback == NoFallback
                && args == VAAPIArgs(inputPath, outputPath, selection, smaller, device, hardware)
                && path == if hardware then HardwareDecode else SoftwareDecode
    {
      if mode.CPUMode? {
        return None;
      }
      if readiness.None? || !readiness.value.ready || !readiness.value.complete || readiness.value.device != device {
        var reason := ProbeUnavailable;
        if readiness.Some? && readiness.value.reason != NoFallback {
          reason := readiness.value.reason;
        }
        if mode.VAAPIMode? {
          return Some(AccelerationUnavailable);
        }
        fallback := reason;
        return None;
      }
      cpuArgs := args;
      var hardware := UsesHardware(selection.video.value, readiness.value);
      args := VAAPIArgs(inputPath, outputPath, selection, smaller, device, hardware);
      path := if hardware then HardwareDecode else SoftwareDecode;
      return None;
    }
  }

  function RequiredFilters(video: Stream): seq<string> { if IsHDR(video) then ["zscale", "tonemap"] else [] }

  lemma SoftwareVideoIs(request: Request, mode: Mode, tolerance: nat)
    requires VideoOperation(request.operation) && SoftwarePlan(request, mode).Ok?
    requires tolerance == if request.tolerance <= 0 then DEFAULT_TOLERANCE else request.tolerance
    ensures var selection, smaller := Select(request.probe.streams), request.operation.SmallerVideo?;
      && selection.video.Some? && UsableVideo(selection.video.value) && Lookup(request.operation).Some?
      && SoftwarePlan(request, mode)
         == Ok(Plan(request.operation, VideoArgs(request.inputPath, request.outputPath, selection, smaller),
                    request.outputPath, request.timeout, selection.warnings, RequiredFilters(selection.video.value),
                    VideoExpected(selection, smaller, VideoDuration(request.probe, selection), tolerance).(
                        container := Lookup(request.operation).value.container),
                    mode, CPUPath, NoFallback, []))
  {
    SelectedVideoUsable(request.probe.streams);
  }

  /** What is left of planning once the request is readable. */
  lemma PlanForIs(request: Request, mode: Mode, device: string)
    requires WellFormed(request) && NormalizeAcceleration(request.acceleration) == Some((mode, device))
    ensures var rejection := Rejection(request.operation, Select(request.probe.streams));
      && (rejection.Some? ==> PlanFor(request) == Err(rejection.value))
      && (rejection.None? ==>
            && SoftwarePlan(request, mode).Ok?
            && PlanFor(request) ==
               if VideoOperation(request.operation)
               then Accelerated(SoftwarePlan(request, mode).value, request, mode, device)
               else SoftwarePlan(request, mode))
  {
  }

  method BuildVideoPlan(request: Request, mode: Mode, device: string, selection: Selection, tolerance: nat)
    returns (r: Result<Plan, PlanError>)
    requires selection == Select(request.probe.streams) && VideoOperation(request.operation)
    requires SoftwarePlan(request, mode).Ok?
    requires tolerance == if request.tolerance <= 0 then DEFAULT_TOLERANCE else request.tolerance
    ensures r == Accelerated(SoftwarePlan(request, mode).value, request, mode, device)
  {
    SoftwareVideoIs(request, mode, tolerance);
    var plan := new Builder(request.inputPath, request.outputPath, tolerance);
    var required := RequiredFilters(selection.video.value);
    plan.expected := plan.expected.(duration := VideoDuration(request.probe, selection));
    plan.BuildVideo(selection, request.operation.SmallerVideo?);
    var error := plan.ApplyAcceleration(mode, device, request.vaapi, selection, request.operation.SmallerVideo?);
    if error.Some? {
      return Err(error.value);
    }
    r := Ok(Plan(request.operation, plan.args, request.outputPath, request.timeout, selection.warnings, required,
                 plan.expected.(container := Lookup(request.operation).value.container), mode, plan.path, plan.fallback,
                 plan.cpuArgs));
  }

  method BuildAudioPlan(request: Request, mode: Mode, selection: Selection, tolerance: nat)
    returns (r: Result<Plan, PlanError>)
    requires selection == Select(request.probe.streams) && !VideoOperation(request.operation)
    requires SoftwarePlan(request, mode).Ok?
    requires tolerance == if request.tolerance <= 0 then DEFAULT_TOLERANCE else request.tolerance
    ensures r == SoftwarePlan(request, mode)
  {
    var plan := new Builder(request.inputPath, request.outputPath, tolerance);
    plan.expected := plan.expected.(duration := AudioDuration(request.probe, selection));
    if request.operation.ExtractAudio? {
      plan.BuildAACAudio(selection.audio.value);
    } else if request.operation.CompatibleAudio? {
      plan.BuildMP3Audio(selection.audio.value);
    } else {
      plan.BuildFLACAudio(selection.audio.value);
    }
    r := Ok(Plan(request.operation, plan.args, request.outputPath, request.timeout, selection.warnings, [],
                 plan.expected.(container := Lookup(request.operation).value.container),
                 mode, CPUPath, NoFallback, []));
  }

  /** Checks, builds and accelerates, in that order. */
  method BuildPlan(request: Request) returns (r: Result<Plan, PlanError>)
    ensures r == PlanFor(request)
  {
    if !WellFormed(request) {
      return Err(InvalidRequest);
    }
    var acceleration := NormalizeAcceleration(request.acceleration);
    if acceleration.None? {
      return Err(InvalidRequest);
    }
    var (mode, device) := acceleration.value;
    PlanForIs(request, mode, device);
    var selection := SelectStreams(request.probe);
    var tolerance := if request.tolerance == 0 then DEFAULT_TOLERANCE else request.tolerance;
    var spec := Lookup(request.operation);
    if spec.None? || !spec.value.engine.MediaEngine? {
      NotMedia(request.operation);
      return Err(InvalidRequest);
    }
    var rejection := Rejection(request.operation, selection);
    if rejection.Some? {
      return Err(rejection.value);
    }
    if VideoOperation(request.operation) {
      r := BuildVideoPlan(request, mode, device, selection, tolerance);
    } else {
      r := BuildAudioPlan(request, mode, selection, tolerance);
    }
  }

  lemma NotMedia(operation: Operation)
    requires Lookup(operation).None? || !Lookup(operation).value.engine.MediaEngine?
    ensures forall selection :: Rejection(operation, selection) == Some(InvalidRequest)
    ensures !VideoOperation(operation)
  {
  }
}
