/** Which operations an upload is offered: those whose pure plan accepts its content. */
module Inspect {
  import opened Options
  import opened Profiles
  import opened ProfileRegistry
  import MediaPlan
  import MediaMeaning
  import ImagePlan
  import Streams
  import Texts

  /** A rejection skips one operation; any other problem ends the inspection. */
  datatype Problem =
    | Rejected
    | NoCompatibleOperations
    | Misconfigured

  datatype Detected = Detected(kind: MediaKind, info: ImagePlan.Info, probe: Streams.Probe)

  datatype Inspection = Inspection(recommended: Operation, compatible: seq<Operation>)

  function ImageRequest(operation: Operation, info: ImagePlan.Info): ImagePlan.Request {
    ImagePlan.Request("input", "output", "work", "vips", operation, info, ImagePlan.Strip)
  }

  function MediaRequest(operation: Operation, probe: Streams.Probe): MediaPlan.Request {
    MediaPlan.Request(operation, "input", "output", probe, 0, 0, MediaPlan.AccelerationConfig("cpu", ""), None)
  }

  function ImageProblem(error: Option<ImagePlan.ImageError>): Option<Problem> {
    if error.None? then None else if error.value.InvalidRequest? then Some(Misconfigured) else Some(Rejected)
  }

  function ValidateOperation(operation: Operation, d: Detected): Option<Problem> {
    var spec := Lookup(operation);
    if spec.None? || d.kind !in spec.value.acceptedInputs then Some(Rejected)
    else if d.kind.ImageMedia? then
      if !spec.value.engine.ImageEngine? then Some(Misconfigured)
      else
        var content := ImageProblem(ImagePlan.ContentRejection(d.info, ImagePlan.DEFAULT_LIMITS));
        if content.Some? then content else ImageProblem(ImagePlan.Rejection(ImageRequest(operation, d.info)))
    else if !spec.value.engine.MediaEngine? then Some(Misconfigured)
    else
      match MediaPlan.PlanFor(MediaRequest(operation, d.probe))
      case Ok(_) => None
      case Err(e) => if e.InvalidRequest? then Some(Misconfigured) else Some(Rejected)
  }

  predicate Plannable(operation: Operation, d: Detected) {
    ValidateOperation(operation, d).None?
  }

  /** The operations of a list of profiles that pass a check, in its order. */
  function Passing(specs: seq<Spec>, check: Operation -> Option<Problem>): seq<Operation> {
    if specs == [] then []
    else
      var last := specs[|specs| - 1].operation;
      Passing(specs[..|specs| - 1], check) + if check(last).None? then [last] else []
  }

  /** What a detected file is offered. */
  function Offered(d: Detected): seq<Operation> {
    Passing(Accepting(REGISTRY, d.kind), o => ValidateOperation(o, d))
  }

  // ---------------------------------------------------------------- placeholders are never at fault

  lemma PlaceholderPaths()
    ensures MediaPlan.LocalPath("input") && MediaPlan.LocalPath("output")
  {
  }

  lemma PlaceholderDevice()
    ensures MediaPlan.NormalizeAcceleration(MediaPlan.AccelerationConfig("cpu", "")).Some?
  {
    var device := MediaPlan.DEFAULT_DEVICE;
    assert device == ['/'] + ("dev" + ['/'] + ("dri" + ['/'] + "renderD128"));
    assert '/' !in "dev" && '/' !in "dri" && '/' !in "renderD128";
    assert device[|device| - 1] == '8';
    assert '\0' !in device;
    ThreePartDevice(device, "dev", "dri", "renderD128");
    CPUModeNormalizes();
  }

  /** Absolute paths of three plain parts are clean and local. */
  lemma ThreePartDevice(device: string, a: string, b: string, c: string)
    requires device == ['/'] + (a + ['/'] + (b + ['/'] + c)) && '/' !in a && '/' !in b && '/' !in c
    requires |a| == 3 && |b| == 3 && |c| > 2 && device[|device| - 1] !in Texts.SPACES && '\0' !in device
    ensures MediaPlan.CleanAbsolute(device) && MediaPlan.LocalPath(device) && Texts.TrimSpace(device) == device
  {
    assert device[1..] == a + ['/'] + (b + ['/'] + c);
    Texts.SplitHead(a, b + ['/'] + c, '/');
    Texts.SplitHead(b, c, '/');
    Texts.SplitHead(c, "", '/');
    assert Texts.Split(device[1..], '/') == [a] + ([b] + [c]);
    Texts.TrimSpaceKeeps(device);
  }

  lemma CPUModeNormalizes()
    requires MediaPlan.CleanAbsolute(MediaPlan.DEFAULT_DEVICE) && MediaPlan.LocalPath(MediaPlan.DEFAULT_DEVICE)
    requires Texts.TrimSpace(MediaPlan.DEFAULT_DEVICE) == MediaPlan.DEFAULT_DEVICE && '\0' !in MediaPlan.DEFAULT_DEVICE
    ensures MediaPlan.NormalizeAcceleration(MediaPlan.AccelerationConfig("cpu", "")).Some?
  {
    assert "cpu" != "" && "cpu"[0] != "auto"[0];
  }

  /** No offered kind of input ends an inspection: an operation registered for the
      kind is either plannable or rejected for its content. */
  lemma NeverMisconfigured(operation: Operation, d: Detected)
    ensures ValidateOperation(operation, d) != Some(Misconfigured)
    ensures ValidateOperation(operation, d) != Some(NoCompatibleOperations)
  {
    if Lookup(operation).Some? && d.kind in Lookup(operation).value.acceptedInputs {
      if d.kind.ImageMedia? {
        ImageNeverMisconfigured(operation, d);
      } else {
        MediaNeverMisconfigured(operation, d);
      }
    }
  }

  lemma ImageNeverMisconfigured(operation: Operation, d: Detected)
    requires Lookup(operation).Some? && d.kind in Lookup(operation).value.acceptedInputs && d.kind.ImageMedia?
    ensures ValidateOperation(operation, d) in {None, Some(Rejected)}
  {
    EngineFits(operation, d.kind);
    ImagePlaceholdersFine(operation, d.info);
  }

  lemma MediaNeverMisconfigured(operation: Operation, d: Detected)
    requires Lookup(operation).Some? && d.kind in Lookup(operation).value.acceptedInputs && !d.kind.ImageMedia?
    ensures ValidateOperation(operation, d) in {None, Some(Rejected)}
  {
    EngineFits(operation, d.kind);
    MediaPlaceholdersFine(operation, d.probe);
  }

  lemma ImagePlaceholdersFine(operation: Operation, info: ImagePlan.Info)
    requires ImagePlan.ImageOperation(operation)
    ensures ImagePlan.ContentRejection(info, ImagePlan.DEFAULT_LIMITS) != Some(ImagePlan.InvalidRequest)
    ensures ImagePlan.Rejection(ImageRequest(operation, info)) != Some(ImagePlan.InvalidRequest)
  {
  }

  lemma MediaPlaceholdersFine(operation: Operation, probe: Streams.Probe)
    requires Lookup(operation).Some? && !ImagePlan.ImageOperation(operation)
    ensures MediaPlan.PlanFor(MediaRequest(operation, probe)) != Err(MediaPlan.InvalidRequest)
  {
    PlaceholderPaths();
    PlaceholderDevice();
  }

  lemma EngineFits(operation: Operation, kind: MediaKind)
    requires Lookup(operation).Some? && kind in Lookup(operation).value.acceptedInputs
    ensures Lookup(operation).value.engine.ImageEngine? <==> kind.ImageMedia?
    ensures kind.ImageMedia? ==> ImagePlan.ImageOperation(operation)
    ensures !kind.ImageMedia? ==> !ImagePlan.ImageOperation(operation)
  {
  }

  // ---------------------------------------------------------------- the loop

  /** Goes through the profiles, keeping those that pass; falls back to the first one
      kept when the preferred one is not among them. */
  method InspectBy(specs: seq<Spec>, preferred: Operation, check: Operation -> Option<Problem>)
    returns (r: Result<Inspection, Problem>)
    requires exists k :: 0 <= k < |specs| && specs[k].operation == preferred
    ensures r == Err(Misconfigured) ==> exists o :: check(o) == Some(Misconfigured)
    ensures (forall o :: check(o) == None || check(o) == Some(Rejected)) ==>
              var offered := Passing(specs, check);
              if offered == [] then r == Err(Rejected)
              else r == Ok(Inspection(if preferred in offered then preferred else offered[0], offered))
  {
    var compatible: seq<Operation> := [];
    var preferredError: Option<Problem> := None;
    for i := 0 to |specs|
      invariant compatible == Passing(specs[..i], check)
      invariant preferredError.Some? ==> preferredError.value == Rejected
      invariant (exists k :: 0 <= k < i && specs[k].operation == preferred) ==>
                  preferred in compatible || preferredError.Some?
    {
      var operation := specs[i].operation;
      assert specs[..i + 1][..i] == specs[..i];
      var problem := check(operation);
      if problem.Some? {
        if problem.value != Rejected {
          return Err(problem.value);
        }
        if operation == preferred {
          preferredError := problem;
        }
      } else {
        compatible := compatible + [operation];
      }
    }
    assert specs[..|specs|] == specs;
    if compatible == [] {
      if preferredError.Some? {
        return Err(preferredError.value);
      }
      return Err(NoCompatibleOperations);
    }
    var recommended := preferred;
    if preferred !in compatible {
      recommended := compatible[0];
    }
    return Ok(Inspection(recommended, compatible));
  }

  /** The inspection of a detected file: exactly the plannable operations of its kind,
      in registry order, with the recommendation among them; rejected exactly when
      there are none. */
  method InspectDetected(d: Detected) returns (r: Result<Inspection, Problem>)
    ensures Offered(d) == [] ==> r == Err(Rejected)
    ensures Offered(d) != [] ==>
              && r.Ok? && r.value.compatible == Offered(d)
              && r.value.recommended
                 == if Recommended(d.kind) in Offered(d) then Recommended(d.kind) else Offered(d)[0]
  {
    var specs := Compatible(d.kind);
    PreferredListed(d.kind);
    forall o ensures ValidateOperation(o, d) == None || ValidateOperation(o, d) == Some(Rejected) {
      NeverMisconfigured(o, d);
    }
    r := InspectBy(specs, Recommended(d.kind), o => ValidateOperation(o, d));
  }

  lemma PreferredListed(kind: MediaKind)
    ensures exists k ::
              0 <= k < |Accepting(REGISTRY, kind)| && Accepting(REGISTRY, kind)[k].operation == Recommended(kind)
  {
    LookupExact(Recommended(kind));
    var i :| 0 <= i < |REGISTRY| && REGISTRY[i].operation == Recommended(kind);
    assert REGISTRY[i] in Accepting(REGISTRY, kind);
  }

  lemma {:induction false} PassingExact(specs: seq<Spec>, check: Operation -> Option<Problem>, operation: Operation)
    ensures operation in Passing(specs, check) <==>
            check(operation).None? && exists i :: 0 <= i < |specs| && specs[i].operation == operation
  {
    if specs != [] {
      var front := specs[..|specs| - 1];
      PassingExact(front, check, operation);
      if i :| 0 <= i < |specs| && specs[i].operation == operation {
        assert i < |front| ==> front[i].operation == operation;
      }
    }
  }

  /** Offered means plannable: nothing plannable is withheld, and nothing else is
      offered, because planning refuses an operation of another kind. */
  lemma OfferedIffPlannable(d: Detected, operation: Operation)
    ensures operation in Offered(d) <==> Plannable(operation, d)
  {
    var check := o => ValidateOperation(o, d);
    PassingExact(Accepting(REGISTRY, d.kind), check, operation);
    if Plannable(operation, d) {
      LookupExact(operation);
      var i :| 0 <= i < |REGISTRY| && REGISTRY[i].operation == operation;
      assert REGISTRY[i] in Accepting(REGISTRY, d.kind);
    }
  }

  lemma PlannableIsAccepted(operation: Operation, d: Detected)
    requires !d.kind.ImageMedia? && Plannable(operation, d)
    ensures MediaPlan.Rejection(operation, Streams.Select(d.probe.streams)).None?
  {
    var request := MediaRequest(operation, d.probe);
    var _, _ := MediaMeaning.PlanParts(request, MediaPlan.PlanFor(request).value);
  }

  /** An operation offered for audio or video can be planned by the worker too, on the
      real paths, with any acceleration report: planning depends on nothing else. */
  lemma OfferedCanBePlanned(request: MediaPlan.Request, kind: MediaKind, info: ImagePlan.Info)
    requires MediaPlan.WellFormed(request) && !kind.ImageMedia?
    requires MediaPlan.NormalizeAcceleration(MediaMeaning.WithMode(request, "auto").acceleration).Some?
    requires Plannable(request.operation, Detected(kind, info, request.probe))
    ensures MediaPlan.PlanFor(MediaMeaning.WithMode(request, "auto")).Ok?
    ensures MediaPlan.PlanFor(MediaMeaning.WithMode(request, "cpu")).Ok?
  {
    PlannableIsAccepted(request.operation, Detected(kind, info, request.probe));
    MediaMeaning.ModesNormalize(request.acceleration);
    PlansInSoftware(MediaMeaning.WithMode(request, "cpu"));
    MediaMeaning.AutoMeansCPU(request, MediaPlan.LeastSource(request));
  }

  lemma PlansInSoftware(request: MediaPlan.Request)
    requires MediaPlan.WellFormed(request)
    requires MediaPlan.NormalizeAcceleration(request.acceleration).Some?
    requires MediaPlan.NormalizeAcceleration(request.acceleration).value.0 == MediaPlan.CPUMode
    requires MediaPlan.Rejection(request.operation, Streams.Select(request.probe.streams)).None?
    ensures MediaPlan.PlanFor(request).Ok?
  {
  }

  /** And one offered for an image, for any folders and any known date policy. */
  lemma OfferedImageCanBePlanned(r: ImagePlan.Request, probe: Streams.Probe)
    requires r.inputPath != "" && r.outputDir != "" && r.workDir != "" && r.vipsPath != "" && !r.policy.UnknownPolicy?
    requires Plannable(r.operation, Detected(ImageMedia, r.info, probe))
    ensures ImagePlan.Rejection(r).None? && ImagePlan.ContentRejection(r.info, ImagePlan.DEFAULT_LIMITS).None?
  {
  }
}
