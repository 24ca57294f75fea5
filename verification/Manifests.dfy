/** The persisted state of one job and every mutation the service applies to it.

    A mutation is a function from a manifest to a manifest; `Update` in the store
    loads, applies one of these, and saves.  The loops that carry them out in place
    are in `ManifestLoops`.  What every mutation keeps is stated by `ManifestOK`
    and `Absorbs` and proved here, once per mutation. */
module Manifests {
  import opened Options
  import opened Profiles

  type JobId = nat
  type FileId = nat
  type Time = int

  datatype JobState =
    | JobPending | JobQueued | JobRunning
    | JobCompleted | JobFailed | JobCanceled | JobInterrupted
  {
    predicate Terminal() {
      JobCompleted? || JobFailed? || JobCanceled? || JobInterrupted?
    }

    predicate Active() {
      JobQueued? || JobRunning?
    }
  }

  datatype FileState =
    | FileUploaded | FileInspected | FileQueued | FileRunning
    | FileCompleted | FileFailed | FileCanceled | FileInterrupted
  {
    predicate Terminal() {
      FileCompleted? || FileFailed? || FileCanceled? || FileInterrupted?
    }
  }

  datatype FailureKind =
    | FailureRejection | FailureProbe | FailureConfiguration
    | FailureConversion | FailureValidation | FailureCanceled

  datatype Failure = Failure(kind: FailureKind, code: string)

  const CANCELED := Failure(FailureCanceled, "canceled")
  const INTERRUPTED := Failure(FailureConversion, "interrupted")

  datatype Output = Output(name: string, size: nat)

  datatype SelectionSource = NotSelected | RecommendedSource | RequestedSource

  datatype File = File(
    id: FileId,
    name: string,
    size: nat,
    state: FileState,
    recommended: Operation,
    compatible: seq<Operation>,
    selected: Operation,
    source: SelectionSource,
    error: Option<Failure>,
    output: Option<Output>,
    startedAt: Option<Time>,
    finishedAt: Option<Time>)

  /** `expiresAt` is None for the zero time, which never expires. */
  datatype Manifest = Manifest(
    id: JobId,
    state: JobState,
    expiresAt: Option<Time>,
    totalBytes: nat,
    files: seq<File>,
    error: Option<Failure>)
  {
    predicate Expired(now: Time) {
      expiresAt.Some? && now > expiresAt.value
    }
  }

  datatype JobError =
    | ShuttingDown | NotFound | StorageFailed
    | NotStartable | NoConvertibleFiles | QueueFull
    | IncompatibleOperation(requested: Operation)

  // ---------------------------------------------------------------- invariants

  function SumSizes(files: seq<File>): nat {
    if files == [] then 0 else files[0].size + SumSizes(files[1..])
  }

  /** What every file record of every reachable manifest satisfies. */
  ghost predicate FileOK(f: File) {
    && (f.output.Some? <==> f.state.FileCompleted?)
    && (f.finishedAt.Some? <==> f.state.Terminal())
    && (f.error.Some? <==> f.state.FileFailed? || f.state.FileCanceled? || f.state.FileInterrupted?)
    && (f.state.FileInspected? || f.state.FileQueued? || f.state.FileRunning? || f.state.FileCompleted? ==>
          f.recommended in f.compatible)
    && (f.state.FileQueued? || f.state.FileRunning? || f.state.FileCompleted? ==> f.selected in f.compatible)
  }

  ghost predicate DistinctIds(files: seq<File>) {
    forall i, j :: 0 <= i < j < |files| ==> files[i].id != files[j].id
  }

  /** File states a job of each state may hold. */
  ghost predicate StateFits(job: JobState, file: FileState) {
    match job
    case JobPending => file.FileUploaded? || file.FileInspected? || file.FileFailed?
    case JobQueued => file.FileUploaded? || file.FileQueued? || file.FileFailed?
    case JobRunning => !file.FileInspected? && !file.FileInterrupted?
    case _ => file.Terminal()
  }

  ghost predicate HasFile(files: seq<File>, state: FileState) {
    exists i :: 0 <= i < |files| && files[i].state == state
  }

  ghost predicate ManifestOK(m: Manifest) {
    && DistinctIds(m.files)
    && (forall i :: 0 <= i < |m.files| ==> FileOK(m.files[i]) && StateFits(m.state, m.files[i].state))
    && (m.state.JobQueued? ==> HasFile(m.files, FileQueued))
    && (m.state.JobCompleted? ==> HasFile(m.files, FileCompleted))
    && (m.state.JobFailed? ==> HasFile(m.files, FileFailed) && !HasFile(m.files, FileCompleted))
    && m.totalBytes == SumSizes(m.files)
  }

  /** Terminal states absorb: a terminal job state never changes again, and a file
      that is terminal before and still listed afterwards is the same record. */
  ghost predicate AbsorbsFiles(before: seq<File>, after: seq<File>) {
    forall i, j :: 0 <= i < |before| && 0 <= j < |after| ==>
                     before[i].id == after[j].id && before[i].state.Terminal() ==> after[j] == before[i]
  }

  ghost predicate Absorbs(m: Manifest, m': Manifest) {
    && m'.id == m.id
    && (m.state.Terminal() ==> m'.state == m.state)
    && AbsorbsFiles(m.files, m'.files)
  }

  /** The files that are marked running. */
  ghost function RunningFiles(m: Manifest): set<FileId> {
    set i | 0 <= i < |m.files| && m.files[i].state.FileRunning? :: m.files[i].id
  }

  // ---------------------------------------------------------------- lookup

  /** Position of the first file with the identifier, or the length when absent. */
  function IndexOf(files: seq<File>, id: FileId): (i: nat)
    ensures i <= |files|
    ensures i < |files| ==> files[i].id == id
    ensures forall k :: 0 <= k < i ==> files[k].id != id
  {
    if files == [] || files[0].id == id then 0 else 1 + IndexOf(files[1..], id)
  }

  // ---------------------------------------------------------------- mutations

  function StartFile(f: File, selections: map<FileId, Operation>): Result<File, JobError> {
    if !f.state.FileInspected? then Ok(f)
    else if f.id in selections && selections[f.id] != NoOperation then
      if selections[f.id] !in f.compatible then Err(IncompatibleOperation(selections[f.id]))
      else Ok(f.(selected := selections[f.id], source := RequestedSource, state := FileQueued))
    else Ok(f.(selected := f.recommended, source := RecommendedSource, state := FileQueued))
  }

  /** Every file started in order; the first refused selection is the error. */
  function StartFiles(files: seq<File>, selections: map<FileId, Operation>): (r: Result<seq<File>, JobError>)
    ensures r.Ok? <==> forall i :: 0 <= i < |files| ==> StartFile(files[i], selections).Ok?
    ensures r.Ok? ==> |r.value| == |files|
    ensures r.Ok? ==> forall i :: 0 <= i < |files| ==> StartFile(files[i], selections) == Ok(r.value[i])
    ensures r.Err? ==> r.error.IncompatibleOperation?
  {
    if files == [] then Ok([])
    else
      var last := |files| - 1;
      match StartFiles(files[..last], selections)
      case Err(e) => Err(e)
      case Ok(init) =>
        match StartFile(files[last], selections)
        case Err(e) => Err(e)
        case Ok(f) => Ok(init + [f])
  }

  function CountState(files: seq<File>, state: FileState): nat {
    if files == [] then 0
    else CountState(files[..|files| - 1], state) + if files[|files| - 1].state == state then 1 else 0
  }

  function StartManifest(m: Manifest, selections: map<FileId, Operation>, slotFree: bool): Result<Manifest, JobError> {
    if !m.state.JobPending? then Err(NotStartable)
    else
      match StartFiles(m.files, selections)
      case Err(e) => Err(e)
      case Ok(files) =>
        if CountState(m.files, FileInspected) == 0 then Err(NoConvertibleFiles)
        else if !slotFree then Err(QueueFull)
        else Ok(m.(files := files, state := JobQueued))
  }

  function CancelFile(f: File, now: Time): File {
    if f.state.Terminal() then f
    else f.(state := FileCanceled, finishedAt := Some(now),
            error := if f.error.None? then Some(CANCELED) else f.error)
  }

  function CancelFiles(files: seq<File>, now: Time): (r: seq<File>)
    ensures |r| == |files|
    ensures forall i :: 0 <= i < |files| ==> r[i] == CancelFile(files[i], now)
  {
    seq(|files|, i requires 0 <= i < |files| => CancelFile(files[i], now))
  }

  function CancelManifest(m: Manifest, now: Time): Manifest {
    if m.state.Terminal() then m
    else m.(files := CancelFiles(m.files, now), state := JobCanceled)
  }

  function ClaimManifest(m: Manifest): Result<Manifest, JobError> {
    if m.state.JobQueued? then Ok(m.(state := JobRunning)) else Err(NotStartable)
  }

  function BeginFile(m: Manifest, id: FileId, now: Time): Result<Manifest, JobError> {
    var i := IndexOf(m.files, id);
    if !m.state.JobRunning? || i == |m.files| || !m.files[i].state.FileQueued? then Err(NotStartable)
    else Ok(m.(files := m.files[i := m.files[i].(state := FileRunning, startedAt := Some(now))]))
  }

  /** What a conversion attempt reports back to the manifest. */
  datatype Outcome =
    | Converted(output: Output)
    | ConvertFailed(failure: Failure)
    | CancelRecorded
    | FailureRecorded(failure: Failure)

  function FinishFile(f: File, outcome: Outcome, now: Time): File {
    match outcome
    case Converted(output) => f.(state := FileCompleted, output := Some(output), finishedAt := Some(now))
    case ConvertFailed(failure) =>
      f.(state := if failure.kind.FailureCanceled? then FileCanceled else FileFailed,
         error := Some(failure), finishedAt := Some(now))
    case CancelRecorded => f.(state := FileCanceled, error := Some(CANCELED), finishedAt := Some(now))
    case FailureRecorded(failure) => f.(state := FileFailed, error := Some(failure), finishedAt := Some(now))
  }

  /** The converter's own result also stops at a terminal job; the two recording
      paths look only at the file. */
  function RecordOutcome(m: Manifest, id: FileId, outcome: Outcome, now: Time): Manifest {
    var i := IndexOf(m.files, id);
    if i == |m.files| || m.files[i].state.Terminal() then m
    else if (outcome.Converted? || outcome.ConvertFailed?) && m.state.Terminal() then m
    else m.(files := m.files[i := FinishFile(m.files[i], outcome, now)])
  }

  function FinalState(files: seq<File>, canceled: bool): JobState {
    if CountState(files, FileCompleted) > 0 then JobCompleted
    else if canceled then JobCanceled
    else if CountState(files, FileFailed) > 0 then JobFailed
    else JobCanceled
  }

  function FinalizeManifest(m: Manifest, canceled: bool, now: Time): Manifest {
    if m.state.Terminal() then m
    else
      var files := CancelFiles(m.files, now);
      m.(files := files, state := FinalState(files, canceled))
  }

  /** An upload's final update: publishes the probed files, and cancels what is
      not finished when the job was canceled while probing. */
  function MergeFile(f: File, now: Time): File {
    if f.state.Terminal() then f
    else f.(state := FileCanceled, finishedAt := Some(now), error := Some(CANCELED))
  }

  function MergeFiles(files: seq<File>, now: Time): (r: seq<File>)
    ensures |r| == |files|
    ensures forall i :: 0 <= i < |files| ==> r[i] == MergeFile(files[i], now)
  {
    seq(|files|, i requires 0 <= i < |files| => MergeFile(files[i], now))
  }

  function MergeManifest(m: Manifest, files: seq<File>, totalBytes: nat, now: Time): Manifest {
    m.(files := if m.state.JobCanceled? then MergeFiles(files, now) else files, totalBytes := totalBytes)
  }

  function InterruptFile(f: File, now: Time): File {
    if f.state.Terminal() then f
    else f.(state := FileInterrupted, finishedAt := Some(now), error := Some(INTERRUPTED))
  }

  function InterruptFiles(files: seq<File>, now: Time): (r: seq<File>)
    ensures |r| == |files|
    ensures forall i :: 0 <= i < |files| ==> r[i] == InterruptFile(files[i], now)
  {
    seq(|files|, i requires 0 <= i < |files| => InterruptFile(files[i], now))
  }

  /** Startup recovery's update.  It does not look at the job state again. */
  function InterruptManifest(m: Manifest, now: Time): Manifest {
    m.(files := InterruptFiles(m.files, now), state := JobInterrupted, error := Some(INTERRUPTED))
  }

  function WithoutFile(files: seq<File>, i: nat): seq<File>
    requires i < |files|
  {
    files[..i] + files[i + 1..]
  }

  function CreatedManifest(id: JobId, now: Time, ttl: Time): Manifest {
    Manifest(id, JobPending, Some(now + ttl), 0, [], None)
  }

  // ---------------------------------------------------------------- counting

  lemma CountPositive(files: seq<File>, state: FileState)
    ensures CountState(files, state) > 0 <==> HasFile(files, state)
  {
    if files != [] {
      var last := |files| - 1;
      CountPositive(files[..last], state);
      if HasFile(files[..last], state) {
        var i :| 0 <= i < last && files[..last][i].state == state;
        assert files[i].state == state;
      } else if files[last].state != state {
        forall i | 0 <= i < |files| ensures files[i].state != state {
          if i < last { assert files[..last][i] == files[i]; }
        }
      }
    }
  }

  lemma {:induction false} SameSizesSameSum(a: seq<File>, b: seq<File>)
    requires |a| == |b|
    requires forall i :: 0 <= i < |a| ==> a[i].size == b[i].size
    ensures SumSizes(a) == SumSizes(b)
  {
    if a != [] {
      SameSizesSameSum(a[1..], b[1..]);
    }
  }

  lemma {:induction false} SumWithout(files: seq<File>, i: nat)
    requires i < |files|
    ensures SumSizes(WithoutFile(files, i)) == SumSizes(files) - files[i].size
    ensures SumSizes(files) >= files[i].size
  {
    if i == 0 {
      assert WithoutFile(files, 0) == files[1..];
    } else {
      SumWithout(files[1..], i - 1);
      assert WithoutFile(files, i) == [files[0]] + WithoutFile(files[1..], i - 1);
    }
  }

  lemma {:induction false} SumAppend(files: seq<File>, f: File)
    ensures SumSizes(files + [f]) == SumSizes(files) + f.size
  {
    if files == [] {
      assert files + [f] == [f];
    } else {
      SumAppend(files[1..], f);
      assert (files + [f])[1..] == files[1..] + [f];
    }
  }

  // ---------------------------------------------------------------- slot-wise mutations

  /** The after-list has the same slots, and terminal slots are untouched. */
  ghost predicate SlotWise(before: seq<File>, after: seq<File>) {
    && |before| == |after|
    && forall i :: 0 <= i < |before| ==>
         && after[i].id == before[i].id
         && after[i].size == before[i].size
         && (before[i].state.Terminal() ==> after[i] == before[i])
  }

  lemma SlotWiseKeeps(before: seq<File>, after: seq<File>)
    requires SlotWise(before, after) && DistinctIds(before)
    ensures DistinctIds(after) && AbsorbsFiles(before, after) && SumSizes(after) == SumSizes(before)
  {
    SameSizesSameSum(before, after);
    forall i, j | 0 <= i < |before| && 0 <= j < |after| && before[i].id == after[j].id && before[i].state.Terminal()
      ensures after[j] == before[i]
    {
      assert after[j].id == before[j].id;
      assert i == j;
    }
  }

  // ---------------------------------------------------------------- what each mutation keeps

  lemma StartFileKeeps(f: File, selections: map<FileId, Operation>)
    requires FileOK(f) && StateFits(JobPending, f.state)
    ensures var r := StartFile(f, selections);
      r.Ok? ==> (
        && FileOK(r.value) && StateFits(JobQueued, r.value.state)
        && r.value.id == f.id && r.value.size == f.size
        && (f.state.Terminal() ==> r.value == f)
        && (f.state.FileInspected? ==> r.value.state.FileQueued?))
  {
  }

  lemma StartKeeps(m: Manifest, selections: map<FileId, Operation>, slotFree: bool)
    requires ManifestOK(m)
    ensures var r := StartManifest(m, selections, slotFree);
      r.Ok? ==> (
        && ManifestOK(r.value) && Absorbs(m, r.value)
        && r.value.state.JobQueued? && RunningFiles(r.value) == {})
  {
    var r := StartManifest(m, selections, slotFree);
    if r.Ok? {
      StartedFilesKeep(m, selections, r.value.files);
      QueuedHasNoRunning(r.value);
    }
  }

  lemma StartedFilesKeep(m: Manifest, selections: map<FileId, Operation>, files: seq<File>)
    requires ManifestOK(m) && m.state.JobPending?
    requires StartFiles(m.files, selections) == Ok(files)
    requires CountState(m.files, FileInspected) > 0
    ensures var m' := m.(files := files, state := JobQueued);
      ManifestOK(m') && Absorbs(m, m')
  {
    forall i | 0 <= i < |files|
      ensures FileOK(files[i]) && StateFits(JobQueued, files[i].state)
      ensures files[i].id == m.files[i].id && files[i].size == m.files[i].size
      ensures m.files[i].state.Terminal() ==> files[i] == m.files[i]
    {
      assert StartFile(m.files[i], selections) == Ok(files[i]);
      StartFileKeeps(m.files[i], selections);
    }
    SlotWiseKeeps(m.files, files);
    CountPositive(m.files, FileInspected);
    var k :| 0 <= k < |m.files| && m.files[k].state == FileInspected;
    assert StartFile(m.files[k], selections) == Ok(files[k]);
    StartFileKeeps(m.files[k], selections);
  }

  lemma QueuedHasNoRunning(m: Manifest)
    requires ManifestOK(m) && m.state != JobRunning
    ensures RunningFiles(m) == {}
  {
    forall i | 0 <= i < |m.files| ensures !m.files[i].state.FileRunning? {
      assert StateFits(m.state, m.files[i].state);
    }
  }

  lemma CancelKeeps(m: Manifest, now: Time)
    requires ManifestOK(m)
    ensures ManifestOK(CancelManifest(m, now)) && Absorbs(m, CancelManifest(m, now))
    ensures CancelManifest(m, now).state.Terminal()
  {
    if m.state.Terminal() {
      SlotWiseKeeps(m.files, m.files);
    } else {
      CanceledFilesKeep(m, now);
    }
  }

  lemma ClaimKeeps(m: Manifest)
    requires ManifestOK(m)
    ensures var r := ClaimManifest(m);
      r.Ok? ==> ManifestOK(r.value) && Absorbs(m, r.value) && RunningFiles(r.value) == {}
  {
    if m.state.JobQueued? {
      SlotWiseKeeps(m.files, m.files);
      QueuedHasNoRunning(m);
      forall i | 0 <= i < |m.files| ensures StateFits(JobRunning, m.files[i].state) {
        assert StateFits(JobQueued, m.files[i].state);
      }
    }
  }

  /** Replacing one unfinished record of a running job. */
  lemma SlotUpdateKeeps(m: Manifest, i: nat, g: File)
    requires ManifestOK(m) && m.state.JobRunning? && i < |m.files|
    requires !m.files[i].state.Terminal()
    requires g.id == m.files[i].id && g.size == m.files[i].size && FileOK(g) && StateFits(JobRunning, g.state)
    ensures ManifestOK(m.(files := m.files[i := g])) && Absorbs(m, m.(files := m.files[i := g]))
    ensures RunningFiles(m.(files := m.files[i := g])) ==
      if g.state.FileRunning? then RunningFiles(m) + {g.id} else RunningFiles(m) - {g.id}
  {
    SlotWiseKeeps(m.files, m.files[i := g]);
    SlotUpdateRunning(m, i, g);
  }

  lemma SlotUpdateRunning(m: Manifest, i: nat, g: File)
    requires DistinctIds(m.files) && i < |m.files| && g.id == m.files[i].id
    ensures RunningFiles(m.(files := m.files[i := g])) ==
      if g.state.FileRunning? then RunningFiles(m) + {g.id} else RunningFiles(m) - {g.id}
  {
    var m' := m.(files := m.files[i := g]);
    forall f | f in RunningFiles(m) && f != g.id ensures f in RunningFiles(m') {
      var k :| 0 <= k < |m.files| && m.files[k].state.FileRunning? && m.files[k].id == f;
      assert m'.files[k] == m.files[k];
    }
    forall f | f in RunningFiles(m') && f != g.id ensures f in RunningFiles(m) {
      var k :| 0 <= k < |m'.files| && m'.files[k].state.FileRunning? && m'.files[k].id == f;
      assert m'.files[k] == m.files[k];
    }
    if g.state.FileRunning? {
      assert m'.files[i].state.FileRunning? && m'.files[i].id == g.id;
    } else {
      forall k | 0 <= k < |m'.files| && m'.files[k].state.FileRunning? ensures m'.files[k].id != g.id {
        assert m.files[k].id != m.files[i].id;
      }
    }
  }

  lemma BeginFileKeeps(m: Manifest, id: FileId, now: Time)
    requires ManifestOK(m)
    ensures var r := BeginFile(m, id, now);
      r.Ok? ==> (
        && ManifestOK(r.value) && Absorbs(m, r.value)
        && r.value.state.JobRunning?
        && RunningFiles(r.value) == RunningFiles(m) + {id})
  {
    if BeginFile(m, id, now).Ok? {
      var i := IndexOf(m.files, id);
      SlotUpdateKeeps(m, i, m.files[i].(state := FileRunning, startedAt := Some(now)));
    }
  }

  lemma FinishFileKeeps(f: File, outcome: Outcome, now: Time)
    requires FileOK(f) && f.state.FileRunning?
    ensures var g := FinishFile(f, outcome, now);
      && FileOK(g) && StateFits(JobRunning, g.state) && g.state.Terminal()
      && g.id == f.id && g.size == f.size
  {
  }

  lemma RecordKeeps(m: Manifest, id: FileId, outcome: Outcome, now: Time)
    requires ManifestOK(m)
    requires m.state.JobRunning? || m.state.Terminal()
    requires m.state.JobRunning? && IndexOf(m.files, id) < |m.files| ==>
               m.files[IndexOf(m.files, id)].state.FileRunning? || m.files[IndexOf(m.files, id)].state.Terminal()
    ensures var m' := RecordOutcome(m, id, outcome, now);
      && ManifestOK(m') && Absorbs(m, m') && m'.state == m.state
      && RunningFiles(m') == RunningFiles(m) - {id}
  {
    var i := IndexOf(m.files, id);
    if m.state.Terminal() {
      SlotWiseKeeps(m.files, m.files);
      QueuedHasNoRunning(m);
      if i < |m.files| {
        assert StateFits(m.state, m.files[i].state);
      }
    } else if i < |m.files| && !m.files[i].state.Terminal() {
      FinishFileKeeps(m.files[i], outcome, now);
      SlotUpdateKeeps(m, i, FinishFile(m.files[i], outcome, now));
    } else {
      SlotWiseKeeps(m.files, m.files);
      NotRunning(m, id);
    }
  }

  lemma NotRunning(m: Manifest, id: FileId)
    requires DistinctIds(m.files)
    requires var i := IndexOf(m.files, id); i < |m.files| ==> !m.files[i].state.FileRunning?
    ensures id !in RunningFiles(m)
  {
    forall k | 0 <= k < |m.files| && m.files[k].state.FileRunning? ensures m.files[k].id != id {
      assert k != IndexOf(m.files, id);
    }
  }

  lemma RunningAt(m: Manifest, id: FileId)
    requires DistinctIds(m.files) && id in RunningFiles(m)
    ensures IndexOf(m.files, id) < |m.files| && m.files[IndexOf(m.files, id)].state.FileRunning?
  {
    if !(IndexOf(m.files, id) < |m.files| && m.files[IndexOf(m.files, id)].state.FileRunning?) {
      NotRunning(m, id);
    }
  }

  lemma CanceledFilesKeep(m: Manifest, now: Time)
    requires ManifestOK(m)
    ensures var files := CancelFiles(m.files, now);
      && DistinctIds(files) && AbsorbsFiles(m.files, files) && SumSizes(files) == SumSizes(m.files)
      && forall i :: 0 <= i < |files| ==> FileOK(files[i]) && files[i].state.Terminal()
  {
    var files := CancelFiles(m.files, now);
    SlotWiseKeeps(m.files, files);
    forall i | 0 <= i < |files| ensures FileOK(files[i]) && files[i].state.Terminal() {
      assert FileOK(m.files[i]);
    }
  }

  lemma FinalizeKeeps(m: Manifest, canceled: bool, now: Time)
    requires ManifestOK(m)
    ensures var m' := FinalizeManifest(m, canceled, now);
      ManifestOK(m') && Absorbs(m, m') && m'.state.Terminal()
  {
    if m.state.Terminal() {
      SlotWiseKeeps(m.files, m.files);
    } else {
      CanceledFilesKeep(m, now);
      var files := CancelFiles(m.files, now);
      CountPositive(files, FileCompleted);
      CountPositive(files, FileFailed);
    }
  }

  /** Files an upload holds before and while it probes them. */
  ghost predicate ProbedFiles(files: seq<File>) {
    && DistinctIds(files)
    && forall i :: 0 <= i < |files| ==> FileOK(files[i]) && StateFits(JobPending, files[i].state)
  }

  lemma MergeKeeps(m: Manifest, files: seq<File>, now: Time)
    requires ManifestOK(m) && m.files == []
    requires m.state.JobPending? || m.state.JobCanceled?
    requires ProbedFiles(files)
    ensures var m' := MergeManifest(m, files, SumSizes(files), now);
      ManifestOK(m') && Absorbs(m, m') && m'.state == m.state
  {
    if m.state.JobCanceled? {
      forall i | 0 <= i < |files|
        ensures FileOK(MergeFile(files[i], now)) && MergeFile(files[i], now).state.Terminal()
      {
        assert FileOK(files[i]);
      }
      SlotWiseKeeps(files, MergeFiles(files, now));
    }
  }

  lemma InterruptKeeps(m: Manifest, now: Time)
    requires ManifestOK(m)
    ensures var m' := InterruptManifest(m, now);
      ManifestOK(m') && AbsorbsFiles(m.files, m'.files) && m'.state.Terminal()
  {
    SlotWiseKeeps(m.files, InterruptFiles(m.files, now));
  }

  lemma RemovalKeeps(m: Manifest, i: nat)
    requires ManifestOK(m) && m.state.JobPending? && i < |m.files|
    ensures m.totalBytes >= m.files[i].size
    ensures var m' := m.(files := WithoutFile(m.files, i), totalBytes := m.totalBytes - m.files[i].size);
      ManifestOK(m') && Absorbs(m, m')
  {
    SumWithout(m.files, i);
    var after := WithoutFile(m.files, i);
    forall j | 0 <= j < |after| ensures after[j] == m.files[if j < i then j else j + 1] {}
  }

  /** Startup recovery marks a job interrupted; on a job that is not terminal it
      absorbs, and on a terminal one it would not, which is why it runs only
      before the service listens. */
  lemma InterruptAbsorbsIff(m: Manifest, now: Time)
    requires ManifestOK(m)
    ensures Absorbs(m, InterruptManifest(m, now)) <==> !m.state.Terminal() || m.state.JobInterrupted?
  {
    InterruptKeeps(m, now);
  }
}
