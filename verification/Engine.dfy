/** The job engine as a transition system over threads.

    `Shared` is what the manager's mutex, channels and data directory hold.
    Each thread has a program counter, and one step is one critical section of the
    global mutex, one access to the job tree, or one channel or context operation.
    A per-job lock is held across several steps; whether it is held is read off the
    program counters (`LockOf`), and that the reference-counted lock table really
    gives that exclusion is the subject of `JobLocks`.  An update that does nothing
    else under its job lock is one step. */
module Engine {
  import opened Options
  import opened Profiles
  import opened Manifests

  type Tid = nat
  type Ctl = nat

  datatype Config = Config(queueDepth: nat, processes: nat, ttl: Time)

  /** Result of one access to the data directory; saving is all-or-nothing here. */
  datatype IO = Works | ReadFails | WriteFails

  /** Removing a directory may fail, and may then have lost the manifest already. */
  datatype Removal = Removed | FailedKept | FailedLost

  datatype Shared = Shared(
    accepting: bool,
    closed: bool,
    baseCanceled: bool,
    canceled: set<Ctl>,
    nextCtl: Ctl,
    controls: map<JobId, Ctl>,
    leases: map<JobId, nat>,
    queue: seq<JobId>,
    queued: int,
    running: int,
    store: map<JobId, Manifest>)

  // ---------------------------------------------------------------- sections of the mutex

  function LeaseCount(leases: map<JobId, nat>, id: JobId): nat {
    if id in leases then leases[id] else 0
  }

  function AcquireLease(mem: Shared, id: JobId): Shared {
    mem.(leases := mem.leases[id := LeaseCount(mem.leases, id) + 1])
  }

  function ReleaseLease(mem: Shared, id: JobId): Shared {
    if LeaseCount(mem.leases, id) <= 1 then mem.(leases := mem.leases - {id})
    else mem.(leases := mem.leases[id := mem.leases[id] - 1])
  }

  function Leased(mem: Shared, id: JobId): bool {
    LeaseCount(mem.leases, id) > 0
  }

  /** Start's body up to and including the registration of its control; the send
      on the queue follows under the same mutex. */
  function StartSection(mem: Shared, id: JobId, selections: map<FileId, Operation>, depth: nat, io: IO)
    : Result<Shared, JobError>
  {
    if !mem.accepting then Err(ShuttingDown)
    else if id !in mem.store then Err(NotFound)
    else if io.ReadFails? then Err(StorageFailed)
    else
      match StartManifest(mem.store[id], selections, |mem.queue| != depth)
      case Err(e) => Err(e)
      case Ok(m) =>
        if io.WriteFails? then Err(StorageFailed)
        else Ok(mem.(store := mem.store[id := m],
                     controls := mem.controls[id := mem.nextCtl],
                     nextCtl := mem.nextCtl + 1,
                     queued := mem.queued + 1))
  }

  function SendSection(mem: Shared, id: JobId): Shared {
    mem.(queue := mem.queue + [id])
  }

  function SignalSection(mem: Shared, id: JobId): Shared {
    if id in mem.controls then mem.(canceled := mem.canceled + {mem.controls[id]}) else mem
  }

  function ForgetSection(mem: Shared, id: JobId): Shared {
    mem.(controls := mem.controls - {id})
  }

  function CreateSection(mem: Shared, id: JobId, now: Time, ttl: Time): Shared {
    AcquireLease(mem.(store := mem.store[id := CreatedManifest(id, now, ttl)]), id)
  }

  function ControlOf(mem: Shared, id: JobId): Option<Ctl> {
    if id in mem.controls then Some(mem.controls[id]) else None
  }

  function TakeSection(mem: Shared): Shared {
    mem.(queued := mem.queued - 1, running := mem.running + 1)
  }

  function FinishSection(mem: Shared, id: JobId, ctl: Option<Ctl>): Shared {
    mem.(running := mem.running - 1, controls := mem.controls - {id},
         canceled := if ctl.Some? then mem.canceled + {ctl.value} else mem.canceled)
  }

  function StopIntakeSection(mem: Shared): Shared {
    mem.(accepting := false)
  }

  function CloseSection(mem: Shared): Shared {
    mem.(baseCanceled := true, closed := true)
  }

  function Save(mem: Shared, id: JobId, m: Manifest): Shared {
    mem.(store := mem.store[id := m])
  }

  function Unlink(mem: Shared, id: JobId): Shared {
    mem.(store := mem.store - {id})
  }

  /** The context a worker converts under. */
  predicate Canceled(mem: Shared, ctl: Option<Ctl>) {
    mem.baseCanceled || (ctl.Some? && ctl.value in mem.canceled)
  }

  function QueuedIds(files: seq<File>): seq<FileId> {
    if files == [] then []
    else if files[0].state.FileQueued? then [files[0].id] + QueuedIds(files[1..])
    else QueuedIds(files[1..])
  }

  function WithoutIndex(m: Manifest, i: nat): Manifest
    requires i < |m.files|
  {
    m.(files := WithoutFile(m.files, i),
       totalBytes := if m.totalBytes >= m.files[i].size then m.totalBytes - m.files[i].size else 0)
  }

  // ---------------------------------------------------------------- program counters

  datatype Use = Download | Work(ctl: Option<Ctl>)

  datatype After = ToIdle | ToWait | ToHold(use: Use) | ToFinished(ctl: Option<Ctl>)

  /** `id` is the job a thread is concerned with; a worker also carries the control
      it took, the file it is at, and the files its loop has left. */
  datatype PC =
    | Idle
    | Unlocking(id: JobId, after: After)
    | StartLocked(id: JobId, selections: map<FileId, Operation>)
    | StartSending(id: JobId)
    | CancelLocked(id: JobId)
    | CancelSignal(id: JobId)
    | CancelUpdate(id: JobId)
    | DeleteLocked(id: JobId)
    | DeleteSignal(id: JobId)
    | DeleteWaiting(id: JobId)
    | DeleteWanting(id: JobId)
    | DeleteRelocked(id: JobId)
    | DeleteChecked(id: JobId)
    | DeleteRemoving(id: JobId)
    | Forgetting(id: JobId)
    | CleanupLocked(id: JobId, now: Time)
    | CleanupLoaded(id: JobId)
    | CleanupRemoving(id: JobId)
    | RemoveLocked(id: JobId, file: FileId)
    | RemoveLoaded(id: JobId, file: FileId, was: Manifest)
    | RemoveChecked(id: JobId, was: Manifest, index: nat)
    | RemoveSaved(id: JobId, was: Manifest, index: nat)
    | RemoveRollback(id: JobId, was: Manifest, index: nat)
    | RemoveEmptied(id: JobId)
    | LeaseLocked(id: JobId, use: Use)
    | LeaseLoaded(id: JobId, use: Use)
    | Downloading(id: JobId)
    | Reserved
    | Receiving(id: JobId)
    | Probing(id: JobId, files: seq<File>, next: nat)
    | ProbeSlot(id: JobId, files: seq<File>, next: nat)
    | RollingBack(id: JobId)
    | UploadDone(id: JobId)
    | LeavingGroup
    | WorkerIdle
    | WorkerReceived(id: JobId)
    | WorkerTaken(id: JobId, ctl: Option<Ctl>)
    | WorkerLeased(id: JobId, ctl: Option<Ctl>)
    | WorkerLoop(id: JobId, ctl: Option<Ctl>, todo: seq<FileId>)
    | WorkerBegin(id: JobId, ctl: Option<Ctl>, file: FileId, rest: seq<FileId>)
    | WorkerWaiting(id: JobId, ctl: Option<Ctl>, file: FileId, rest: seq<FileId>)
    | WorkerSlot(id: JobId, ctl: Option<Ctl>, file: FileId, rest: seq<FileId>)
    | WorkerConverting(id: JobId, ctl: Option<Ctl>, file: FileId, rest: seq<FileId>)
    | WorkerRecording(id: JobId, ctl: Option<Ctl>, file: FileId, rest: seq<FileId>, outcome: Outcome, slot: bool)
    | WorkerSlotRelease(id: JobId, ctl: Option<Ctl>, file: FileId, rest: seq<FileId>)
    | WorkerFinalizing(id: JobId, ctl: Option<Ctl>, canceled: bool)
    | WorkerReleasing(id: JobId, ctl: Option<Ctl>)
    | WorkerFinished(id: JobId, ctl: Option<Ctl>)
    | WorkerExited
    | ShutdownStopping

  /** A worker between claiming its job and finalizing it. */
  ghost predicate Claims(pc: PC) {
    || pc.WorkerLoop? || pc.WorkerBegin? || pc.WorkerWaiting? || pc.WorkerSlot? || pc.WorkerConverting?
    || pc.WorkerRecording? || pc.WorkerSlotRelease? || pc.WorkerFinalizing?
  }

  /** An upload whose files the stored manifest does not list yet. */
  ghost predicate Uploading(pc: PC) {
    pc.Receiving? || pc.Probing? || pc.ProbeSlot? || pc.RollingBack?
  }

  ghost predicate Quiet(pc: PC) {
    || pc.DeleteChecked? || pc.DeleteRemoving? || pc.Forgetting? || pc.CleanupRemoving?
    || pc.RemoveChecked? || pc.RemoveSaved? || pc.RemoveRollback? || pc.RemoveEmptied?
  }

  ghost predicate LocksJob(pc: PC) {
    || pc.Unlocking? || pc.StartLocked? || pc.StartSending?
    || pc.CancelLocked? || pc.CancelSignal? || pc.CancelUpdate?
    || pc.DeleteLocked? || pc.DeleteSignal? || pc.DeleteRelocked?
    || pc.CleanupLocked? || pc.CleanupLoaded? || pc.RemoveLocked? || pc.RemoveLoaded?
    || pc.LeaseLocked? || pc.LeaseLoaded? || Quiet(pc)
  }

  ghost predicate HoldsLease(pc: PC) {
    || (pc.Unlocking? && pc.after.ToHold?) || pc.Downloading? || Uploading(pc) || pc.UploadDone?
    || pc.WorkerLeased? || Claims(pc) || pc.WorkerReleasing?
  }

  /** A token holder that has not reached its claim yet. */
  ghost predicate BeforeClaim(pc: PC) {
    || pc.StartSending? || pc.WorkerReceived? || pc.WorkerTaken? || pc.WorkerLeased?
    || (pc.LeaseLocked? && pc.use.Work?) || (pc.LeaseLoaded? && pc.use.Work?)
    || (pc.Unlocking? && pc.after.ToHold? && pc.after.use.Work?)
  }

  ghost predicate AfterClaim(pc: PC) {
    pc.WorkerReleasing? || pc.WorkerFinished? || (pc.Unlocking? && pc.after.ToFinished?)
  }

  /** A thread that answers for a started job: sending it, or working on it. */
  ghost predicate Answers(pc: PC) {
    BeforeClaim(pc) || Claims(pc) || AfterClaim(pc)
  }

  /** The job lock a thread holds. */
  ghost function LockOf(pc: PC): Option<JobId> {
    if LocksJob(pc) then Some(pc.id) else None
  }

  /** The job a thread holds one lease on. */
  ghost function LeaseOf(pc: PC): Option<JobId> {
    if HoldsLease(pc) then Some(pc.id) else None
  }

  /** The started job a thread answers for. */
  ghost function TokenOf(pc: PC): Option<JobId> {
    if Answers(pc) then Some(pc.id) else None
  }

  /** The job a worker has marked running and not yet finalized. */
  ghost function ClaimOf(pc: PC): Option<JobId> {
    if Claims(pc) then Some(pc.id) else None
  }

  ghost function UploadOf(pc: PC): Option<JobId> {
    if Uploading(pc) then Some(pc.id) else None
  }

  /** A thread that holds the job lock and has seen the lease count at zero. */
  ghost function QuietOf(pc: PC): Option<JobId> {
    if Quiet(pc) then Some(pc.id) else None
  }

  /** A thread that has seen the job exist. */
  ghost function SeenOf(pc: PC): Option<JobId> {
    if pc.CancelSignal? || pc.CancelUpdate? || pc.DeleteSignal? || (pc.Unlocking? && pc.after.ToWait?)
       || pc.DeleteWaiting? || pc.DeleteWanting? || pc.DeleteRelocked? || pc.CleanupLoaded? || pc.RemoveLoaded?
       || pc.LeaseLoaded? || HoldsLease(pc) || Answers(pc) || Quiet(pc)
    then Some(pc.id) else None
  }

  /** The control a worker took for its job. */
  ghost function ControlTaken(pc: PC): Option<Option<Ctl>> {
    if pc.WorkerTaken? || pc.WorkerLeased? || Claims(pc) then Some(pc.ctl)
    else if (pc.LeaseLocked? || pc.LeaseLoaded?) && pc.use.Work? then Some(pc.use.ctl)
    else if pc.Unlocking? && pc.after.ToHold? && pc.after.use.Work? then Some(pc.after.use.ctl)
    else None
  }

  /** The file a worker has marked running. */
  ghost function CurrentFile(pc: PC): set<FileId> {
    if pc.WorkerWaiting? || pc.WorkerSlot? || pc.WorkerConverting? || pc.WorkerRecording? then {pc.file} else {}
  }

  /** Threads the shutdown wait group waits for. */
  ghost predicate InGroup(pc: PC) {
    || (Answers(pc) && !pc.StartSending?) || pc.WorkerIdle?
    || pc.Reserved? || Uploading(pc) || pc.UploadDone? || pc.LeavingGroup?
  }

  ghost predicate HasSlot(pc: PC) {
    || pc.ProbeSlot? || pc.WorkerSlot? || pc.WorkerConverting? || pc.WorkerSlotRelease?
    || (pc.WorkerRecording? && pc.slot)
  }

  // ---------------------------------------------------------------- states

  /** Where the one queue entry of a started job is. */
  datatype Place = InQueue | At(thread: Tid) | Retired

  /** `minted`, `place`, `dropped` and `lost` only record history: identifiers ever
      handed out, what became of every started job, unfinished jobs whose worker
      gave up because it could not read or save them and that nobody canceled
      since, and running files whose result could not be saved. */
  datatype State = State(
    mem: Shared,
    pcs: map<Tid, PC>,
    minted: set<JobId>,
    place: map<JobId, Place>,
    dropped: set<JobId>,
    lost: map<JobId, set<FileId>>,
    shutdownBegun: bool,
    drained: bool)

  ghost predicate LockFree(s: State, id: JobId) {
    forall t :: t in s.pcs ==> LockOf(s.pcs[t]) != Some(id)
  }

  ghost predicate MutexFree(s: State) {
    forall t :: t in s.pcs ==> !s.pcs[t].StartSending?
  }

  ghost function LeaseHolders(pcs: map<Tid, PC>, id: JobId): set<Tid> {
    set t | t in pcs && LeaseOf(pcs[t]) == Some(id)
  }

  ghost function SlotHolders(pcs: map<Tid, PC>): set<Tid> {
    set t | t in pcs && HasSlot(pcs[t])
  }

  ghost function LostOf(s: State, id: JobId): set<FileId> {
    if id in s.lost then s.lost[id] else {}
  }

  ghost function Drop(s: State, id: JobId): set<JobId> {
    if id in s.mem.store && s.mem.store[id].state.Active() then s.dropped + {id} else s.dropped
  }

  ghost function Go(s: State, t: Tid, pc: PC): State {
    s.(pcs := s.pcs[t := pc])
  }

  ghost function GoMem(s: State, t: Tid, pc: PC, mem: Shared): State {
    s.(pcs := s.pcs[t := pc], mem := mem)
  }

  /** Startup: intake open, nothing queued, and a job tree in which recovery has
      left every job terminal. */
  ghost predicate Init(c: Config, s: State) {
    && c.queueDepth >= 1 && c.processes >= 1
    && s.mem.accepting && !s.mem.closed && !s.mem.baseCanceled
    && s.mem.canceled == {} && s.mem.controls == map[] && s.mem.leases == map[]
    && s.mem.queue == [] && s.mem.queued == 0 && s.mem.running == 0
    && (forall id :: id in s.mem.store ==>
          && s.mem.store[id].id == id && ManifestOK(s.mem.store[id])
          && s.mem.store[id].state.Terminal())
    && (forall t :: t in s.pcs ==> s.pcs[t].Idle? || s.pcs[t].WorkerIdle?)
    && (exists t :: t in s.pcs && s.pcs[t].WorkerIdle?)
    && s.minted == s.mem.store.Keys
    && s.place == map[] && s.dropped == {} && s.lost == map[]
    && !s.shutdownBegun && !s.drained
  }

  // ---------------------------------------------------------------- Start

  datatype Starting =
    | BeginStart(id: JobId, selections: map<FileId, Operation>)
    | StartBody(io: IO)
    | StartSend

  ghost predicate StartingStep(c: Config, s: State, s': State, t: Tid, a: Starting)
  {
    t in s.pcs && var pc := s.pcs[t]; var mem := s.mem;
    match a
    case BeginStart(id, selections) =>
      pc.Idle? && LockFree(s, id) && s' == Go(s, t, StartLocked(id, selections))
    case StartBody(io) =>
      pc.StartLocked? && MutexFree(s) && (
        match StartSection(mem, pc.id, pc.selections, c.queueDepth, io)
        case Err(_) => s' == Go(s, t, Unlocking(pc.id, ToIdle))
        case Ok(mem') => s' == GoMem(s, t, StartSending(pc.id), mem').(place := s.place[pc.id := At(t)]))
    case StartSend =>
      pc.StartSending? && |mem.queue| < c.queueDepth && !mem.closed &&
      s' == GoMem(s, t, Unlocking(pc.id, ToIdle), SendSection(mem, pc.id)).(place := s.place[pc.id := InQueue])
  }

  // ---------------------------------------------------------------- Cancel

  datatype Canceling =
    | BeginCancel(id: JobId)
    | CancelLoad(io: IO)
    | CancelNotify
    | CancelSave(io: IO, now: Time)

  ghost predicate CancelingStep(c: Config, s: State, s': State, t: Tid, a: Canceling)
  {
    t in s.pcs && var pc := s.pcs[t]; var mem := s.mem;
    match a
    case BeginCancel(id) =>
      pc.Idle? && LockFree(s, id) && s' == Go(s, t, CancelLocked(id))
    case CancelLoad(io) =>
      pc.CancelLocked? &&
      s' == Go(s, t,
               if pc.id !in mem.store || io.ReadFails? || mem.store[pc.id].state.Terminal()
               then Unlocking(pc.id, ToIdle) else CancelSignal(pc.id))
    case CancelNotify =>
      pc.CancelSignal? && MutexFree(s) && s' == GoMem(s, t, CancelUpdate(pc.id), SignalSection(mem, pc.id))
    case CancelSave(io, now) =>
      pc.CancelUpdate? &&
      s' == (if pc.id in mem.store && io.Works?
             then GoMem(s, t, Unlocking(pc.id, ToIdle), Save(mem, pc.id, CancelManifest(mem.store[pc.id], now))).(
                    dropped := s.dropped - {pc.id})
             else Go(s, t, Unlocking(pc.id, ToIdle)))
  }

  // ---------------------------------------------------------------- Delete

  datatype Deletion =
    | BeginDelete(id: JobId)
    | DeleteLoad(io: IO)
    | DeleteNotify
    | DeleteGiveUp
    | DeleteSeesRelease
    | DeleteRelock
    | DeleteCheck
    | DeleteNotifyAgain
    | DeleteUnlink(removal: Removal)
    | Forget

  ghost predicate DeletionStep(c: Config, s: State, s': State, t: Tid, a: Deletion)
  {
    t in s.pcs && var pc := s.pcs[t]; var mem := s.mem;
    match a
    case BeginDelete(id) =>
      pc.Idle? && LockFree(s, id) && s' == Go(s, t, DeleteLocked(id))
    case DeleteLoad(io) =>
      pc.DeleteLocked? &&
      s' == Go(s, t, if pc.id !in mem.store || io.ReadFails? then Unlocking(pc.id, ToIdle) else DeleteSignal(pc.id))
    case DeleteNotify =>
      pc.DeleteSignal? && MutexFree(s) && s' == GoMem(s, t, Unlocking(pc.id, ToWait), SignalSection(mem, pc.id))
    case DeleteGiveUp =>
      pc.DeleteWaiting? && s' == Go(s, t, Idle)
    case DeleteSeesRelease =>
      pc.DeleteWaiting? && MutexFree(s) && !Leased(mem, pc.id) && s' == Go(s, t, DeleteWanting(pc.id))
    case DeleteRelock =>
      pc.DeleteWanting? && LockFree(s, pc.id) && s' == Go(s, t, DeleteRelocked(pc.id))
    case DeleteCheck =>
      pc.DeleteRelocked? && MutexFree(s) &&
      s' == Go(s, t, if Leased(mem, pc.id) then Unlocking(pc.id, ToIdle) else DeleteChecked(pc.id))
    case DeleteNotifyAgain =>
      pc.DeleteChecked? && MutexFree(s) && s' == GoMem(s, t, DeleteRemoving(pc.id), SignalSection(mem, pc.id))
    case DeleteUnlink(removal) =>
      pc.DeleteRemoving? &&
      s' == (if pc.id !in mem.store || removal.FailedKept? then Go(s, t, Unlocking(pc.id, ToIdle))
             else GoMem(s, t, if removal.Removed? then Forgetting(pc.id) else Unlocking(pc.id, ToIdle),
                        Unlink(mem, pc.id)))
    case Forget =>
      pc.Forgetting? && MutexFree(s) && s' == GoMem(s, t, Unlocking(pc.id, ToIdle), ForgetSection(mem, pc.id))
  }

  // ---------------------------------------------------------------- the expiry sweep

  datatype Sweep =
    | BeginCleanup(id: JobId, now: Time)
    | CleanupLoad(io: IO)
    | CleanupCheck
    | CleanupUnlink(removal: Removal)

  ghost predicate SweepStep(c: Config, s: State, s': State, t: Tid, a: Sweep)
  {
    t in s.pcs && var pc := s.pcs[t]; var mem := s.mem;
    match a
    case BeginCleanup(id, now) =>
      pc.Idle? && LockFree(s, id) && s' == Go(s, t, CleanupLocked(id, now))
    case CleanupLoad(io) =>
      pc.CleanupLocked? &&
      s' == Go(s, t,
               if pc.id !in mem.store || io.ReadFails? || !mem.store[pc.id].Expired(pc.now)
                  || mem.store[pc.id].state.Active()
               then Unlocking(pc.id, ToIdle) else CleanupLoaded(pc.id))
    case CleanupCheck =>
      pc.CleanupLoaded? && MutexFree(s) &&
      s' == Go(s, t, if Leased(mem, pc.id) then Unlocking(pc.id, ToIdle) else CleanupRemoving(pc.id))
    case CleanupUnlink(removal) =>
      pc.CleanupRemoving? &&
      s' == (if pc.id !in mem.store then Go(s, t, Forgetting(pc.id))
             else if removal.FailedKept? then Go(s, t, Unlocking(pc.id, ToIdle))
             else GoMem(s, t, if removal.Removed? then Forgetting(pc.id) else Unlocking(pc.id, ToIdle),
                        Unlink(mem, pc.id)))
  }

  // ---------------------------------------------------------------- RemoveFile

  datatype FileRemoval =
    | BeginRemove(id: JobId, file: FileId)
    | RemoveLoad(io: IO)
    | RemoveCheck
    | RemoveSave(io: IO)
    | RemoveInput(unlinked: bool)
    | RemoveRestore(io: IO)
    | RemoveJob(removal: Removal)

  ghost predicate FileRemovalStep(c: Config, s: State, s': State, t: Tid, a: FileRemoval)
  {
    t in s.pcs && var pc := s.pcs[t]; var mem := s.mem;
    match a
    case BeginRemove(id, file) =>
      pc.Idle? && LockFree(s, id) && s' == Go(s, t, RemoveLocked(id, file))
    case RemoveLoad(io) =>
      pc.RemoveLocked? &&
      s' == Go(s, t,
               if pc.id !in mem.store || io.ReadFails? || !mem.store[pc.id].state.JobPending?
               then Unlocking(pc.id, ToIdle) else RemoveLoaded(pc.id, pc.file, mem.store[pc.id]))
    case RemoveCheck =>
      pc.RemoveLoaded? && MutexFree(s) &&
      s' == Go(s, t,
               if Leased(mem, pc.id) || IndexOf(pc.was.files, pc.file) == |pc.was.files|
               then Unlocking(pc.id, ToIdle)
               else RemoveChecked(pc.id, pc.was, IndexOf(pc.was.files, pc.file)))
    case RemoveSave(io) =>
      pc.RemoveChecked? && pc.index < |pc.was.files| &&
      s' == (if pc.id in mem.store && io.Works?
             then GoMem(s, t, RemoveSaved(pc.id, pc.was, pc.index), Save(mem, pc.id, WithoutIndex(pc.was, pc.index)))
             else Go(s, t, RemoveRollback(pc.id, pc.was, pc.index)))
    case RemoveInput(unlinked) =>
      pc.RemoveSaved? &&
      s' == Go(s, t,
               if !unlinked then RemoveRollback(pc.id, pc.was, pc.index)
               else if |pc.was.files| == 1 then RemoveEmptied(pc.id)
               else Unlocking(pc.id, ToIdle))
    case RemoveRestore(io) =>
      pc.RemoveRollback? &&
      s' == GoMem(s, t, Unlocking(pc.id, ToIdle),
                  if pc.id in mem.store && io.Works? then Save(mem, pc.id, pc.was) else mem)
    case RemoveJob(removal) =>
      pc.RemoveEmptied? &&
      s' == GoMem(s, t, Unlocking(pc.id, ToIdle), if removal.FailedKept? then mem else Unlink(mem, pc.id))
  }

  // ---------------------------------------------------------------- Lease, unlocking and downloads

  datatype Leasing =
    | BeginLease(id: JobId)
    | LeaseLoad(io: IO)
    | LeaseCountUp
    | Unlock
    | ReleaseDownload

  ghost predicate LeasingStep(c: Config, s: State, s': State, t: Tid, a: Leasing)
  {
    t in s.pcs && var pc := s.pcs[t]; var mem := s.mem;
    match a
    case BeginLease(id) =>
      pc.Idle? && LockFree(s, id) && s' == Go(s, t, LeaseLocked(id, Download))
    case LeaseLoad(io) =>
      pc.LeaseLocked? &&
      s' == (if pc.id in mem.store && !io.ReadFails? then Go(s, t, LeaseLoaded(pc.id, pc.use))
             else if pc.use.Download? then Go(s, t, Unlocking(pc.id, ToIdle))
             else Go(s, t, Unlocking(pc.id, ToFinished(pc.use.ctl))).(
                     dropped := Drop(s, pc.id)))
    case LeaseCountUp =>
      pc.LeaseLoaded? && MutexFree(s) &&
      s' == GoMem(s, t, Unlocking(pc.id, ToHold(pc.use)), AcquireLease(mem, pc.id))
    case Unlock =>
      pc.Unlocking? &&
      s' == Go(s, t,
               match pc.after
               case ToIdle => Idle
               case ToWait => DeleteWaiting(pc.id)
               case ToHold(Download) => Downloading(pc.id)
               case ToHold(Work(ctl)) => WorkerLeased(pc.id, ctl)
               case ToFinished(ctl) => WorkerFinished(pc.id, ctl))
    case ReleaseDownload =>
      pc.Downloading? && MutexFree(s) && s' == GoMem(s, t, Idle, ReleaseLease(mem, pc.id))
  }

  // ---------------------------------------------------------------- uploads

  /** Files as the intake loop hands them over (see `Intake`). */
  ghost predicate FreshFiles(files: seq<File>) {
    && DistinctIds(files)
    && forall i :: 0 <= i < |files| ==> files[i].state.FileUploaded? && FileOK(files[i])
  }

  function ProbeFailed(f: File, failure: Failure, now: Time): File {
    f.(state := FileFailed, finishedAt := Some(now), error := Some(failure))
  }

  function ProbeInspected(f: File, recommended: Operation, compatible: seq<Operation>): File {
    f.(state := FileInspected, recommended := recommended, compatible := compatible,
       selected := recommended, source := RecommendedSource)
  }

  datatype Upload =
    | Reserve
    | Create(id: JobId, now: Time)
    | CreateFails
    | ReceiveDone(files: seq<File>)
    | ReceiveFails
    | ProbeWithoutSlot(failure: Failure, now: Time)
    | ProbeTakesSlot
    | ProbeFails(failure: Failure, now: Time)
    | ProbeSucceeds(recommended: Operation, compatible: seq<Operation>)
    | Merge(io: IO, now: Time)
    | Rollback(removal: Removal)
    | ReleaseUpload
    | LeaveGroup

  ghost predicate UploadStep(c: Config, s: State, s': State, t: Tid, a: Upload)
  {
    t in s.pcs && var pc := s.pcs[t]; var mem := s.mem;
    match a
    case Reserve =>
      pc.Idle? && MutexFree(s) && mem.accepting && s' == Go(s, t, Reserved)
    case Create(id, now) =>
      pc.Reserved? && MutexFree(s) && id !in s.minted &&
      s' == GoMem(s, t, Receiving(id), CreateSection(mem, id, now, c.ttl)).(minted := s.minted + {id})
    case CreateFails =>
      pc.Reserved? && MutexFree(s) && s' == Go(s, t, LeavingGroup)
    case ReceiveDone(files) =>
      pc.Receiving? && FreshFiles(files) && s' == Go(s, t, Probing(pc.id, files, 0))
    case ReceiveFails =>
      pc.Receiving? && s' == Go(s, t, RollingBack(pc.id))
    case ProbeWithoutSlot(failure, now) =>
      pc.Probing? && pc.next < |pc.files| &&
      s' == Go(s, t, Probing(pc.id, pc.files[pc.next := ProbeFailed(pc.files[pc.next], failure, now)], pc.next + 1))
    case ProbeTakesSlot =>
      pc.Probing? && pc.next < |pc.files| && |SlotHolders(s.pcs)| < c.processes &&
      s' == Go(s, t, ProbeSlot(pc.id, pc.files, pc.next))
    case ProbeFails(failure, now) =>
      pc.ProbeSlot? && pc.next < |pc.files| &&
      s' == Go(s, t, Probing(pc.id, pc.files[pc.next := ProbeFailed(pc.files[pc.next], failure, now)], pc.next + 1))
    case ProbeSucceeds(recommended, compatible) =>
      pc.ProbeSlot? && pc.next < |pc.files| && recommended in compatible &&
      s' == Go(s, t,
               Probing(pc.id, pc.files[pc.next := ProbeInspected(pc.files[pc.next], recommended, compatible)],
                       pc.next + 1))
    case Merge(io, now) =>
      pc.Probing? && pc.next >= |pc.files| && LockFree(s, pc.id) &&
      s' == (if pc.id in mem.store && io.Works?
             then GoMem(s, t, UploadDone(pc.id),
                        Save(mem, pc.id, MergeManifest(mem.store[pc.id], pc.files, SumSizes(pc.files), now)))
             else Go(s, t, RollingBack(pc.id)))
    case Rollback(removal) =>
      pc.RollingBack? &&
      s' == GoMem(s, t, UploadDone(pc.id), if removal.FailedKept? then mem else Unlink(mem, pc.id))
    case ReleaseUpload =>
      pc.UploadDone? && MutexFree(s) && s' == GoMem(s, t, LeavingGroup, ReleaseLease(mem, pc.id))
    case LeaveGroup =>
      pc.LeavingGroup? && MutexFree(s) && s' == Go(s, t, Idle)
  }

  // ---------------------------------------------------------------- shutdown

  datatype Shutdown =
    | StopIntake
    | BeginShutdown
    | CloseQueue
    | Drain

  ghost predicate ShutdownStep(c: Config, s: State, s': State, t: Tid, a: Shutdown)
  {
    t in s.pcs && var pc := s.pcs[t]; var mem := s.mem;
    match a
    case StopIntake =>
      pc.Idle? && MutexFree(s) && s' == GoMem(s, t, Idle, StopIntakeSection(mem))
    case BeginShutdown =>
      pc.Idle? && MutexFree(s) && !s.shutdownBegun &&
      s' == GoMem(s, t, ShutdownStopping, StopIntakeSection(mem)).(shutdownBegun := true)
    case CloseQueue =>
      pc.ShutdownStopping? && MutexFree(s) && s' == GoMem(s, t, Idle, CloseSection(mem))
    case Drain =>
      pc.Idle? && mem.closed && (forall u :: u in s.pcs ==> !InGroup(s.pcs[u])) &&
      s' == s.(drained := true)
  }

  // ---------------------------------------------------------------- the worker pool

  datatype Pool =
    | Receive
    | Exit
    | Take
    | LockForLease
    | Claim(io: IO)
    | ReleaseWork
    | Finish

  ghost predicate PoolStep(c: Config, s: State, s': State, t: Tid, a: Pool)
  {
    t in s.pcs && var pc := s.pcs[t]; var mem := s.mem;
    match a
    case Receive =>
      pc.WorkerIdle? && |mem.queue| > 0 && mem.queue[0] in s.place &&
      s' == GoMem(s, t, WorkerReceived(mem.queue[0]), mem.(queue := mem.queue[1..])).(
              place := s.place[mem.queue[0] := At(t)])
    case Exit =>
      pc.WorkerIdle? && mem.closed && |mem.queue| == 0 && s' == Go(s, t, WorkerExited)
    case Take =>
      pc.WorkerReceived? && MutexFree(s) &&
      s' == GoMem(s, t, WorkerTaken(pc.id, ControlOf(mem, pc.id)), TakeSection(mem))
    case LockForLease =>
      pc.WorkerTaken? && LockFree(s, pc.id) && s' == Go(s, t, LeaseLocked(pc.id, Work(pc.ctl)))
    case Claim(io) =>
      pc.WorkerLeased? && LockFree(s, pc.id) && (
        if pc.id !in mem.store then s' == Go(s, t, WorkerReleasing(pc.id, pc.ctl))
        else
          var claimed := ClaimManifest(mem.store[pc.id]);
          if io.ReadFails? || (claimed.Ok? && io.WriteFails?) then
            s' == Go(s, t, WorkerReleasing(pc.id, pc.ctl)).(dropped := Drop(s, pc.id))
          else if claimed.Err? then s' == Go(s, t, WorkerReleasing(pc.id, pc.ctl))
          else s' == GoMem(s, t, WorkerLoop(pc.id, pc.ctl, QueuedIds(claimed.value.files)),
                           Save(mem, pc.id, claimed.value)).(lost := s.lost[pc.id := {}]))
    case ReleaseWork =>
      pc.WorkerReleasing? && MutexFree(s) &&
      s' == GoMem(s, t, WorkerFinished(pc.id, pc.ctl), ReleaseLease(mem, pc.id))
    case Finish =>
      pc.WorkerFinished? && MutexFree(s) &&
      s' == GoMem(s, t, WorkerIdle, FinishSection(mem, pc.id, pc.ctl)).(place := s.place[pc.id := Retired])
  }

  // ---------------------------------------------------------------- one claimed job

  datatype Conversion =
    | LoopNext
    | LoopEnd
    | Begin(io: IO, now: Time)
    | TakeSlot
    | WaitCanceled
    | SlotCanceled
    | SlotFails(failure: Failure)
    | SlotConverts
    | ConvertReturns(outcome: Outcome)
    | Record(io: IO, now: Time)
    | ReleaseSlot
    | Finalize(io: IO, now: Time)

  ghost predicate ConversionStep(c: Config, s: State, s': State, t: Tid, a: Conversion)
  {
    t in s.pcs && var pc := s.pcs[t]; var mem := s.mem;
    match a
    case LoopNext =>
      pc.WorkerLoop? && |pc.todo| > 0 && !Canceled(mem, pc.ctl) &&
      s' == Go(s, t, WorkerBegin(pc.id, pc.ctl, pc.todo[0], pc.todo[1..]))
    case LoopEnd =>
      pc.WorkerLoop? && (|pc.todo| == 0 || Canceled(mem, pc.ctl)) &&
      s' == Go(s, t, WorkerFinalizing(pc.id, pc.ctl, Canceled(mem, pc.ctl)))
    case Begin(io, now) =>
      pc.WorkerBegin? && LockFree(s, pc.id) &&
      s' == (if pc.id in mem.store && io.Works? && BeginFile(mem.store[pc.id], pc.file, now).Ok?
             then GoMem(s, t, WorkerWaiting(pc.id, pc.ctl, pc.file, pc.rest),
                        Save(mem, pc.id, BeginFile(mem.store[pc.id], pc.file, now).value)).(
                    lost := s.lost[pc.id := LostOf(s, pc.id) - {pc.file}])
             else Go(s, t, WorkerLoop(pc.id, pc.ctl, pc.rest)))
    case TakeSlot =>
      pc.WorkerWaiting? && |SlotHolders(s.pcs)| < c.processes &&
      s' == Go(s, t, WorkerSlot(pc.id, pc.ctl, pc.file, pc.rest))
    case WaitCanceled =>
      pc.WorkerWaiting? && Canceled(mem, pc.ctl) &&
      s' == Go(s, t, WorkerRecording(pc.id, pc.ctl, pc.file, pc.rest, CancelRecorded, false))
    case SlotCanceled =>
      pc.WorkerSlot? && Canceled(mem, pc.ctl) &&
      s' == Go(s, t, WorkerRecording(pc.id, pc.ctl, pc.file, pc.rest, CancelRecorded, true))
    case SlotFails(failure) =>
      pc.WorkerSlot? && !Canceled(mem, pc.ctl) &&
      s' == Go(s, t, WorkerRecording(pc.id, pc.ctl, pc.file, pc.rest, FailureRecorded(failure), true))
    case SlotConverts =>
      pc.WorkerSlot? && !Canceled(mem, pc.ctl) &&
      s' == Go(s, t, WorkerConverting(pc.id, pc.ctl, pc.file, pc.rest))
    case ConvertReturns(outcome) =>
      pc.WorkerConverting? && (outcome.Converted? || outcome.ConvertFailed?) &&
      s' == Go(s, t, WorkerRecording(pc.id, pc.ctl, pc.file, pc.rest, outcome, true))
    case Record(io, now) =>
      pc.WorkerRecording? && LockFree(s, pc.id) && (
        var next := if pc.slot then WorkerSlotRelease(pc.id, pc.ctl, pc.file, pc.rest)
                    else WorkerLoop(pc.id, pc.ctl, pc.rest);
        s' == (if pc.id in mem.store && io.Works?
               then GoMem(s, t, next, Save(mem, pc.id, RecordOutcome(mem.store[pc.id], pc.file, pc.outcome, now)))
               else Go(s, t, next).(lost := s.lost[pc.id := LostOf(s, pc.id) + {pc.file}])))
    case ReleaseSlot =>
      pc.WorkerSlotRelease? && s' == Go(s, t, WorkerLoop(pc.id, pc.ctl, pc.rest))
    case Finalize(io, now) =>
      pc.WorkerFinalizing? && LockFree(s, pc.id) &&
      s' == (if pc.id !in mem.store then Go(s, t, WorkerReleasing(pc.id, pc.ctl))
             else if io.Works?
             then GoMem(s, t, WorkerReleasing(pc.id, pc.ctl),
                        Save(mem, pc.id, FinalizeManifest(mem.store[pc.id], pc.canceled, now)))
             else Go(s, t, WorkerReleasing(pc.id, pc.ctl)).(dropped := Drop(s, pc.id)))
  }

  datatype Action =
    | Startings(starting: Starting)
    | Cancelings(canceling: Canceling)
    | Deletions(deletion: Deletion)
    | Sweeps(sweep: Sweep)
    | FileRemovals(fileRemoval: FileRemoval)
    | Leasings(leasing: Leasing)
    | Uploads(upload: Upload)
    | Shutdowns(shutdown: Shutdown)
    | Pools(pool: Pool)
    | Conversions(conversion: Conversion)

  ghost predicate Step(c: Config, s: State, s': State, t: Tid, a: Action) {
    match a
    case Startings(x) => StartingStep(c, s, s', t, x)
    case Cancelings(x) => CancelingStep(c, s, s', t, x)
    case Deletions(x) => DeletionStep(c, s, s', t, x)
    case Sweeps(x) => SweepStep(c, s, s', t, x)
    case FileRemovals(x) => FileRemovalStep(c, s, s', t, x)
    case Leasings(x) => LeasingStep(c, s, s', t, x)
    case Uploads(x) => UploadStep(c, s, s', t, x)
    case Shutdowns(x) => ShutdownStep(c, s, s', t, x)
    case Pools(x) => PoolStep(c, s, s', t, x)
    case Conversions(x) => ConversionStep(c, s, s', t, x)
  }

  ghost predicate Next(c: Config, s: State, s': State) {
    exists t: Tid, a: Action :: Step(c, s, s', t, a)
  }

  ghost predicate Linked(c: Config, states: seq<State>, i: nat)
    requires i < |states| - 1
  {
    Next(c, states[i], states[i + 1])
  }

  /** A finite run of the engine from startup. */
  ghost predicate Run(c: Config, states: seq<State>) {
    && |states| > 0 && Init(c, states[0])
    && forall i :: 0 <= i < |states| - 1 ==> Linked(c, states, i)
  }
}
