/** The inductive invariant of the engine, in parts, and its preservation. */
module EngineInvariants {
  import opened Options
  import opened Profiles
  import opened Manifests
  import opened Engine

  // ---------------------------------------------------------------- the parts

  /** A job lock has at most one holder. */
  ghost predicate LocksOK(s: State) {
    forall t, u :: t in s.pcs && u in s.pcs && t != u && LockOf(s.pcs[t]).Some? ==>
                     LockOf(s.pcs[t]) != LockOf(s.pcs[u])
  }

  /** The global mutex has at most one holder across steps, and while Start holds
      it the queue keeps the slot that was checked. */
  ghost predicate MutexOK(c: Config, s: State) {
    && (forall t, u :: t in s.pcs && u in s.pcs && s.pcs[t].StartSending? && s.pcs[u].StartSending? ==> t == u)
    && (forall t :: t in s.pcs && s.pcs[t].StartSending? ==> |s.mem.queue| < c.queueDepth && !s.mem.closed)
    && |s.mem.queue| <= c.queueDepth
  }

  /** The lease table counts the threads that hold a lease. */
  ghost predicate LeasesOK(s: State) {
    forall id: JobId :: LeaseCount(s.mem.leases, id) == |LeaseHolders(s.pcs, id)|
  }

  ghost predicate QueueCounted(pc: PC) {
    pc.StartSending? || pc.WorkerReceived?
  }

  ghost predicate RunCounted(pc: PC) {
    Answers(pc) && !QueueCounted(pc)
  }

  ghost function QueueHolders(pcs: map<Tid, PC>): set<Tid> {
    set t | t in pcs && QueueCounted(pcs[t])
  }

  ghost function RunHolders(pcs: map<Tid, PC>): set<Tid> {
    set t | t in pcs && RunCounted(pcs[t])
  }

  /** The two gauges the diagnostics expose, and the process slots. */
  ghost predicate CountersOK(c: Config, s: State) {
    && s.mem.queued == |s.mem.queue| + |QueueHolders(s.pcs)|
    && s.mem.running == |RunHolders(s.pcs)|
    && |SlotHolders(s.pcs)| <= c.processes
  }

  ghost predicate KnownOK(s: State) {
    && s.mem.store.Keys <= s.minted
    && s.place.Keys <= s.minted
    && s.dropped <= s.minted
    && (forall t :: t in s.pcs && SeenOf(s.pcs[t]).Some? ==> SeenOf(s.pcs[t]).value in s.minted)
  }

  ghost predicate NoRepeats(q: seq<JobId>) {
    forall i, j :: 0 <= i < j < |q| ==> q[i] != q[j]
  }

  /** Every started job is in exactly one place: the queue, one thread, or retired. */
  ghost predicate PlacesOK(s: State) {
    && NoRepeats(s.mem.queue)
    && (forall i :: 0 <= i < |s.mem.queue| ==> s.mem.queue[i] in s.place && s.place[s.mem.queue[i]].InQueue?)
    && (forall id :: id in s.place && s.place[id].InQueue? ==> id in s.mem.queue)
    && (forall t :: t in s.pcs && TokenOf(s.pcs[t]).Some? ==>
          TokenOf(s.pcs[t]).value in s.place && s.place[TokenOf(s.pcs[t]).value] == At(t))
    && (forall id :: id in s.place && s.place[id].At? ==>
          s.place[id].thread in s.pcs && TokenOf(s.pcs[s.place[id].thread]) == Some(id))
  }

  ghost function Current(s: State, id: JobId): set<FileId> {
    if id in s.place && s.place[id].At? && s.place[id].thread in s.pcs
    then CurrentFile(s.pcs[s.place[id].thread]) else {}
  }

  /** How the stored state of a started job fits the place it is in. */
  ghost predicate PlaceFits(s: State, id: JobId, state: JobState)
    requires id in s.place
  {
    match s.place[id]
    case InQueue => (state.JobQueued? || state.Terminal()) && id !in s.dropped
    case At(t) =>
      t in s.pcs && (
        if BeforeClaim(s.pcs[t]) then (state.JobQueued? || state.Terminal()) && id !in s.dropped
        else if ClaimOf(s.pcs[t]).Some? then (state.JobRunning? || state.Terminal()) && id !in s.dropped
        else !state.JobPending? && (state.Active() <==> id in s.dropped))
    case Retired => !state.JobPending? && (state.Active() <==> id in s.dropped)
  }

  ghost predicate JobOK(s: State, id: JobId)
    requires id in s.mem.store
  {
    var m := s.mem.store[id];
    && m.id == id
    && ManifestOK(m)
    && (id in s.place ==> PlaceFits(s, id, m.state))
    && (m.state.Active() || id in s.dropped ==> id in s.place)
    && (m.state.JobRunning? ==> RunningFiles(m) == LostOf(s, id) + Current(s, id))
  }

  ghost predicate JobsOK(s: State) {
    forall id :: id in s.mem.store ==> JobOK(s, id)
  }

  /** Until its final update an upload's stored manifest lists nothing, so it can
      be neither started nor worked on. */
  ghost predicate UploadOK(s: State, id: JobId) {
    && id !in s.place
    && (id in s.mem.store ==>
          && s.mem.store[id].files == []
          && (s.mem.store[id].state.JobPending? || s.mem.store[id].state.JobCanceled?))
  }

  ghost predicate UploadsOK(s: State) {
    && (forall t :: t in s.pcs && UploadOf(s.pcs[t]).Some? ==> UploadOK(s, UploadOf(s.pcs[t]).value))
    && (forall t, u :: t in s.pcs && u in s.pcs && t != u && UploadOf(s.pcs[t]).Some? ==>
          UploadOf(s.pcs[t]) != UploadOf(s.pcs[u]))
  }

  /** A thread that is about to remove a job directory still sees no lease. */
  ghost predicate QuietOK(s: State) {
    forall t :: t in s.pcs && QuietOf(s.pcs[t]).Some? ==> LeaseCount(s.mem.leases, QuietOf(s.pcs[t]).value) == 0
  }

  /** A worker that holds its lease (or is about to count it) has its job. */
  ghost predicate HoldsJob(pc: PC) {
    (LeaseOf(pc).Some? && TokenOf(pc).Some?) || (pc.LeaseLoaded? && pc.use.Work?)
  }

  ghost predicate WorkOK(s: State) {
    && (forall t :: t in s.pcs && HoldsJob(s.pcs[t]) && TokenOf(s.pcs[t]).Some? ==>
          TokenOf(s.pcs[t]).value in s.mem.store)
    && (forall t :: t in s.pcs && ClaimOf(s.pcs[t]).Some? ==>
          CurrentFile(s.pcs[t]) !! LostOf(s, ClaimOf(s.pcs[t]).value))
  }

  /** What a thread remembers of a job still describes it. */
  ghost predicate ViewOK(s: State, pc: PC) {
    match pc
    case Forgetting(id) => id !in s.mem.store
    case CleanupLoaded(id) => id in s.mem.store ==> !s.mem.store[id].state.Active()
    case CleanupRemoving(id) => id in s.mem.store ==> !s.mem.store[id].state.Active()
    case RemoveLoaded(id, _, was) =>
      WasPending(id, was) && (id in s.mem.store ==> s.mem.store[id] == was)
    case RemoveChecked(id, was, i) =>
      WasPending(id, was) && i < |was.files| && (id in s.mem.store ==> s.mem.store[id] == was)
    case RemoveSaved(id, was, i) =>
      WasPending(id, was) && i < |was.files| && (id in s.mem.store ==> s.mem.store[id] == WithoutIndex(was, i))
    case RemoveRollback(id, was, i) =>
      WasPending(id, was) && i < |was.files| &&
      (id in s.mem.store ==> s.mem.store[id] == was || s.mem.store[id] == WithoutIndex(was, i))
    case RemoveEmptied(id) => id in s.mem.store ==> s.mem.store[id].state.JobPending?
    case Probing(_, files, next) => ProbedFiles(files) && next <= |files| && UnprobedFrom(files, next)
    case ProbeSlot(_, files, next) => ProbedFiles(files) && next < |files| && UnprobedFrom(files, next)
    case _ => true
  }

  ghost predicate WasPending(id: JobId, was: Manifest) {
    was.id == id && was.state.JobPending? && ManifestOK(was)
  }

  ghost predicate UnprobedFrom(files: seq<File>, next: nat) {
    forall i :: next <= i < |files| ==> files[i].state.FileUploaded?
  }

  ghost predicate ViewsOK(s: State) {
    forall t :: t in s.pcs ==> ViewOK(s, s.pcs[t])
  }

  /** While a started job is queued or worked on, the control registered for it is
      the one its worker took, so canceling it reaches the worker. */
  ghost predicate ControlsOK(s: State) {
    && (forall id :: id in s.place && s.place[id].InQueue? && id in s.mem.store ==> id in s.mem.controls)
    && (forall t :: t in s.pcs && TokenOf(s.pcs[t]).Some? && (BeforeClaim(s.pcs[t]) || ClaimOf(s.pcs[t]).Some?) ==>
          ControlFits(s, s.pcs[t], TokenOf(s.pcs[t]).value))
  }

  ghost predicate ControlFits(s: State, pc: PC, id: JobId) {
    id in s.mem.store ==>
      && id in s.mem.controls
      && (ControlTaken(pc).Some? ==> ControlTaken(pc).value == Some(s.mem.controls[id]))
  }

  /** Shutdown: intake stops before the queue closes, a worker leaves only when the
      closed queue is empty, and draining means the group is empty. */
  ghost predicate ShutdownOK(s: State) {
    && (s.mem.closed <==> s.mem.baseCanceled)
    && (s.mem.closed ==> s.shutdownBegun)
    && (s.shutdownBegun ==> !s.mem.accepting)
    && (forall t :: t in s.pcs && s.pcs[t].ShutdownStopping? ==> s.shutdownBegun && !s.mem.closed)
    && (forall t, u :: t in s.pcs && u in s.pcs && s.pcs[t].ShutdownStopping? && s.pcs[u].ShutdownStopping? ==> t == u)
    && (forall t :: t in s.pcs && s.pcs[t].WorkerExited? ==> s.mem.closed && s.mem.queue == [])
    && (exists t :: t in s.pcs && IsWorker(s.pcs[t]))
    && (s.drained ==> s.mem.closed && forall t :: t in s.pcs ==> !InGroup(s.pcs[t]))
  }

  /** Threads of the worker pool. */
  ghost predicate IsWorker(pc: PC) {
    pc.WorkerIdle? || pc.WorkerExited? || (Answers(pc) && !pc.StartSending?)
  }

  ghost predicate Inv(c: Config, s: State) {
    && LocksOK(s)
    && MutexOK(c, s)
    && LeasesOK(s)
    && CountersOK(c, s)
    && KnownOK(s)
    && PlacesOK(s)
    && JobsOK(s)
    && UploadsOK(s)
    && QuietOK(s)
    && WorkOK(s)
    && ViewsOK(s)
    && ControlsOK(s)
    && ShutdownOK(s)
  }

  // ---------------------------------------------------------------- what one step may do

  ghost predicate HasJob(pc: PC) {
    && !pc.Idle? && !pc.Reserved? && !pc.LeavingGroup?
    && !pc.WorkerIdle? && !pc.WorkerExited? && !pc.ShutdownStopping?
  }

  /** One thread moves, and stays with its job. */
  ghost predicate Moves(s: State, s': State, t: Tid) {
    && t in s.pcs && t in s'.pcs
    && s'.pcs == s.pcs[t := s'.pcs[t]]
    && (HasJob(s.pcs[t]) && HasJob(s'.pcs[t]) ==> s'.pcs[t].id == s.pcs[t].id)
  }

  /** The one job a step can be about. */
  ghost function Act(s: State, s': State, t: Tid): JobId
    requires Moves(s, s', t)
  {
    if HasJob(s.pcs[t]) then s.pcs[t].id else if HasJob(s'.pcs[t]) then s'.pcs[t].id else 0
  }

  ghost predicate LockShape(s: State, s': State, t: Tid)
    requires Moves(s, s', t)
  {
    LockOf(s'.pcs[t]).Some? ==> LockOf(s'.pcs[t]) == LockOf(s.pcs[t]) || LockFree(s, LockOf(s'.pcs[t]).value)
  }

  ghost predicate MutexShape(c: Config, s: State, s': State, t: Tid)
    requires Moves(s, s', t)
  {
    && (s'.pcs[t].StartSending? ==>
          && MutexFree(s) && s.mem.accepting
          && |s.mem.queue| < c.queueDepth && !s.mem.closed && s'.mem.queue == s.mem.queue)
    && (|s'.mem.queue| <= |s.mem.queue| ||
        (s.pcs[t].StartSending? && !s'.pcs[t].StartSending? && |s'.mem.queue| == |s.mem.queue| + 1 <= c.queueDepth))
    && (s'.mem.closed != s.mem.closed ==> MutexFree(s) && !s'.pcs[t].StartSending?)
  }

  /** A lease is counted under the job lock, or together with the creation of the
      identifier; releasing needs neither. */
  ghost predicate LeaseShape(s: State, s': State, t: Tid)
    requires Moves(s, s', t)
  {
    if HoldsLease(s.pcs[t]) then
      if HoldsLease(s'.pcs[t]) then s'.pcs[t].id == s.pcs[t].id && s'.mem.leases == s.mem.leases
      else s'.mem.leases == ReleaseLease(s.mem, s.pcs[t].id).leases
    else if HoldsLease(s'.pcs[t]) then
      && s'.mem.leases == AcquireLease(s.mem, s'.pcs[t].id).leases
      && (LockOf(s.pcs[t]) == Some(s'.pcs[t].id) || s'.pcs[t].id !in s.minted)
    else s'.mem.leases == s.mem.leases
  }

  ghost function One(b: bool): int { if b then 1 else 0 }

  ghost predicate QueueCountShape(s: State, s': State, t: Tid)
    requires Moves(s, s', t)
  {
    s'.mem.queued - |s'.mem.queue| - One(QueueCounted(s'.pcs[t]))
    == s.mem.queued - |s.mem.queue| - One(QueueCounted(s.pcs[t]))
  }

  ghost predicate RunCountShape(s: State, s': State, t: Tid)
    requires Moves(s, s', t)
  {
    s'.mem.running - One(RunCounted(s'.pcs[t])) == s.mem.running - One(RunCounted(s.pcs[t]))
  }

  ghost predicate SlotShape(c: Config, s: State, s': State, t: Tid)
    requires Moves(s, s', t)
  {
    HasSlot(s'.pcs[t]) ==> HasSlot(s.pcs[t]) || |SlotHolders(s.pcs)| < c.processes
  }

  ghost predicate KnownShape(s: State, s': State, t: Tid)
    requires Moves(s, s', t)
  {
    && s.minted <= s'.minted
    && s'.mem.store.Keys <= s'.minted
    && s'.place.Keys <= s'.minted
    && s'.dropped <= s'.minted
    && (SeenOf(s'.pcs[t]).Some? ==> SeenOf(s'.pcs[t]).value in s'.minted)
  }

  ghost predicate PlaceShape(s: State, s': State, t: Tid)
    requires Moves(s, s', t)
  {
    var pc, pc', q := s.pcs[t], s'.pcs[t], s.mem.queue;
    if Answers(pc) then
      if Answers(pc') then pc'.id == pc.id && !pc'.StartSending? && s'.place == s.place && s'.mem.queue == q
      else if pc.StartSending? then s'.mem.queue == q + [pc.id] && s'.place == s.place[pc.id := InQueue]
      else s'.mem.queue == q && s'.place == s.place[pc.id := Retired]
    else if Answers(pc') then
      if pc.WorkerIdle? then |q| > 0 && pc'.id == q[0] && !pc'.StartSending? && s'.mem.queue == q[1..]
          && s'.place == s.place[q[0] := At(t)]
      else pc'.id !in s.place && StartsNow(s, pc'.id) && s'.mem.queue == q && s'.place == s.place[pc'.id := At(t)]
    else s'.place == s.place && s'.mem.queue == q
  }

  ghost predicate StartsNow(s: State, id: JobId) {
    id in s.mem.store && s.mem.store[id].state.JobPending? && s.mem.store[id].files != []
  }

  ghost predicate Exclusive(s: State, t: Tid, id: JobId)
    requires t in s.pcs
  {
    LockOf(s.pcs[t]) == Some(id) || LockFree(s, id)
  }

  /** Two maps agree except on one key. */
  ghost predicate AgreeOff<V>(a: map<JobId, V>, b: map<JobId, V>, id: JobId) {
    forall k :: k != id ==> (k in a <==> k in b) && (k in a && k in b ==> a[k] == b[k])
  }

  /** Who rewrites a stored manifest, and how. */
  ghost predicate Rewrites(s: State, pc: PC, id: JobId, m: Manifest, m': Manifest) {
    || StartsNow(s, id)
    || (!m.state.Terminal() && m'.state.JobCanceled? && (m.files == [] ==> m'.files == []))
    || (TokenOf(pc) == Some(id) && !m.state.Terminal())
    || (UploadOf(pc) == Some(id) && m.files == [])
    || (QuietOf(pc) == Some(id) && m.state.JobPending? && m'.state.JobPending?)
  }

  ghost predicate StoreShape(s: State, s': State, t: Tid)
    requires Moves(s, s', t)
  {
    var id := Act(s, s', t);
    && AgreeOff(s.mem.store, s'.mem.store, id)
    && (if id in s.mem.store then
          if id in s'.mem.store then
            s'.mem.store[id] != s.mem.store[id] ==>
              && Exclusive(s, t, id)
              && Rewrites(s, s.pcs[t], id, s.mem.store[id], s'.mem.store[id])
              && Absorbs(s.mem.store[id], s'.mem.store[id])
          else QuietOf(s.pcs[t]) == Some(id) || (UploadOf(s.pcs[t]) == Some(id) && s.pcs[t].RollingBack?)
        else id in s'.mem.store ==> id !in s.minted)
  }

  ghost predicate HistoryShape(s: State, s': State, t: Tid)
    requires Moves(s, s', t)
  {
    && AgreeOff(s.lost, s'.lost, Act(s, s', t))
    && (!Answers(s.pcs[t]) ==> s'.lost == s.lost)
    && (forall k :: k != Act(s, s', t) ==> (k in s.dropped <==> k in s'.dropped))
  }

  /** The job the step is about is as it should be afterwards. */
  ghost predicate JobShape(s: State, s': State, t: Tid)
    requires Moves(s, s', t)
  {
    var id := Act(s, s', t);
    id in s'.mem.store ==> JobOK(s', id)
  }

  ghost predicate UploadShape(s: State, s': State, t: Tid)
    requires Moves(s, s', t)
  {
    UploadOf(s'.pcs[t]).Some? ==>
      && (UploadOf(s'.pcs[t]) == UploadOf(s.pcs[t]) || UploadOf(s'.pcs[t]).value !in s.minted)
      && UploadOK(s', UploadOf(s'.pcs[t]).value)
  }

  ghost predicate QuietShape(s: State, s': State, t: Tid)
    requires Moves(s, s', t)
  {
    QuietOf(s'.pcs[t]).Some? ==>
      && s'.mem.leases == s.mem.leases
      && (QuietOf(s'.pcs[t]) == QuietOf(s.pcs[t]) || !Leased(s.mem, QuietOf(s'.pcs[t]).value))
  }

  ghost predicate WorkShape(s: State, s': State, t: Tid)
    requires Moves(s, s', t)
  {
    && (HoldsJob(s'.pcs[t]) && TokenOf(s'.pcs[t]).Some? ==> TokenOf(s'.pcs[t]).value in s'.mem.store)
    && (ClaimOf(s'.pcs[t]).Some? ==> CurrentFile(s'.pcs[t]) !! LostOf(s', ClaimOf(s'.pcs[t]).value))
  }

  ghost predicate ControlShape(s: State, s': State, t: Tid)
    requires Moves(s, s', t)
  {
    var id := Act(s, s', t);
    && AgreeOff(s.mem.controls, s'.mem.controls, id)
    && (s'.mem.controls == s.mem.controls || Answers(s.pcs[t]) || Answers(s'.pcs[t])
        || (id !in s.mem.store && id in s.minted && s'.mem.store == s.mem.store))
  }

  ghost predicate ControlFitsShape(s: State, s': State, t: Tid)
    requires Moves(s, s', t)
  {
    && (BeforeClaim(s'.pcs[t]) || Claims(s'.pcs[t]) ==> ControlFits(s', s'.pcs[t], s'.pcs[t].id))
    && (s.pcs[t].StartSending? && s.pcs[t].id in s'.mem.store ==> s.pcs[t].id in s'.mem.controls)
  }

  ghost predicate GroupShape(s: State, s': State, t: Tid)
    requires Moves(s, s', t)
  {
    && (IsWorker(s.pcs[t]) ==> IsWorker(s'.pcs[t]))
    && (InGroup(s'.pcs[t]) ==> InGroup(s.pcs[t]) || s.mem.accepting)
    && (s'.pcs[t].WorkerExited? ==> s'.mem == s.mem && s.mem.closed && s.mem.queue == [])
  }

  ghost predicate IntakeShape(s: State, s': State, t: Tid)
    requires Moves(s, s', t)
  {
    && (s'.mem.accepting ==> s.mem.accepting)
    && (|s'.mem.queue| > |s.mem.queue| ==> !s.mem.closed)
    && (s'.drained ==> s.drained || (s.mem.closed && forall u :: u in s.pcs ==> !InGroup(s.pcs[u])))
  }

  ghost predicate ClosingShape(s: State, s': State, t: Tid)
    requires Moves(s, s', t)
  {
    if s.pcs[t].ShutdownStopping? then
      !s'.pcs[t].ShutdownStopping? && s'.mem.closed && s'.mem.baseCanceled && s'.shutdownBegun == s.shutdownBegun
    else
      && s'.mem.closed == s.mem.closed && s'.mem.baseCanceled == s.mem.baseCanceled
      && (if s'.pcs[t].ShutdownStopping? then !s.shutdownBegun && s'.shutdownBegun && !s'.mem.accepting
          else s'.shutdownBegun == s.shutdownBegun)
  }

  ghost predicate ShutdownShape(s: State, s': State, t: Tid)
    requires Moves(s, s', t)
  {
    GroupShape(s, s', t) && IntakeShape(s, s', t) && ClosingShape(s, s', t)
  }

  /** Locks, leases, counters, places and shutdown. */
  ghost predicate AccountShape(c: Config, s: State, s': State, t: Tid)
    requires Moves(s, s', t)
  {
    && LockShape(s, s', t)
    && MutexShape(c, s, s', t)
    && LeaseShape(s, s', t)
    && QueueCountShape(s, s', t)
    && RunCountShape(s, s', t)
    && SlotShape(c, s, s', t)
    && KnownShape(s, s', t)
    && PlaceShape(s, s', t)
    && ShutdownShape(s, s', t)
  }

  /** The job tree, the controls, and what the moving thread remembers of them. */
  ghost predicate ContentShape(s: State, s': State, t: Tid)
    requires Moves(s, s', t)
  {
    && StoreShape(s, s', t)
    && HistoryShape(s, s', t)
    && UploadShape(s, s', t)
    && QuietShape(s, s', t)
    && WorkShape(s, s', t)
    && ViewOK(s', s'.pcs[t])
    && ControlShape(s, s', t)
    && ControlFitsShape(s, s', t)
  }

  ghost predicate StepShape(c: Config, s: State, s': State, t: Tid) {
    && Moves(s, s', t)
    && AccountShape(c, s, s', t)
    && ContentShape(s, s', t)
    && JobShape(s, s', t)
  }

  // ---------------------------------------------------------------- what the acting thread knows

  ghost predicate JobFacts(s: State, id: JobId) {
    && (id in s.mem.store ==> JobOK(s, id))
    && (id in s.place && s.place[id].At? ==>
          s.place[id].thread in s.pcs && TokenOf(s.pcs[s.place[id].thread]) == Some(id))
  }

  ghost predicate TokenFacts(s: State, t: Tid)
    requires t in s.pcs
  {
    var pc := s.pcs[t];
    Answers(pc) ==>
      && pc.id in s.place && s.place[pc.id] == At(t)
      && (HoldsJob(pc) ==> pc.id in s.mem.store)
      && (BeforeClaim(pc) || Claims(pc) ==> ControlFits(s, pc, pc.id))
      && (Claims(pc) ==> CurrentFile(pc) !! LostOf(s, pc.id))
  }

  ghost predicate QueueFacts(s: State) {
    s.mem.queue != [] ==>
      var id := s.mem.queue[0];
      && id in s.place && s.place[id].InQueue?
      && (id in s.mem.store ==> id in s.mem.controls)
  }

  ghost predicate UploadFacts(s: State, t: Tid)
    requires t in s.pcs
  {
    Uploading(s.pcs[t]) ==> UploadOK(s, s.pcs[t].id)
  }

  ghost predicate KnownFacts(s: State, t: Tid)
    requires t in s.pcs
  {
    && s.mem.store.Keys <= s.minted && s.place.Keys <= s.minted && s.dropped <= s.minted
    && (SeenOf(s.pcs[t]).Some? ==> s.pcs[t].id in s.minted)
    && (s.mem.queue != [] ==> s.mem.queue[0] in s.minted)
  }

  ghost predicate FlagFacts(c: Config, s: State) {
    && |s.mem.queue| <= c.queueDepth
    && (s.mem.accepting ==> !s.mem.closed)
  }

  ghost predicate Facts(c: Config, s: State, t: Tid) {
    && t in s.pcs
    && (forall id: JobId :: JobFacts(s, id))
    && TokenFacts(s, t)
    && QueueFacts(s)
    && UploadFacts(s, t)
    && KnownFacts(s, t)
    && FlagFacts(c, s)
    && ViewOK(s, s.pcs[t])
    && (s.pcs[t].ShutdownStopping? ==> s.shutdownBegun && !s.mem.closed)
  }

  lemma FactsHold(c: Config, s: State, t: Tid)
    requires Inv(c, s) && t in s.pcs
    ensures Facts(c, s, t)
  {
  }

  // ---------------------------------------------------------------- such a step keeps the invariant

  /** At startup no thread holds or answers for anything. */
  lemma InitRoles(c: Config, s: State, t: Tid)
    requires Init(c, s) && t in s.pcs
    ensures var pc := s.pcs[t];
      && LockOf(pc).None? && LeaseOf(pc).None? && TokenOf(pc).None? && ClaimOf(pc).None?
      && UploadOf(pc).None? && QuietOf(pc).None? && SeenOf(pc).None?
      && !HoldsJob(pc) && !HasSlot(pc) && !pc.StartSending? && !pc.ShutdownStopping? && !pc.WorkerExited?
      && ViewOK(s, pc)
  {
  }

  ghost predicate NoRoles(s: State) {
    forall t :: t in s.pcs ==>
      var pc := s.pcs[t];
      && LockOf(pc).None? && LeaseOf(pc).None? && TokenOf(pc).None? && ClaimOf(pc).None?
      && UploadOf(pc).None? && QuietOf(pc).None? && SeenOf(pc).None? && ViewOK(s, pc)
      && !QueueCounted(pc) && !RunCounted(pc) && !HasSlot(pc) && !HoldsJob(pc)
      && !pc.StartSending? && !pc.ShutdownStopping? && !pc.WorkerExited?
  }

  lemma InitNoRoles(c: Config, s: State)
    requires Init(c, s)
    ensures NoRoles(s)
  {
    forall t | t in s.pcs
      ensures LockOf(s.pcs[t]).None? && LeaseOf(s.pcs[t]).None? && TokenOf(s.pcs[t]).None? && ClaimOf(s.pcs[t]).None?
      ensures UploadOf(s.pcs[t]).None? && QuietOf(s.pcs[t]).None? && SeenOf(s.pcs[t]).None? && ViewOK(s, s.pcs[t])
      ensures !QueueCounted(s.pcs[t]) && !RunCounted(s.pcs[t]) && !HasSlot(s.pcs[t]) && !HoldsJob(s.pcs[t])
      ensures !s.pcs[t].StartSending? && !s.pcs[t].ShutdownStopping? && !s.pcs[t].WorkerExited?
    {
      InitRoles(c, s, t);
    }
  }

  lemma InitAccounts(c: Config, s: State)
    requires Init(c, s) && NoRoles(s)
    ensures LocksOK(s) && MutexOK(c, s) && LeasesOK(s) && CountersOK(c, s) && KnownOK(s) && ShutdownOK(s)
  {
    InitCounts(s);
    var w :| w in s.pcs && s.pcs[w].WorkerIdle?;
    assert IsWorker(s.pcs[w]);
  }

  lemma InitContent(c: Config, s: State)
    requires Init(c, s) && NoRoles(s)
    ensures PlacesOK(s) && JobsOK(s) && UploadsOK(s) && QuietOK(s) && WorkOK(s) && ViewsOK(s) && ControlsOK(s)
  {
  }

  lemma InitHolds(c: Config, s: State)
    requires Init(c, s)
    ensures Inv(c, s)
  {
    InitNoRoles(c, s);
    InitAccounts(c, s);
    InitContent(c, s);
  }

  lemma InitCounts(s: State)
    requires forall t :: t in s.pcs ==>
               && LeaseOf(s.pcs[t]).None? && !QueueCounted(s.pcs[t])
               && !RunCounted(s.pcs[t]) && !HasSlot(s.pcs[t])
    ensures forall id: JobId :: LeaseHolders(s.pcs, id) == {}
    ensures QueueHolders(s.pcs) == {} && RunHolders(s.pcs) == {} && SlotHolders(s.pcs) == {}
  {
  }

  lemma LocksKept(s: State, s': State, t: Tid)
    requires LocksOK(s) && Moves(s, s', t) && LockShape(s, s', t)
    ensures LocksOK(s')
  {
  }

  lemma MutexKept(c: Config, s: State, s': State, t: Tid)
    requires MutexOK(c, s) && Moves(s, s', t) && MutexShape(c, s, s', t)
    ensures MutexOK(c, s')
  {
  }

  lemma LeaseHoldersMove(s: State, s': State, t: Tid, id: JobId)
    requires Moves(s, s', t)
    ensures |LeaseHolders(s'.pcs, id)| - One(LeaseOf(s'.pcs[t]) == Some(id))
            == |LeaseHolders(s.pcs, id)| - One(LeaseOf(s.pcs[t]) == Some(id))
  {
    var rest := LeaseHolders(s.pcs, id) - {t};
    assert LeaseHolders(s.pcs, id) == if LeaseOf(s.pcs[t]) == Some(id) then rest + {t} else rest;
    assert LeaseHolders(s'.pcs, id) == if LeaseOf(s'.pcs[t]) == Some(id) then rest + {t} else rest;
  }

  lemma LeaseCountMoves(s: State, s': State, t: Tid, id: JobId)
    requires Moves(s, s', t) && LeaseShape(s, s', t)
    requires LeaseOf(s.pcs[t]) == Some(id) ==> LeaseCount(s.mem.leases, id) > 0
    ensures LeaseCount(s'.mem.leases, id) - One(LeaseOf(s'.pcs[t]) == Some(id))
            == LeaseCount(s.mem.leases, id) - One(LeaseOf(s.pcs[t]) == Some(id))
  {
  }

  lemma LeaseKept(s: State, s': State, t: Tid, id: JobId)
    requires LeasesOK(s) && Moves(s, s', t) && LeaseShape(s, s', t)
    ensures LeaseCount(s'.mem.leases, id) == |LeaseHolders(s'.pcs, id)|
  {
    assert LeaseCount(s.mem.leases, id) == |LeaseHolders(s.pcs, id)|;
    if LeaseOf(s.pcs[t]) == Some(id) {
      assert t in LeaseHolders(s.pcs, id);
    }
    LeaseHoldersMove(s, s', t, id);
    LeaseCountMoves(s, s', t, id);
  }

  lemma LeasesKept(s: State, s': State, t: Tid)
    requires LeasesOK(s) && Moves(s, s', t) && LeaseShape(s, s', t)
    ensures LeasesOK(s')
  {
    forall id: JobId ensures LeaseCount(s'.mem.leases, id) == |LeaseHolders(s'.pcs, id)| {
      LeaseKept(s, s', t, id);
    }
  }

  lemma QueueHoldersMove(s: State, s': State, t: Tid)
    requires Moves(s, s', t)
    ensures |QueueHolders(s'.pcs)| - One(QueueCounted(s'.pcs[t])) == |QueueHolders(s.pcs)| - One(QueueCounted(s.pcs[t]))
  {
    var rest := QueueHolders(s.pcs) - {t};
    assert QueueHolders(s.pcs) == if QueueCounted(s.pcs[t]) then rest + {t} else rest;
    assert QueueHolders(s'.pcs) == if QueueCounted(s'.pcs[t]) then rest + {t} else rest;
  }

  lemma RunHoldersMove(s: State, s': State, t: Tid)
    requires Moves(s, s', t)
    ensures |RunHolders(s'.pcs)| - One(RunCounted(s'.pcs[t])) == |RunHolders(s.pcs)| - One(RunCounted(s.pcs[t]))
  {
    var rest := RunHolders(s.pcs) - {t};
    assert RunHolders(s.pcs) == if RunCounted(s.pcs[t]) then rest + {t} else rest;
    assert RunHolders(s'.pcs) == if RunCounted(s'.pcs[t]) then rest + {t} else rest;
  }

  lemma SlotHoldersMove(s: State, s': State, t: Tid)
    requires Moves(s, s', t)
    ensures |SlotHolders(s'.pcs)| - One(HasSlot(s'.pcs[t])) == |SlotHolders(s.pcs)| - One(HasSlot(s.pcs[t]))
  {
    var rest := SlotHolders(s.pcs) - {t};
    assert SlotHolders(s.pcs) == if HasSlot(s.pcs[t]) then rest + {t} else rest;
    assert SlotHolders(s'.pcs) == if HasSlot(s'.pcs[t]) then rest + {t} else rest;
  }

  lemma CountersKept(c: Config, s: State, s': State, t: Tid)
    requires CountersOK(c, s) && Moves(s, s', t)
    requires QueueCountShape(s, s', t) && RunCountShape(s, s', t) && SlotShape(c, s, s', t)
    ensures CountersOK(c, s')
  {
    QueueHoldersMove(s, s', t);
    RunHoldersMove(s, s', t);
    SlotHoldersMove(s, s', t);
  }

  lemma KnownKept(s: State, s': State, t: Tid)
    requires KnownOK(s) && Moves(s, s', t) && KnownShape(s, s', t)
    ensures KnownOK(s')
  {
  }

  lemma QueuePlacesKept(s: State, s': State, t: Tid)
    requires PlacesOK(s) && Moves(s, s', t) && PlaceShape(s, s', t)
    ensures NoRepeats(s'.mem.queue)
    ensures forall i :: 0 <= i < |s'.mem.queue| ==>
                          s'.mem.queue[i] in s'.place && s'.place[s'.mem.queue[i]].InQueue?
    ensures forall id :: id in s'.place && s'.place[id].InQueue? ==> id in s'.mem.queue
  {
    if Answers(s.pcs[t]) {
      assert s.place[s.pcs[t].id] == At(t);
    }
    forall id | id in s'.place && s'.place[id].InQueue? ensures id in s'.mem.queue {
      if id in s.place && s.place[id].InQueue? { assert id in s.mem.queue; }
    }
  }

  lemma TokenPlacesKept(s: State, s': State, t: Tid, u: Tid)
    requires PlacesOK(s) && Moves(s, s', t) && PlaceShape(s, s', t)
    requires u in s'.pcs && TokenOf(s'.pcs[u]).Some?
    ensures TokenOf(s'.pcs[u]).value in s'.place && s'.place[TokenOf(s'.pcs[u]).value] == At(u)
  {
    if u != t {
      assert s'.pcs[u] == s.pcs[u] && s.place[s.pcs[u].id] == At(u);
      if Answers(s.pcs[t]) {
        assert s.place[s.pcs[t].id] == At(t);
      }
    }
  }

  lemma ThreadPlacesKept(s: State, s': State, t: Tid, id: JobId)
    requires PlacesOK(s) && Moves(s, s', t) && PlaceShape(s, s', t)
    requires id in s'.place && s'.place[id].At?
    ensures s'.place[id].thread in s'.pcs && TokenOf(s'.pcs[s'.place[id].thread]) == Some(id)
  {
    if id in s.place && s.place[id].At? {
      assert TokenOf(s.pcs[s.place[id].thread]) == Some(id);
    }
  }

  lemma PlacesKept(s: State, s': State, t: Tid)
    requires PlacesOK(s) && Moves(s, s', t) && PlaceShape(s, s', t)
    ensures PlacesOK(s')
  {
    QueuePlacesKept(s, s', t);
    forall u | u in s'.pcs && TokenOf(s'.pcs[u]).Some?
      ensures TokenOf(s'.pcs[u]).value in s'.place && s'.place[TokenOf(s'.pcs[u]).value] == At(u)
    {
      TokenPlacesKept(s, s', t, u);
    }
    forall id | id in s'.place && s'.place[id].At?
      ensures s'.place[id].thread in s'.pcs && TokenOf(s'.pcs[s'.place[id].thread]) == Some(id)
    {
      ThreadPlacesKept(s, s', t, id);
    }
  }

  lemma RolesHaveJobs(pc: PC)
    ensures Answers(pc) || HoldsLease(pc) || Uploading(pc) || LocksJob(pc) ==> HasJob(pc)
  {
  }

  lemma JobsKept(s: State, s': State, t: Tid)
    requires PlacesOK(s) && JobsOK(s) && Moves(s, s', t)
    requires PlaceShape(s, s', t) && StoreShape(s, s', t) && HistoryShape(s, s', t) && JobShape(s, s', t)
    ensures JobsOK(s')
  {
    forall id | id in s'.mem.store ensures JobOK(s', id) {
      if id != Act(s, s', t) {
        OtherJob(s, s', t, id);
      }
    }
  }

  lemma OtherPlace(s: State, s': State, t: Tid, id: JobId)
    requires Moves(s, s', t) && PlaceShape(s, s', t) && StoreShape(s, s', t)
    requires id != Act(s, s', t)
    ensures id in s'.place <==> id in s.place
    ensures id in s.place ==> s'.place[id] == s.place[id]
  {
    RolesHaveJobs(s.pcs[t]);
    RolesHaveJobs(s'.pcs[t]);
  }

  lemma OtherJob(s: State, s': State, t: Tid, id: JobId)
    requires PlacesOK(s) && JobsOK(s) && Moves(s, s', t)
    requires PlaceShape(s, s', t) && StoreShape(s, s', t) && HistoryShape(s, s', t)
    requires id in s'.mem.store && id != Act(s, s', t)
    ensures JobOK(s', id)
  {
    assert JobOK(s, id);
    OtherPlace(s, s', t, id);
    assert LostOf(s', id) == LostOf(s, id);
    if id in s.place && s.place[id].At? {
      var u := s.place[id].thread;
      assert TokenOf(s.pcs[u]) == Some(id);
      RolesHaveJobs(s.pcs[u]);
      assert u != t;
    }
  }

  lemma UploadsKept(s: State, s': State, t: Tid)
    requires LeasesOK(s) && KnownOK(s) && PlacesOK(s) && UploadsOK(s) && QuietOK(s) && Moves(s, s', t)
    requires PlaceShape(s, s', t) && StoreShape(s, s', t) && UploadShape(s, s', t)
    ensures UploadsOK(s')
  {
    forall u | u in s'.pcs && UploadOf(s'.pcs[u]).Some?
      ensures UploadOK(s', UploadOf(s'.pcs[u]).value)
    {
      if u != t {
        assert s'.pcs[u] == s.pcs[u];
        OtherUpload(s, s', t, u, UploadOf(s.pcs[u]).value);
      }
    }
    forall u, v | u in s'.pcs && v in s'.pcs && u != v && UploadOf(s'.pcs[u]).Some?
      ensures UploadOf(s'.pcs[u]) != UploadOf(s'.pcs[v])
    {
      assert u != t ==> s'.pcs[u] == s.pcs[u] && UploadOf(s.pcs[u]).value in s.minted;
      assert v != t && UploadOf(s'.pcs[v]).Some? ==> s'.pcs[v] == s.pcs[v] && UploadOf(s.pcs[v]).value in s.minted;
    }
  }

  lemma HolderIsCounted(s: State, u: Tid, id: JobId)
    requires LeasesOK(s) && u in s.pcs && LeaseOf(s.pcs[u]) == Some(id)
    ensures LeaseCount(s.mem.leases, id) > 0
  {
    assert u in LeaseHolders(s.pcs, id);
  }

  lemma OtherUpload(s: State, s': State, t: Tid, u: Tid, id: JobId)
    requires LeasesOK(s) && KnownOK(s) && PlacesOK(s) && UploadsOK(s) && QuietOK(s) && Moves(s, s', t)
    requires PlaceShape(s, s', t) && StoreShape(s, s', t)
    requires u in s.pcs && u != t && UploadOf(s.pcs[u]) == Some(id)
    ensures UploadOK(s', id)
  {
    HolderIsCounted(s, u, id);
    assert UploadOK(s, id);
    assert SeenOf(s.pcs[u]) == Some(id);
    assert UploadOf(s.pcs[t]) != Some(id);
    assert QuietOf(s.pcs[t]) != Some(id);
    assert TokenOf(s.pcs[t]) != Some(id);
  }

  lemma QuietKept(s: State, s': State, t: Tid)
    requires LocksOK(s) && KnownOK(s) && QuietOK(s) && Moves(s, s', t)
    requires LeaseShape(s, s', t) && QuietShape(s, s', t)
    ensures QuietOK(s')
  {
    forall u | u in s'.pcs && QuietOf(s'.pcs[u]).Some?
      ensures LeaseCount(s'.mem.leases, QuietOf(s'.pcs[u]).value) == 0
    {
      if u != t {
        assert s'.pcs[u] == s.pcs[u];
        OtherQuiet(s, s', t, u);
      }
    }
  }

  lemma OtherQuiet(s: State, s': State, t: Tid, u: Tid)
    requires LocksOK(s) && KnownOK(s) && QuietOK(s) && Moves(s, s', t) && LeaseShape(s, s', t)
    requires u in s.pcs && u != t && Quiet(s.pcs[u])
    ensures LeaseCount(s'.mem.leases, s.pcs[u].id) == 0
  {
    var id := s.pcs[u].id;
    assert LockOf(s.pcs[u]) == Some(id) && SeenOf(s.pcs[u]) == Some(id) && QuietOf(s.pcs[u]) == Some(id);
    assert LockOf(s.pcs[t]) != Some(id) && id in s.minted;
  }

  lemma WorkKept(s: State, s': State, t: Tid)
    requires LocksOK(s) && LeasesOK(s) && PlacesOK(s) && UploadsOK(s) && QuietOK(s) && WorkOK(s) && Moves(s, s', t)
    requires StoreShape(s, s', t) && HistoryShape(s, s', t) && WorkShape(s, s', t)
    ensures WorkOK(s')
  {
    forall u | u in s'.pcs && u != t
      ensures HoldsJob(s'.pcs[u]) && TokenOf(s'.pcs[u]).Some? ==> TokenOf(s'.pcs[u]).value in s'.mem.store
      ensures ClaimOf(s'.pcs[u]).Some? ==> CurrentFile(s'.pcs[u]) !! LostOf(s', ClaimOf(s'.pcs[u]).value)
    {
      assert s'.pcs[u] == s.pcs[u];
      if HoldsJob(s.pcs[u]) && TokenOf(s.pcs[u]).Some? {
        OtherWork(s, t, u, TokenOf(s.pcs[u]).value);
      }
      if Claims(s.pcs[u]) {
        OtherClaim(s, s', t, u);
      }
    }
  }

  lemma OtherClaim(s: State, s': State, t: Tid, u: Tid)
    requires PlacesOK(s) && Moves(s, s', t) && HistoryShape(s, s', t)
    requires u in s.pcs && u != t && Claims(s.pcs[u])
    ensures LostOf(s', s.pcs[u].id) == LostOf(s, s.pcs[u].id)
  {
    assert TokenOf(s.pcs[u]) == Some(s.pcs[u].id);
    if Answers(s.pcs[t]) {
      assert TokenOf(s.pcs[t]) == Some(s.pcs[t].id);
      RolesHaveJobs(s.pcs[t]);
    }
  }

  /** Nobody else is in a position to remove the job of a thread that holds it. */
  lemma OtherWork(s: State, t: Tid, u: Tid, id: JobId)
    requires LocksOK(s) && LeasesOK(s) && PlacesOK(s) && UploadsOK(s) && QuietOK(s)
    requires t in s.pcs && u in s.pcs && t != u && HoldsJob(s.pcs[u]) && TokenOf(s.pcs[u]) == Some(id)
    ensures QuietOf(s.pcs[t]) != Some(id) && UploadOf(s.pcs[t]) != Some(id)
  {
    assert id in s.place;
    if QuietOf(s.pcs[t]) == Some(id) {
      assert LockOf(s.pcs[t]) == Some(id);
      if LeaseOf(s.pcs[u]).Some? {
        assert LeaseOf(s.pcs[u]) == Some(id);
        HolderIsCounted(s, u, id);
      }
    }
  }

  lemma ViewsKept(s: State, s': State, t: Tid)
    requires LocksOK(s) && KnownOK(s) && ViewsOK(s) && Moves(s, s', t)
    requires StoreShape(s, s', t) && ViewOK(s', s'.pcs[t])
    ensures ViewsOK(s')
  {
    forall u | u in s'.pcs && u != t ensures ViewOK(s', s'.pcs[u]) {
      assert s'.pcs[u] == s.pcs[u] && ViewOK(s, s.pcs[u]);
      if LockOf(s.pcs[u]).Some? {
        OtherView(s, s', t, u, LockOf(s.pcs[u]).value);
      }
    }
  }

  lemma OtherView(s: State, s': State, t: Tid, u: Tid, id: JobId)
    requires LocksOK(s) && KnownOK(s) && Moves(s, s', t) && StoreShape(s, s', t)
    requires u in s.pcs && u != t && LockOf(s.pcs[u]) == Some(id)
    ensures id in s.mem.store && id in s'.mem.store ==> s'.mem.store[id] == s.mem.store[id]
    ensures SeenOf(s.pcs[u]).Some? && SeenOf(s.pcs[u]).value == id && id in s'.mem.store ==> id in s.mem.store
  {
  }

  lemma ControlsKept(s: State, s': State, t: Tid)
    requires KnownOK(s) && PlacesOK(s) && ControlsOK(s) && Moves(s, s', t)
    requires PlaceShape(s, s', t) && StoreShape(s, s', t) && ControlShape(s, s', t) && ControlFitsShape(s, s', t)
    ensures ControlsOK(s')
  {
    forall id | id in s'.place && s'.place[id].InQueue? && id in s'.mem.store ensures id in s'.mem.controls {
      OtherQueued(s, s', t, id);
    }
    forall u | u in s'.pcs && TokenOf(s'.pcs[u]).Some? && (BeforeClaim(s'.pcs[u]) || ClaimOf(s'.pcs[u]).Some?)
      ensures ControlFits(s', s'.pcs[u], TokenOf(s'.pcs[u]).value)
    {
      if u != t {
        OtherWorker(s, s', t, u);
      }
    }
  }

  lemma OtherWorker(s: State, s': State, t: Tid, u: Tid)
    requires KnownOK(s) && PlacesOK(s) && ControlsOK(s) && Moves(s, s', t)
    requires PlaceShape(s, s', t) && StoreShape(s, s', t) && ControlShape(s, s', t)
    requires u in s'.pcs && u != t && (BeforeClaim(s'.pcs[u]) || Claims(s'.pcs[u]))
    ensures ControlFits(s', s'.pcs[u], s'.pcs[u].id)
  {
    assert s'.pcs[u] == s.pcs[u];
    assert TokenOf(s.pcs[u]) == Some(s.pcs[u].id) && s.place[s.pcs[u].id] == At(u);
    assert ControlFits(s, s.pcs[u], s.pcs[u].id);
    TokenPlacesKept(s, s', t, u);
    OtherControl(s, s', t, s.pcs[u].id);
  }

  /** The registered control of a started job that this step is not answerable for. */
  lemma OtherControl(s: State, s': State, t: Tid, id: JobId)
    requires KnownOK(s) && PlacesOK(s) && Moves(s, s', t)
    requires PlaceShape(s, s', t) && StoreShape(s, s', t) && ControlShape(s, s', t)
    requires id in s.place && s.place[id] != At(t) && id in s'.place && s'.place[id] != At(t)
    ensures id in s'.mem.store ==> id in s.mem.store && ControlOf(s'.mem, id) == ControlOf(s.mem, id)
  {
    RolesHaveJobs(s.pcs[t]);
    RolesHaveJobs(s'.pcs[t]);
    assert Answers(s.pcs[t]) ==> TokenOf(s.pcs[t]) == Some(s.pcs[t].id) && s.pcs[t].id != id;
    assert Answers(s'.pcs[t]) ==> s'.pcs[t].id != id;
  }

  lemma OtherQueued(s: State, s': State, t: Tid, id: JobId)
    requires KnownOK(s) && PlacesOK(s) && ControlsOK(s) && Moves(s, s', t)
    requires PlaceShape(s, s', t) && StoreShape(s, s', t) && ControlShape(s, s', t) && ControlFitsShape(s, s', t)
    requires id in s'.place && s'.place[id].InQueue? && id in s'.mem.store
    ensures id in s'.mem.controls
  {
    if id in s.place && s.place[id].InQueue? {
      OtherControl(s, s', t, id);
    } else {
      assert s.pcs[t].StartSending? && s.pcs[t].id == id;
    }
  }

  lemma WorkersKept(s: State, s': State, t: Tid)
    requires ShutdownOK(s) && Moves(s, s', t) && ShutdownShape(s, s', t)
    ensures exists u :: u in s'.pcs && IsWorker(s'.pcs[u])
    ensures forall u :: u in s'.pcs && s'.pcs[u].WorkerExited? ==> s'.mem.closed && s'.mem.queue == []
  {
    var w :| w in s.pcs && IsWorker(s.pcs[w]);
    assert w in s'.pcs && IsWorker(s'.pcs[w]);
    forall u | u in s'.pcs && s'.pcs[u].WorkerExited? ensures s'.mem.closed && s'.mem.queue == [] {
      if u != t {
        assert s'.pcs[u] == s.pcs[u];
        assert s.mem.closed && s.mem.queue == [];
      }
    }
  }

  lemma DrainKept(s: State, s': State, t: Tid)
    requires ShutdownOK(s) && Moves(s, s', t) && ShutdownShape(s, s', t)
    ensures s'.drained ==> s'.mem.closed && forall u :: u in s'.pcs ==> !InGroup(s'.pcs[u])
  {
    if s'.drained {
      assert s.mem.closed && !s.mem.accepting;
      assert forall u :: u in s.pcs ==> !InGroup(s.pcs[u]);
      forall u | u in s'.pcs ensures !InGroup(s'.pcs[u]) {
        if u != t { assert s'.pcs[u] == s.pcs[u]; }
      }
    }
  }

  lemma ShutdownKept(s: State, s': State, t: Tid)
    requires ShutdownOK(s) && Moves(s, s', t) && ShutdownShape(s, s', t)
    ensures ShutdownOK(s')
  {
    WorkersKept(s, s', t);
    DrainKept(s, s', t);
    assert forall u :: u in s'.pcs && s'.pcs[u].ShutdownStopping? && u != t ==> s.pcs[u].ShutdownStopping?;
  }

  lemma ShapeKeeps(c: Config, s: State, s': State, t: Tid)
    requires Inv(c, s) && StepShape(c, s, s', t)
    ensures Inv(c, s')
  {
    LocksKept(s, s', t);
    MutexKept(c, s, s', t);
    LeasesKept(s, s', t);
    CountersKept(c, s, s', t);
    KnownKept(s, s', t);
    PlacesKept(s, s', t);
    JobsKept(s, s', t);
    UploadsKept(s, s', t);
    QuietKept(s, s', t);
    WorkKept(s, s', t);
    ViewsKept(s, s', t);
    ControlsKept(s, s', t);
    ShutdownKept(s, s', t);
  }
}
