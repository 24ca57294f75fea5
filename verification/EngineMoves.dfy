/** Steps that leave the accounts alone: what is enough for such a step to have the
    shape that keeps the invariant. */
module EngineMoves {
  import opened Options
  import opened Profiles
  import opened Manifests
  import opened Engine
  import opened EngineInvariants

  /** The thread keeps its token and its counted place, takes a job lock only when it
      is free, and a process slot only when there is one. */
  ghost predicate RolesFit(c: Config, s: State, pc: PC, next: PC) {
    && (HasJob(pc) && HasJob(next) ==> next.id == pc.id)
    && (LockOf(next).Some? ==> LockOf(next) == LockOf(pc) || LockFree(s, LockOf(next).value))
    && !pc.StartSending? && !next.StartSending?
    && TokenOf(next) == TokenOf(pc)
    && (QueueCounted(next) <==> QueueCounted(pc)) && (RunCounted(next) <==> RunCounted(pc))
    && (BeforeClaim(next) || Claims(next) ==> BeforeClaim(pc) || Claims(pc))
    && (HasSlot(next) ==> HasSlot(pc) || |SlotHolders(s.pcs)| < c.processes)
    && (SeenOf(next).Some? ==> SeenOf(next).value in s.minted)
    && (UploadOf(next).Some? ==> UploadOf(next) == UploadOf(pc))
    && (QuietOf(next).Some? ==> QuietOf(next) == QuietOf(pc) || !Leased(s.mem, next.id))
    && (ControlTaken(next).Some? ==> ControlTaken(next) == ControlTaken(pc))
    && (IsWorker(pc) ==> IsWorker(next)) && (InGroup(next) ==> InGroup(pc) || s.mem.accepting)
    && (next.WorkerExited? ==> s.mem.closed && s.mem.queue == [])
    && !pc.ShutdownStopping? && !next.ShutdownStopping?
  }

  /** Only the job tree, canceled contexts, leases and the record of failures may
      change. */
  ghost predicate OnlyContent(s: State, s': State, t: Tid, next: PC) {
    s' == s.(pcs := s.pcs[t := next],
             mem := s.mem.(store := s'.mem.store, canceled := s'.mem.canceled, leases := s'.mem.leases),
             dropped := s'.dropped, lost := s'.lost)
  }

  lemma ContentAccounts(c: Config, s: State, s': State, t: Tid, next: PC)
    requires t in s.pcs && RolesFit(c, s, s.pcs[t], next) && OnlyContent(s, s', t, next) && Facts(c, s, t)
    requires s'.mem.store.Keys <= s.minted && s'.dropped <= s.minted
    requires next.WorkerExited? ==> s'.mem == s.mem
    requires Moves(s, s', t) ==> LeaseShape(s, s', t)
    ensures Moves(s, s', t) && AccountShape(c, s, s', t)
  {
  }

  lemma ContentKept(c: Config, s: State, s': State, t: Tid, next: PC)
    requires t in s.pcs && RolesFit(c, s, s.pcs[t], next) && OnlyContent(s, s', t, next) && Facts(c, s, t)
    requires Moves(s, s', t) && StoreShape(s, s', t) && HistoryShape(s, s', t)
    requires UploadOf(next).Some? ==> UploadOK(s', UploadOf(next).value)
    requires QuietOf(next).Some? ==> s'.mem.leases == s.mem.leases
    requires WorkShape(s, s', t) && ViewOK(s', next)
    ensures ContentShape(s, s', t)
  {
  }

  /** One manifest is rewritten under its lock. */
  lemma SavesStore(s: State, s': State, t: Tid, id: JobId, m: Manifest)
    requires Moves(s, s', t) && HasJob(s.pcs[t]) && s.pcs[t].id == id && id in s.mem.store
    requires s'.mem.store == s.mem.store[id := m] && Exclusive(s, t, id)
    requires m != s.mem.store[id] ==> Rewrites(s, s.pcs[t], id, s.mem.store[id], m) && Absorbs(s.mem.store[id], m)
    ensures StoreShape(s, s', t)
  {
  }

  /** A step that leaves a job, its history and the roles of its thread alone leaves it
      as it should be. */
  lemma JobUntouched(s: State, s': State, t: Tid, next: PC, id: JobId)
    requires t in s.pcs && s'.pcs == s.pcs[t := next] && id in s.mem.store && JobOK(s, id)
    requires s'.mem.store == s.mem.store && s'.place == s.place && s'.dropped == s.dropped && s'.lost == s.lost
    requires BeforeClaim(next) <==> BeforeClaim(s.pcs[t])
    requires ClaimOf(next) == ClaimOf(s.pcs[t]) && CurrentFile(next) == CurrentFile(s.pcs[t])
    ensures JobOK(s', id)
  {
    assert Current(s', id) == Current(s, id);
    assert id in s.place ==> (PlaceFits(s', id, s.mem.store[id].state) <==> PlaceFits(s, id, s.mem.store[id].state));
  }

  /** The thread stays with the same jobs, files and leases, and remembers what is so. */
  ghost predicate StaysWith(s: State, pc: PC, next: PC) {
    && (BeforeClaim(next) <==> BeforeClaim(pc)) && ClaimOf(next) == ClaimOf(pc)
    && CurrentFile(next) == CurrentFile(pc)
    && (HoldsJob(next) && TokenOf(next).Some? ==> HoldsJob(pc) || next.id in s.mem.store)
    && ViewOK(s, next)
  }

  /** Nothing changes but where the thread is. */
  ghost predicate GoFits(c: Config, s: State, pc: PC, next: PC) {
    RolesFit(c, s, pc, next) && LeaseOf(next) == LeaseOf(pc) && StaysWith(s, pc, next)
  }

  /** A step that changes no manifest and no history. */
  lemma QuietContent(c: Config, s: State, s': State, t: Tid, next: PC)
    requires t in s.pcs && RolesFit(c, s, s.pcs[t], next) && StaysWith(s, s.pcs[t], next)
    requires OnlyContent(s, s', t, next) && Facts(c, s, t) && Moves(s, s', t)
    requires s'.mem.store == s.mem.store && s'.dropped == s.dropped && s'.lost == s.lost
    requires QuietOf(next).Some? ==> s'.mem.leases == s.mem.leases
    ensures ContentShape(s, s', t)
  {
    ContentKept(c, s, s', t, next);
  }

  lemma QuietJob(c: Config, s: State, s': State, t: Tid, next: PC)
    requires t in s.pcs && StaysWith(s, s.pcs[t], next) && OnlyContent(s, s', t, next) && Facts(c, s, t)
             && Moves(s, s', t)
    requires s'.mem.store == s.mem.store && s'.dropped == s.dropped && s'.lost == s.lost
    ensures JobShape(s, s', t)
  {
    var id := Act(s, s', t);
    assert JobFacts(s, id);
    if id in s.mem.store {
      JobUntouched(s, s', t, next, id);
    }
  }

  lemma QuietStep(c: Config, s: State, s': State, t: Tid, next: PC)
    requires t in s.pcs && RolesFit(c, s, s.pcs[t], next) && StaysWith(s, s.pcs[t], next)
    requires OnlyContent(s, s', t, next) && Facts(c, s, t)
    requires s'.mem.store == s.mem.store && s'.dropped == s.dropped && s'.lost == s.lost
    requires QuietOf(next).Some? ==> s'.mem.leases == s.mem.leases
    requires next.WorkerExited? ==> s'.mem == s.mem
    requires Moves(s, s', t) ==> LeaseShape(s, s', t)
    ensures StepShape(c, s, s', t)
  {
    ContentAccounts(c, s, s', t, next);
    QuietContent(c, s, s', t, next);
    QuietJob(c, s, s', t, next);
  }

  lemma GoStep(c: Config, s: State, s': State, t: Tid, next: PC)
    requires t in s.pcs && GoFits(c, s, s.pcs[t], next) && s' == Go(s, t, next) && Facts(c, s, t)
    ensures StepShape(c, s, s', t)
  {
    QuietStep(c, s, s', t, next);
  }

  /** Nothing changes but the canceled contexts. */
  lemma SignalStep(c: Config, s: State, s': State, t: Tid, next: PC)
    requires t in s.pcs && GoFits(c, s, s.pcs[t], next) && Facts(c, s, t) && !next.WorkerExited?
    requires HasJob(s.pcs[t]) && s' == GoMem(s, t, next, SignalSection(s.mem, s.pcs[t].id))
    ensures StepShape(c, s, s', t)
  {
    QuietStep(c, s, s', t, next);
  }

  /** What a save may do to the history besides. */
  ghost predicate HistoryFits(s: State, s': State, pc: PC, id: JobId) {
    && (s'.dropped == s.dropped || s'.dropped == s.dropped - {id})
    && AgreeOff(s.lost, s'.lost, id) && (Answers(pc) || s'.lost == s.lost)
  }

  /** One manifest is rewritten. */
  ghost predicate SaveFits(c: Config, s: State, s': State, t: Tid, next: PC, m: Manifest)
    requires t in s.pcs
  {
    var pc := s.pcs[t];
    && RolesFit(c, s, pc, next) && LeaseOf(next) == LeaseOf(pc) && UploadOf(next).None? && !next.WorkerExited?
    && HasJob(pc) && pc.id in s.mem.store && HistoryFits(s, s', pc, pc.id)
    && s' == GoMem(s, t, next, Save(s.mem, pc.id, m)).(dropped := s'.dropped, lost := s'.lost)
    && Exclusive(s, t, pc.id)
    && (m != s.mem.store[pc.id] ==> Rewrites(s, pc, pc.id, s.mem.store[pc.id], m) && Absorbs(s.mem.store[pc.id], m))
    && (HoldsJob(next) && TokenOf(next).Some? ==> next.id in s.mem.store)
    && (ClaimOf(next).Some? ==> CurrentFile(next) !! LostOf(s', next.id))
  }

  lemma SaveMoves(c: Config, s: State, s': State, t: Tid, next: PC, m: Manifest)
    requires Facts(c, s, t) && SaveFits(c, s, s', t, next, m)
    ensures Moves(s, s', t) && AccountShape(c, s, s', t)
  {
    ContentAccounts(c, s, s', t, next);
  }

  lemma SaveContent(c: Config, s: State, s': State, t: Tid, next: PC, m: Manifest)
    requires Facts(c, s, t) && SaveFits(c, s, s', t, next, m) && ViewOK(s', next) && Moves(s, s', t)
    ensures ContentShape(s, s', t)
  {
    SavesStore(s, s', t, s.pcs[t].id, m);
    ContentKept(c, s, s', t, next);
  }

  lemma SaveStep(c: Config, s: State, s': State, t: Tid, next: PC, m: Manifest)
    requires Facts(c, s, t) && SaveFits(c, s, s', t, next, m) && ViewOK(s', next)
    requires JobOK(s', s.pcs[t].id)
    ensures StepShape(c, s, s', t)
  {
    SaveMoves(c, s, s', t, next, m);
    SaveContent(c, s, s', t, next, m);
  }

  // ---------------------------------------------------------------- families of transitions

  /** A request thread that holds and answers for nothing but a job lock. */
  ghost predicate Plain(pc: PC) {
    || pc.DeleteWaiting? || pc.DeleteWanting? || pc.StartLocked?
    || pc.CancelLocked? || pc.CancelSignal? || pc.CancelUpdate?
    || pc.DeleteLocked? || pc.DeleteSignal? || pc.DeleteRelocked?
    || pc.CleanupLocked? || pc.CleanupLoaded? || pc.RemoveLocked? || pc.RemoveLoaded? || Quiet(pc)
    || (pc.Unlocking? && (pc.after.ToIdle? || pc.after.ToWait?))
    || ((pc.LeaseLocked? || pc.LeaseLoaded?) && pc.use.Download?)
  }

  lemma PlainRoles(pc: PC)
    requires Plain(pc)
    ensures !HoldsLease(pc) && !Answers(pc) && !BeforeClaim(pc) && !Claims(pc)
    ensures !QueueCounted(pc) && !IsWorker(pc) && !InGroup(pc) && !HasSlot(pc) && !Uploading(pc) && !HoldsJob(pc)
    ensures !pc.WorkerExited? && !pc.WorkerIdle? && !pc.ShutdownStopping? && !pc.StartSending? && HasJob(pc)
    ensures ControlTaken(pc).None? && CurrentFile(pc) == {} && ClaimOf(pc).None?
  {
  }

  /** A thread without a job holds nothing. */
  lemma JoblessRoles(pc: PC)
    requires !HasJob(pc)
    ensures LockOf(pc).None? && LeaseOf(pc).None? && TokenOf(pc).None? && ClaimOf(pc).None? && UploadOf(pc).None?
    ensures QuietOf(pc).None? && SeenOf(pc).None? && ControlTaken(pc).None? && CurrentFile(pc) == {}
    ensures !BeforeClaim(pc) && !HasSlot(pc) && !QueueCounted(pc) && !RunCounted(pc) && !HoldsJob(pc)
    ensures !Answers(pc) && !pc.StartSending?
    ensures InGroup(pc) <==> pc.WorkerIdle? || pc.Reserved? || pc.LeavingGroup?
    ensures IsWorker(pc) <==> pc.WorkerIdle? || pc.WorkerExited?
  {
  }

  /** A worker at its claimed job holds a lease on it and answers for it. */
  lemma ClaimRoles(pc: PC)
    requires Claims(pc)
    ensures LockOf(pc).None? && LeaseOf(pc) == Some(pc.id) && TokenOf(pc) == Some(pc.id) && ClaimOf(pc) == Some(pc.id)
    ensures UploadOf(pc).None? && QuietOf(pc).None? && SeenOf(pc) == Some(pc.id) && ControlTaken(pc) == Some(pc.ctl)
    ensures !BeforeClaim(pc) && !QueueCounted(pc) && RunCounted(pc) && HoldsJob(pc) && HasJob(pc)
    ensures InGroup(pc) && IsWorker(pc) && !pc.StartSending? && !pc.WorkerExited? && !pc.ShutdownStopping?
  {
  }

  lemma UploadRoles(pc: PC)
    requires Uploading(pc) || pc.UploadDone?
    ensures LockOf(pc).None? && LeaseOf(pc) == Some(pc.id) && TokenOf(pc).None? && ClaimOf(pc).None?
            && QuietOf(pc).None?
    ensures SeenOf(pc) == Some(pc.id) && ControlTaken(pc).None? && CurrentFile(pc) == {} && HasJob(pc)
    ensures !BeforeClaim(pc) && !QueueCounted(pc) && !RunCounted(pc) && !HoldsJob(pc) && InGroup(pc) && !IsWorker(pc)
    ensures (HasSlot(pc) <==> pc.ProbeSlot?) && !pc.StartSending? && !pc.WorkerExited? && !pc.ShutdownStopping?
  {
  }

  /** A thread that has not reached its claim answers for the job. */
  lemma BeforeRoles(pc: PC)
    requires BeforeClaim(pc)
    ensures TokenOf(pc) == Some(pc.id) && ClaimOf(pc).None? && UploadOf(pc).None? && QuietOf(pc).None?
    ensures LeaseOf(pc) == if pc.WorkerLeased? || pc.Unlocking? then Some(pc.id) else None
    ensures LockOf(pc) == if pc.WorkerReceived? || pc.WorkerTaken? || pc.WorkerLeased? then None else Some(pc.id)
    ensures SeenOf(pc) == Some(pc.id) && CurrentFile(pc) == {} && !HasSlot(pc) && HasJob(pc)
    ensures (QueueCounted(pc) <==> !RunCounted(pc)) && (QueueCounted(pc) <==> pc.StartSending? || pc.WorkerReceived?)
    ensures (IsWorker(pc) <==> !pc.StartSending?) && (InGroup(pc) <==> !pc.StartSending?)
    ensures !pc.WorkerExited? && !pc.ShutdownStopping?
  {
  }

  /** A worker done with its job answers for it until it has finished. */
  lemma AfterRoles(pc: PC)
    requires AfterClaim(pc)
    ensures TokenOf(pc) == Some(pc.id) && ClaimOf(pc).None? && UploadOf(pc).None? && QuietOf(pc).None?
            && !BeforeClaim(pc)
    ensures LeaseOf(pc) == if pc.WorkerReleasing? then Some(pc.id) else None
    ensures LockOf(pc) == if pc.Unlocking? then Some(pc.id) else None
    ensures SeenOf(pc) == Some(pc.id) && ControlTaken(pc).None? && CurrentFile(pc) == {} && !HasSlot(pc) && HasJob(pc)
    ensures !QueueCounted(pc) && RunCounted(pc) && IsWorker(pc) && InGroup(pc)
    ensures !pc.StartSending? && !pc.WorkerExited? && !pc.ShutdownStopping?
  {
  }

  /** Giving a request up, or finishing it, under its job lock. */
  lemma BackOffFits(c: Config, s: State, pc: PC, next: PC)
    requires Plain(pc) && LocksJob(pc) && next == Unlocking(pc.id, ToIdle)
    ensures GoFits(c, s, pc, next)
  {
    PlainRoles(pc);
    PlainRoles(next);
  }

  /** The next step of a request under its job lock. */
  ghost predicate Proceeds(pc: PC, next: PC) {
    || (pc.CancelLocked? && next == CancelSignal(pc.id))
    || (pc.CancelSignal? && next == CancelUpdate(pc.id))
    || (pc.DeleteLocked? && next == DeleteSignal(pc.id))
    || (pc.DeleteSignal? && next == Unlocking(pc.id, ToWait))
    || (pc.CleanupLocked? && next == CleanupLoaded(pc.id))
    || (pc.RemoveLocked? && next.RemoveLoaded? && next.id == pc.id)
  }

  lemma ProceedsFits(c: Config, s: State, pc: PC, next: PC)
    requires Proceeds(pc, next) && next.id in s.minted
    ensures RolesFit(c, s, pc, next) && LeaseOf(next) == LeaseOf(pc)
    ensures ViewOK(s, next) ==> StaysWith(s, pc, next)
  {
    PlainRoles(pc);
    PlainRoles(next);
  }

  /** The next step of a request that has seen no lease, or sees none now. */
  ghost predicate ProceedsQuietly(s: State, pc: PC, next: PC) {
    || (pc.DeleteRelocked? && next == DeleteChecked(pc.id) && !Leased(s.mem, pc.id))
    || (pc.DeleteChecked? && next == DeleteRemoving(pc.id))
    || (pc.DeleteRemoving? && next == Forgetting(pc.id))
    || (pc.CleanupLoaded? && next == CleanupRemoving(pc.id) && !Leased(s.mem, pc.id))
    || (pc.CleanupRemoving? && next == Forgetting(pc.id))
    || (pc.RemoveLoaded? && next.RemoveChecked? && next.id == pc.id && !Leased(s.mem, pc.id))
    || (pc.RemoveChecked? && (next.RemoveSaved? || next.RemoveRollback?) && next.id == pc.id)
    || (pc.RemoveSaved? && (next.RemoveRollback? || next.RemoveEmptied?) && next.id == pc.id)
  }

  lemma ProceedsQuietlyFits(c: Config, s: State, pc: PC, next: PC)
    requires ProceedsQuietly(s, pc, next) && next.id in s.minted
    ensures RolesFit(c, s, pc, next) && LeaseOf(next) == LeaseOf(pc)
    ensures ViewOK(s, next) ==> StaysWith(s, pc, next)
  {
    PlainRoles(pc);
    PlainRoles(next);
  }

  /** Waiting for leases to go, outside the lock. */
  ghost predicate Waits(s: State, pc: PC, next: PC) {
    || (pc.DeleteWaiting? && (next == Idle || (next == DeleteWanting(pc.id) && pc.id in s.minted)))
    || (pc.DeleteWanting? && next == DeleteRelocked(pc.id) && pc.id in s.minted && LockFree(s, pc.id))
  }

  lemma WaitFits(c: Config, s: State, pc: PC, next: PC)
    requires Waits(s, pc, next)
    ensures GoFits(c, s, pc, next)
  {
    PlainRoles(pc);
    if next == Idle {
      JoblessRoles(next);
    } else {
      PlainRoles(next);
    }
  }

  /** A request takes a free job lock. */
  ghost predicate BeginsRequest(s: State, pc: PC, next: PC) {
    && pc.Idle?
    && (|| next.StartLocked? || next.CancelLocked? || next.DeleteLocked? || next.CleanupLocked? || next.RemoveLocked?
        || (next.LeaseLocked? && next.use.Download?))
    && LockFree(s, next.id)
  }

  lemma BeginFits(c: Config, s: State, pc: PC, next: PC)
    requires BeginsRequest(s, pc, next)
    ensures GoFits(c, s, pc, next)
  {
    JoblessRoles(pc);
    PlainRoles(next);
  }

  /** An upload stays an upload. */
  ghost predicate KeepsUploading(c: Config, s: State, pc: PC, next: PC) {
    && Uploading(pc) && Uploading(next) && next.id == pc.id && next.id in s.minted
    && (next.ProbeSlot? ==> pc.ProbeSlot? || |SlotHolders(s.pcs)| < c.processes)
    && ViewOK(s, next)
  }

  lemma UploadFits(c: Config, s: State, pc: PC, next: PC)
    requires KeepsUploading(c, s, pc, next)
    ensures GoFits(c, s, pc, next)
  {
    UploadRoles(pc);
    UploadRoles(next);
  }

  /** A worker's own next step at its claimed job. */
  ghost predicate WorksOn(pc: PC, next: PC) {
    || (pc.WorkerLoop? && (next.WorkerBegin? || next.WorkerFinalizing?))
    || (pc.WorkerBegin? && next.WorkerLoop?)
    || (pc.WorkerWaiting? && (next.WorkerSlot? || (next.WorkerRecording? && !next.slot)) && next.file == pc.file)
    || (pc.WorkerSlot? && (next.WorkerConverting? || next.WorkerRecording?) && next.file == pc.file)
    || (pc.WorkerConverting? && next.WorkerRecording? && next.file == pc.file)
    || (pc.WorkerSlotRelease? && next.WorkerLoop?)
  }

  ghost predicate KeepsWorking(c: Config, s: State, pc: PC, next: PC) {
    && WorksOn(pc, next) && next.id == pc.id && next.ctl == pc.ctl && next.id in s.minted
    && (next.WorkerSlot? ==> |SlotHolders(s.pcs)| < c.processes)
  }

  lemma WorksOnFits(c: Config, s: State, pc: PC, next: PC)
    requires KeepsWorking(c, s, pc, next)
    ensures GoFits(c, s, pc, next)
  {
    ClaimRoles(pc);
    ClaimRoles(next);
  }

  /** A worker claims its job, marks or unmarks a file, or is done with the job. */
  ghost predicate WorksThrough(pc: PC, next: PC) {
    || (pc.WorkerLeased? && (next.WorkerLoop? || next.WorkerReleasing?))
    || (pc.WorkerBegin? && next.WorkerWaiting?)
    || (pc.WorkerRecording? && (next.WorkerLoop? || (next.WorkerSlotRelease? && pc.slot)))
    || (pc.WorkerFinalizing? && next.WorkerReleasing?)
  }

  lemma WorksThroughFits(c: Config, s: State, pc: PC, next: PC)
    requires WorksThrough(pc, next) && next.id == pc.id && next.ctl == pc.ctl && next.id in s.minted
    ensures RolesFit(c, s, pc, next) && LeaseOf(next) == LeaseOf(pc) && ViewOK(s, next)
  {
  }

  /** A worker locks its job for the lease, finds it, or gives it up. */
  lemma WorkerLeaseFits(c: Config, s: State, pc: PC, next: PC)
    requires || (pc.WorkerTaken? && next == LeaseLocked(pc.id, Work(pc.ctl)) && LockFree(s, pc.id))
             || (pc.LeaseLocked? && next == LeaseLoaded(pc.id, pc.use))
             || (pc.LeaseLocked? && pc.use.Work? && next == Unlocking(pc.id, ToFinished(pc.use.ctl)))
    requires pc.id in s.minted
    ensures RolesFit(c, s, pc, next) && LeaseOf(next) == LeaseOf(pc) && ViewOK(s, next)
    ensures pc.WorkerTaken? || (next.LeaseLoaded? && pc.id in s.mem.store) ==> StaysWith(s, pc, next)
  {
  }

  /** Coming and going without a job. */
  ghost predicate Enters(s: State, pc: PC, next: PC) {
    || (pc.Idle? && next.Reserved? && s.mem.accepting)
    || (pc.Reserved? && next.LeavingGroup?)
    || (pc.LeavingGroup? && next.Idle?)
    || (pc.WorkerIdle? && next.WorkerExited? && s.mem.closed && s.mem.queue == [])
  }

  lemma EntryFits(c: Config, s: State, pc: PC, next: PC)
    requires Enters(s, pc, next)
    ensures GoFits(c, s, pc, next)
  {
    JoblessRoles(pc);
    JoblessRoles(next);
  }

  /** Unlocking: the thread goes where it was bound for. */
  lemma UnlockFits(c: Config, s: State, pc: PC, next: PC)
    requires pc.Unlocking? && (SeenOf(next).Some? ==> next.id in s.minted)
    requires next == match pc.after
                     case ToIdle => Idle
                     case ToWait => DeleteWaiting(pc.id)
                     case ToHold(Download) => Downloading(pc.id)
                     case ToHold(Work(ctl)) => WorkerLeased(pc.id, ctl)
                     case ToFinished(ctl) => WorkerFinished(pc.id, ctl)
    ensures GoFits(c, s, pc, next)
  {
  }
}
