/** The engine never stops halfway: while some thread has work, some such thread has
    a step that is not a timeout, and a thread under a job lock is soon done with it. */
module EngineProgress {
  import opened Options
  import opened Profiles
  import opened Manifests
  import opened Engine
  import opened EngineInvariants
  import opened EngineSteps

  /** Steps by which a thread stops waiting without getting what it waits for. */
  ghost predicate TimesOut(a: Action) {
    || (a.Deletions? && a.deletion.DeleteGiveUp?)
    || (a.Uploads? && a.upload.ProbeWithoutSlot?)
    || (a.Conversions? && a.conversion.WaitCanceled?)
  }

  ghost predicate CanStep(c: Config, s: State, t: Tid) {
    exists s': State, a: Action :: !TimesOut(a) && Step(c, s, s', t, a)
  }

  /** A thread in the middle of a request, of a job, or of a shutdown. */
  ghost predicate Busy(s: State, t: Tid) {
    t in s.pcs && !s.pcs[t].Idle? && !s.pcs[t].WorkerIdle? && !s.pcs[t].WorkerExited?
  }

  lemma Does(c: Config, s: State, s': State, t: Tid, a: Action)
    requires Step(c, s, s', t, a) && !TimesOut(a)
    ensures CanStep(c, s, t)
  {
  }

  // ---------------------------------------------------------------- under a job lock

  lemma StarterSteps(c: Config, s: State, t: Tid)
    requires t in s.pcs && MutexFree(s) && s.pcs[t].StartLocked?
    ensures CanStep(c, s, t)
  {
    var id := s.pcs[t].id;
    var s' := match StartSection(s.mem, id, s.pcs[t].selections, c.queueDepth, Works)
      case Err(_) => Go(s, t, Unlocking(id, ToIdle))
      case Ok(mem) => GoMem(s, t, StartSending(id), mem).(place := s.place[id := At(t)]);
    Does(c, s, s', t, Startings(StartBody(Works)));
  }

  lemma CancelerSteps(c: Config, s: State, t: Tid)
    requires t in s.pcs && MutexFree(s)
    requires s.pcs[t].CancelLocked? || s.pcs[t].CancelSignal? || s.pcs[t].CancelUpdate?
    ensures CanStep(c, s, t)
  {
    var id, mem, done := s.pcs[t].id, s.mem, Unlocking(s.pcs[t].id, ToIdle);
    if s.pcs[t].CancelLocked? {
      var next := if id !in mem.store || mem.store[id].state.Terminal() then done else CancelSignal(id);
      Does(c, s, Go(s, t, next), t, Cancelings(CancelLoad(Works)));
    } else if s.pcs[t].CancelSignal? {
      Does(c, s, GoMem(s, t, CancelUpdate(id), SignalSection(mem, id)), t, Cancelings(CancelNotify));
    } else {
      var s' := if id !in mem.store then Go(s, t, done)
                else GoMem(s, t, done, Save(mem, id, CancelManifest(mem.store[id], 0))).(dropped := s.dropped - {id});
      Does(c, s, s', t, Cancelings(CancelSave(Works, 0)));
    }
  }

  lemma DeleterSteps(c: Config, s: State, t: Tid)
    requires t in s.pcs && MutexFree(s)
    requires || s.pcs[t].DeleteLocked? || s.pcs[t].DeleteSignal? || s.pcs[t].DeleteRelocked?
             || s.pcs[t].DeleteChecked? || s.pcs[t].DeleteRemoving? || s.pcs[t].Forgetting?
    ensures CanStep(c, s, t)
  {
    var id, mem, done := s.pcs[t].id, s.mem, Unlocking(s.pcs[t].id, ToIdle);
    if s.pcs[t].DeleteLocked? {
      Does(c, s, Go(s, t, if id !in mem.store then done else DeleteSignal(id)), t, Deletions(DeleteLoad(Works)));
    } else if s.pcs[t].DeleteSignal? {
      Does(c, s, GoMem(s, t, Unlocking(id, ToWait), SignalSection(mem, id)), t, Deletions(DeleteNotify));
    } else if s.pcs[t].DeleteRelocked? {
      Does(c, s, Go(s, t, if Leased(mem, id) then done else DeleteChecked(id)), t, Deletions(DeleteCheck));
    } else if s.pcs[t].DeleteChecked? {
      Does(c, s, GoMem(s, t, DeleteRemoving(id), SignalSection(mem, id)), t, Deletions(DeleteNotifyAgain));
    } else if s.pcs[t].DeleteRemoving? {
      var s' := if id !in mem.store then Go(s, t, done) else GoMem(s, t, Forgetting(id), Unlink(mem, id));
      Does(c, s, s', t, Deletions(DeleteUnlink(Removed)));
    } else {
      Does(c, s, GoMem(s, t, done, ForgetSection(mem, id)), t, Deletions(Forget));
    }
  }

  lemma SweeperSteps(c: Config, s: State, t: Tid)
    requires t in s.pcs && MutexFree(s)
    requires s.pcs[t].CleanupLocked? || s.pcs[t].CleanupLoaded? || s.pcs[t].CleanupRemoving?
    ensures CanStep(c, s, t)
  {
    var id, mem, done := s.pcs[t].id, s.mem, Unlocking(s.pcs[t].id, ToIdle);
    if s.pcs[t].CleanupLocked? {
      var keep := id !in mem.store || !mem.store[id].Expired(s.pcs[t].now) || mem.store[id].state.Active();
      Does(c, s, Go(s, t, if keep then done else CleanupLoaded(id)), t, Sweeps(CleanupLoad(Works)));
    } else if s.pcs[t].CleanupLoaded? {
      Does(c, s, Go(s, t, if Leased(mem, id) then done else CleanupRemoving(id)), t, Sweeps(CleanupCheck));
    } else {
      var s' := if id !in mem.store then Go(s, t, Forgetting(id)) else GoMem(s, t, Forgetting(id), Unlink(mem, id));
      Does(c, s, s', t, Sweeps(CleanupUnlink(Removed)));
    }
  }

  lemma RemoverReads(c: Config, s: State, t: Tid)
    requires t in s.pcs && MutexFree(s) && (s.pcs[t].RemoveLocked? || s.pcs[t].RemoveLoaded?)
    ensures CanStep(c, s, t)
  {
    var pc, id, mem, done := s.pcs[t], s.pcs[t].id, s.mem, Unlocking(s.pcs[t].id, ToIdle);
    if pc.RemoveLocked? {
      var next := if id !in mem.store || !mem.store[id].state.JobPending? then done
                  else RemoveLoaded(id, pc.file, mem.store[id]);
      Does(c, s, Go(s, t, next), t, FileRemovals(RemoveLoad(Works)));
    } else {
      var i := IndexOf(pc.was.files, pc.file);
      var next := if Leased(mem, id) || i == |pc.was.files| then done else RemoveChecked(id, pc.was, i);
      Does(c, s, Go(s, t, next), t, FileRemovals(RemoveCheck));
    }
  }

  lemma RemoverWrites(c: Config, s: State, t: Tid)
    requires t in s.pcs && ViewOK(s, s.pcs[t])
    requires s.pcs[t].RemoveChecked? || s.pcs[t].RemoveSaved? || s.pcs[t].RemoveRollback? || s.pcs[t].RemoveEmptied?
    ensures CanStep(c, s, t)
  {
    var pc, id, mem, done := s.pcs[t], s.pcs[t].id, s.mem, Unlocking(s.pcs[t].id, ToIdle);
    if pc.RemoveChecked? {
      var s' := if id !in mem.store then Go(s, t, RemoveRollback(id, pc.was, pc.index))
                else GoMem(s, t, RemoveSaved(id, pc.was, pc.index), Save(mem, id, WithoutIndex(pc.was, pc.index)));
      Does(c, s, s', t, FileRemovals(RemoveSave(Works)));
    } else if pc.RemoveSaved? {
      Does(c, s, Go(s, t, if |pc.was.files| == 1 then RemoveEmptied(id) else done), t, FileRemovals(RemoveInput(true)));
    } else if pc.RemoveRollback? {
      var s' := GoMem(s, t, done, if id !in mem.store then mem else Save(mem, id, pc.was));
      Does(c, s, s', t, FileRemovals(RemoveRestore(Works)));
    } else {
      Does(c, s, GoMem(s, t, done, Unlink(mem, id)), t, FileRemovals(RemoveJob(Removed)));
    }
  }

  lemma LeaserSteps(c: Config, s: State, t: Tid)
    requires t in s.pcs && MutexFree(s)
    requires s.pcs[t].LeaseLocked? || s.pcs[t].LeaseLoaded? || s.pcs[t].Unlocking?
    ensures CanStep(c, s, t)
  {
    var pc, id, mem := s.pcs[t], s.pcs[t].id, s.mem;
    if pc.LeaseLocked? {
      var s' := if id in mem.store then Go(s, t, LeaseLoaded(id, pc.use))
                else if pc.use.Download? then Go(s, t, Unlocking(id, ToIdle))
                else Go(s, t, Unlocking(id, ToFinished(pc.use.ctl))).(dropped := Drop(s, id));
      Does(c, s, s', t, Leasings(LeaseLoad(Works)));
    } else if pc.LeaseLoaded? {
      Does(c, s, GoMem(s, t, Unlocking(id, ToHold(pc.use)), AcquireLease(mem, id)), t, Leasings(LeaseCountUp));
    } else {
      var next := match pc.after
        case ToIdle => Idle
        case ToWait => DeleteWaiting(id)
        case ToHold(Download) => Downloading(id)
        case ToHold(Work(ctl)) => WorkerLeased(id, ctl)
        case ToFinished(ctl) => WorkerFinished(id, ctl);
      Does(c, s, Go(s, t, next), t, Leasings(Unlock));
    }
  }

  /** Whoever holds a job lock needs nothing but the mutex. */
  lemma HolderSteps(c: Config, s: State, t: Tid)
    requires t in s.pcs && MutexFree(s) && ViewOK(s, s.pcs[t]) && LocksJob(s.pcs[t])
    ensures CanStep(c, s, t)
  {
    match s.pcs[t]
    case StartLocked(_, _) => StarterSteps(c, s, t);
    case CancelLocked(_) => CancelerSteps(c, s, t);
    case CancelSignal(_) => CancelerSteps(c, s, t);
    case CancelUpdate(_) => CancelerSteps(c, s, t);
    case DeleteLocked(_) => DeleterSteps(c, s, t);
    case DeleteSignal(_) => DeleterSteps(c, s, t);
    case DeleteRelocked(_) => DeleterSteps(c, s, t);
    case DeleteChecked(_) => DeleterSteps(c, s, t);
    case DeleteRemoving(_) => DeleterSteps(c, s, t);
    case Forgetting(_) => DeleterSteps(c, s, t);
    case CleanupLocked(_, _) => SweeperSteps(c, s, t);
    case CleanupLoaded(_) => SweeperSteps(c, s, t);
    case CleanupRemoving(_) => SweeperSteps(c, s, t);
    case RemoveLocked(_, _) => RemoverReads(c, s, t);
    case RemoveLoaded(_, _, _) => RemoverReads(c, s, t);
    case RemoveChecked(_, _, _) => RemoverWrites(c, s, t);
    case RemoveSaved(_, _, _) => RemoverWrites(c, s, t);
    case RemoveRollback(_, _, _) => RemoverWrites(c, s, t);
    case RemoveEmptied(_) => RemoverWrites(c, s, t);
    case LeaseLocked(_, _) => LeaserSteps(c, s, t);
    case LeaseLoaded(_, _) => LeaserSteps(c, s, t);
    case Unlocking(_, _) => LeaserSteps(c, s, t);
    case _ =>
  }

  // ---------------------------------------------------------------- everybody else

  /** The sender finds the queue slot that was checked. */
  lemma SenderSteps(c: Config, s: State, t: Tid)
    requires MutexOK(c, s) && t in s.pcs && s.pcs[t].StartSending?
    ensures CanStep(c, s, t)
  {
    var id := s.pcs[t].id;
    var s' := GoMem(s, t, Unlocking(id, ToIdle), SendSection(s.mem, id)).(place := s.place[id := InQueue]);
    Does(c, s, s', t, Startings(StartSend));
  }

  /** The job lock a thread needs for its next step. */
  ghost predicate WantsLock(pc: PC) {
    || pc.DeleteWanting? || pc.WorkerTaken? || pc.WorkerLeased? || pc.WorkerBegin? || pc.WorkerRecording?
    || pc.WorkerFinalizing? || (pc.Probing? && pc.next >= |pc.files|)
  }

  lemma WorkerLocks(c: Config, s: State, t: Tid)
    requires t in s.pcs && s.pcs[t].WorkerLeased? && LockFree(s, s.pcs[t].id)
    ensures CanStep(c, s, t)
  {
    var pc, id, mem := s.pcs[t], s.pcs[t].id, s.mem;
    var s' := if id !in mem.store || ClaimManifest(mem.store[id]).Err? then Go(s, t, WorkerReleasing(id, pc.ctl))
              else var m := ClaimManifest(mem.store[id]).value;
                GoMem(s, t, WorkerLoop(id, pc.ctl, QueuedIds(m.files)), Save(mem, id, m)).(lost := s.lost[id := {}]);
    Does(c, s, s', t, Pools(Claim(Works)));
  }

  lemma WriterLocks(c: Config, s: State, t: Tid)
    requires t in s.pcs && (s.pcs[t].WorkerBegin? || s.pcs[t].WorkerRecording? || s.pcs[t].WorkerFinalizing?)
    requires LockFree(s, s.pcs[t].id)
    ensures CanStep(c, s, t)
  {
    var pc, id, mem := s.pcs[t], s.pcs[t].id, s.mem;
    if pc.WorkerBegin? {
      var begun := id in mem.store && BeginFile(mem.store[id], pc.file, 0).Ok?;
      var s' := if !begun then Go(s, t, WorkerLoop(id, pc.ctl, pc.rest))
                else GoMem(s, t, WorkerWaiting(id, pc.ctl, pc.file, pc.rest),
                           Save(mem, id, BeginFile(mem.store[id], pc.file, 0).value)).(
                       lost := s.lost[id := LostOf(s, id) - {pc.file}]);
      Does(c, s, s', t, Conversions(Begin(Works, 0)));
    } else if pc.WorkerRecording? {
      var next := if pc.slot then WorkerSlotRelease(id, pc.ctl, pc.file, pc.rest) else WorkerLoop(id, pc.ctl, pc.rest);
      var s' := if id in mem.store
                then GoMem(s, t, next, Save(mem, id, RecordOutcome(mem.store[id], pc.file, pc.outcome, 0)))
                else Go(s, t, next).(lost := s.lost[id := LostOf(s, id) + {pc.file}]);
      Does(c, s, s', t, Conversions(Record(Works, 0)));
    } else {
      var next := WorkerReleasing(id, pc.ctl);
      var s' := if id !in mem.store then Go(s, t, next)
                else GoMem(s, t, next, Save(mem, id, FinalizeManifest(mem.store[id], pc.canceled, 0)));
      Does(c, s, s', t, Conversions(Finalize(Works, 0)));
    }
  }

  lemma OtherLocks(c: Config, s: State, t: Tid)
    requires t in s.pcs
    requires s.pcs[t].DeleteWanting? || s.pcs[t].WorkerTaken? || (s.pcs[t].Probing? && s.pcs[t].next >= |s.pcs[t].files|)
    requires LockFree(s, s.pcs[t].id)
    ensures CanStep(c, s, t)
  {
    var pc, id, mem := s.pcs[t], s.pcs[t].id, s.mem;
    if pc.DeleteWanting? {
      Does(c, s, Go(s, t, DeleteRelocked(id)), t, Deletions(DeleteRelock));
    } else if pc.WorkerTaken? {
      Does(c, s, Go(s, t, LeaseLocked(id, Work(pc.ctl))), t, Pools(LockForLease));
    } else {
      var s' := if id !in mem.store then Go(s, t, RollingBack(id))
                else GoMem(s, t, UploadDone(id),
                           Save(mem, id, MergeManifest(mem.store[id], pc.files, SumSizes(pc.files), 0)));
      Does(c, s, s', t, Uploads(Merge(Works, 0)));
    }
  }

  lemma FreeLockSteps(c: Config, s: State, t: Tid)
    requires t in s.pcs && WantsLock(s.pcs[t]) && LockFree(s, s.pcs[t].id)
    ensures CanStep(c, s, t)
  {
    if s.pcs[t].WorkerLeased? {
      WorkerLocks(c, s, t);
    } else if s.pcs[t].WorkerBegin? || s.pcs[t].WorkerRecording? || s.pcs[t].WorkerFinalizing? {
      WriterLocks(c, s, t);
    } else {
      OtherLocks(c, s, t);
    }
  }

  lemma ProberSteps(c: Config, s: State, t: Tid)
    requires ViewsOK(s) && t in s.pcs && s.pcs[t].ProbeSlot?
    ensures Busy(s, t) && CanStep(c, s, t)
  {
    var pc := s.pcs[t];
    assert ViewOK(s, pc);
    var files := pc.files[pc.next := ProbeInspected(pc.files[pc.next], CompatibleVideo, [CompatibleVideo])];
    Does(c, s, Go(s, t, Probing(pc.id, files, pc.next + 1)), t,
         Uploads(ProbeSucceeds(CompatibleVideo, [CompatibleVideo])));
  }

  /** Whoever holds a process slot can use it, until it records what it did. */
  lemma SlotHolderSteps(c: Config, s: State, t: Tid)
    requires ViewsOK(s) && t in s.pcs && HasSlot(s.pcs[t]) && !s.pcs[t].WorkerRecording?
    ensures CanStep(c, s, t)
  {
    var pc, id := s.pcs[t], s.pcs[t].id;
    if pc.ProbeSlot? {
      ProberSteps(c, s, t);
    } else if pc.WorkerSlot? && Canceled(s.mem, pc.ctl) {
      var next := WorkerRecording(id, pc.ctl, pc.file, pc.rest, CancelRecorded, true);
      Does(c, s, Go(s, t, next), t, Conversions(SlotCanceled));
    } else if pc.WorkerSlot? {
      Does(c, s, Go(s, t, WorkerConverting(id, pc.ctl, pc.file, pc.rest)), t, Conversions(SlotConverts));
    } else if pc.WorkerConverting? {
      var outcome := Converted(Output("", 0));
      var next := WorkerRecording(id, pc.ctl, pc.file, pc.rest, outcome, true);
      Does(c, s, Go(s, t, next), t, Conversions(ConvertReturns(outcome)));
    } else {
      Does(c, s, Go(s, t, WorkerLoop(id, pc.ctl, pc.rest)), t, Conversions(ReleaseSlot));
    }
  }

  /** The process slot a thread needs for its next step. */
  ghost predicate WantsSlot(pc: PC) {
    pc.WorkerWaiting? || (pc.Probing? && pc.next < |pc.files|)
  }

  lemma FreeSlotSteps(c: Config, s: State, t: Tid)
    requires t in s.pcs && WantsSlot(s.pcs[t]) && |SlotHolders(s.pcs)| < c.processes
    ensures CanStep(c, s, t)
  {
    var pc := s.pcs[t];
    if pc.WorkerWaiting? {
      Does(c, s, Go(s, t, WorkerSlot(pc.id, pc.ctl, pc.file, pc.rest)), t, Conversions(TakeSlot));
    } else {
      Does(c, s, Go(s, t, ProbeSlot(pc.id, pc.files, pc.next)), t, Uploads(ProbeTakesSlot));
    }
  }

  lemma {:induction false} FreshId(ids: set<JobId>) returns (id: JobId)
    ensures forall k :: k in ids ==> k < id
  {
    if ids == {} {
      id := 0;
    } else {
      var k :| k in ids;
      var above := FreshId(ids - {k});
      id := if k < above then above else k + 1;
      assert forall j :: j in ids ==> j == k || j in ids - {k};
    }
  }

  /** An upload outside its probes needs nothing but the mutex. */
  lemma UploaderSteps(c: Config, s: State, t: Tid)
    requires t in s.pcs && MutexFree(s)
    requires || s.pcs[t].Reserved? || s.pcs[t].Receiving? || s.pcs[t].RollingBack? || s.pcs[t].UploadDone?
             || s.pcs[t].LeavingGroup?
    ensures CanStep(c, s, t)
  {
    var pc, mem := s.pcs[t], s.mem;
    match pc
    case Reserved =>
      var id := FreshId(s.minted);
      Does(c, s, GoMem(s, t, Receiving(id), CreateSection(mem, id, 0, c.ttl)).(minted := s.minted + {id}), t,
           Uploads(Create(id, 0)));
    case Receiving(id) => Does(c, s, Go(s, t, RollingBack(id)), t, Uploads(ReceiveFails));
    case RollingBack(id) => Does(c, s, GoMem(s, t, UploadDone(id), Unlink(mem, id)), t, Uploads(Rollback(Removed)));
    case UploadDone(id) => Does(c, s, GoMem(s, t, LeavingGroup, ReleaseLease(mem, id)), t, Uploads(ReleaseUpload));
    case LeavingGroup => Does(c, s, Go(s, t, Idle), t, Uploads(LeaveGroup));
  }

  /** A worker between its waits needs nothing but the mutex. */
  lemma WorkerSteps(c: Config, s: State, t: Tid)
    requires t in s.pcs && MutexFree(s)
    requires s.pcs[t].WorkerReceived? || s.pcs[t].WorkerLoop? || s.pcs[t].WorkerReleasing? || s.pcs[t].WorkerFinished?
    ensures CanStep(c, s, t)
  {
    var mem := s.mem;
    match s.pcs[t]
    case WorkerReceived(id) =>
      Does(c, s, GoMem(s, t, WorkerTaken(id, ControlOf(mem, id)), TakeSection(mem)), t, Pools(Take));
    case WorkerLoop(id, ctl, todo) =>
      if |todo| == 0 || Canceled(mem, ctl) {
        Does(c, s, Go(s, t, WorkerFinalizing(id, ctl, Canceled(mem, ctl))), t, Conversions(LoopEnd));
      } else {
        Does(c, s, Go(s, t, WorkerBegin(id, ctl, todo[0], todo[1..])), t, Conversions(LoopNext));
      }
    case WorkerReleasing(id, ctl) =>
      Does(c, s, GoMem(s, t, WorkerFinished(id, ctl), ReleaseLease(mem, id)), t, Pools(ReleaseWork));
    case WorkerFinished(id, ctl) =>
      Does(c, s, GoMem(s, t, WorkerIdle, FinishSection(mem, id, ctl)).(place := s.place[id := Retired]), t,
           Pools(Finish));
  }

  lemma RestSteps(c: Config, s: State, t: Tid)
    requires t in s.pcs && MutexFree(s) && (s.pcs[t].Downloading? || s.pcs[t].ShutdownStopping?)
    ensures CanStep(c, s, t)
  {
    if s.pcs[t].Downloading? {
      Does(c, s, GoMem(s, t, Idle, ReleaseLease(s.mem, s.pcs[t].id)), t, Leasings(ReleaseDownload));
    } else {
      Does(c, s, GoMem(s, t, Idle, CloseSection(s.mem)), t, Shutdowns(CloseQueue));
    }
  }

  /** Any busy thread that waits for no job lock, process slot or lease. */
  lemma FreeMutexSteps(c: Config, s: State, t: Tid)
    requires ViewsOK(s) && MutexFree(s) && Busy(s, t) && !s.pcs[t].DeleteWaiting?
    requires !WantsLock(s.pcs[t]) && !WantsSlot(s.pcs[t])
    ensures CanStep(c, s, t)
  {
    var pc := s.pcs[t];
    if LocksJob(pc) {
      assert ViewOK(s, pc);
      HolderSteps(c, s, t);
    } else if HasSlot(pc) {
      SlotHolderSteps(c, s, t);
    } else if pc.Downloading? || pc.ShutdownStopping? {
      RestSteps(c, s, t);
    } else if pc.Reserved? || pc.Receiving? || pc.RollingBack? || pc.UploadDone? || pc.LeavingGroup? {
      UploaderSteps(c, s, t);
    } else {
      WorkerSteps(c, s, t);
    }
  }

  // ---------------------------------------------------------------- who waits for whom

  /** The state as it would be if one thread held no lock, no mutex and no slot. */
  ghost function Without(s: State, u: Tid): State {
    s.(pcs := s.pcs[u := Idle])
  }

  /** One thread has no step, and another one is what it waits for: without it the first
      would have one, or it holds a lease on the job the first is deleting. */
  ghost predicate Awaits(c: Config, s: State, t: Tid, u: Tid) {
    && t in s.pcs && u in s.pcs && t != u && !CanStep(c, s, t)
    && (CanStep(c, Without(s, u), t) || (s.pcs[t].DeleteWaiting? && LeaseOf(s.pcs[u]) == Some(s.pcs[t].id)))
  }

  /** From a thread along what each waits for, to one that has a step. */
  ghost predicate WaitsAlong(c: Config, s: State, path: seq<Tid>) {
    && path != [] && Busy(s, path[|path| - 1]) && CanStep(c, s, path[|path| - 1])
    && forall k :: 0 <= k < |path| - 1 ==> Awaits(c, s, path[k], path[k + 1])
  }

  lemma Here(c: Config, s: State, t: Tid) returns (path: seq<Tid>)
    requires Busy(s, t) && CanStep(c, s, t)
    ensures path == [t] && WaitsAlong(c, s, path)
  {
    path := [t];
  }

  lemma Further(c: Config, s: State, t: Tid, rest: seq<Tid>) returns (path: seq<Tid>)
    requires WaitsAlong(c, s, rest) && Awaits(c, s, t, rest[0])
    ensures path == [t] + rest && WaitsAlong(c, s, path)
  {
    path := [t] + rest;
    forall k | 0 <= k < |path| - 1 ensures Awaits(c, s, path[k], path[k + 1]) {
      if k > 0 {
        assert Awaits(c, s, rest[k - 1], rest[k]);
      }
    }
  }

  lemma WithoutViews(s: State, u: Tid)
    requires ViewsOK(s)
    ensures ViewsOK(Without(s, u))
  {
  }

  /** Waiting for the mutex: its holder has a step. */
  lemma MutexPath(c: Config, s: State, t: Tid) returns (path: seq<Tid>)
    requires ViewsOK(s) && MutexOK(c, s) && Busy(s, t) && !s.pcs[t].DeleteWaiting?
    requires !WantsLock(s.pcs[t]) && !WantsSlot(s.pcs[t])
    ensures WaitsAlong(c, s, path) && path[0] == t && |path| <= 2
  {
    if MutexFree(s) {
      FreeMutexSteps(c, s, t);
    }
    if CanStep(c, s, t) {
      path := Here(c, s, t);
    } else {
      var u :| u in s.pcs && s.pcs[u].StartSending?;
      SenderSteps(c, s, u);
      WithoutViews(s, u);
      FreeMutexSteps(c, Without(s, u), t);
      path := Here(c, s, u);
      path := Further(c, s, t, path);
    }
  }

  lemma WithoutLock(s: State, u: Tid, id: JobId)
    requires LocksOK(s) && u in s.pcs && LockOf(s.pcs[u]) == Some(id)
    ensures LockFree(Without(s, u), id)
  {
  }

  lemma LockHolder(s: State, id: JobId) returns (u: Tid)
    requires !LockFree(s, id)
    ensures u in s.pcs && LockOf(s.pcs[u]) == Some(id)
  {
    u :| u in s.pcs && LockOf(s.pcs[u]) == Some(id);
  }

  lemma WantsOrLocks(pc: PC)
    ensures WantsLock(pc) ==> LockOf(pc).None?
  {
  }

  lemma LockTaken(c: Config, s: State, t: Tid) returns (u: Tid)
    requires LocksOK(s) && t in s.pcs && WantsLock(s.pcs[t]) && !CanStep(c, s, t)
    ensures Awaits(c, s, t, u) && LocksJob(s.pcs[u])
  {
    if LockFree(s, s.pcs[t].id) {
      FreeLockSteps(c, s, t);
    }
    u := LockHolder(s, s.pcs[t].id);
    WantsOrLocks(s.pcs[t]);
    WithoutLock(s, u, s.pcs[t].id);
    assert Without(s, u).pcs[t] == s.pcs[t];
    FreeLockSteps(c, Without(s, u), t);
  }

  lemma HolderWantsMore(s: State, u: Tid)
    requires u in s.pcs && LocksJob(s.pcs[u])
    ensures Busy(s, u) && !s.pcs[u].DeleteWaiting? && !WantsLock(s.pcs[u]) && !WantsSlot(s.pcs[u])
  {
  }

  /** Waiting for a job lock: its holder waits for the mutex at most. */
  lemma LockPath(c: Config, s: State, t: Tid) returns (path: seq<Tid>)
    requires ViewsOK(s) && MutexOK(c, s) && LocksOK(s) && t in s.pcs && WantsLock(s.pcs[t])
    ensures WaitsAlong(c, s, path) && path[0] == t && |path| <= 3
  {
    if CanStep(c, s, t) {
      path := Here(c, s, t);
    } else {
      var u := LockTaken(c, s, t);
      HolderWantsMore(s, u);
      path := MutexPath(c, s, u);
      path := Further(c, s, t, path);
    }
  }

  lemma SlotHolderPath(c: Config, s: State, t: Tid) returns (path: seq<Tid>)
    requires ViewsOK(s) && MutexOK(c, s) && LocksOK(s) && t in s.pcs && HasSlot(s.pcs[t])
    ensures WaitsAlong(c, s, path) && path[0] == t && |path| <= 3
  {
    if s.pcs[t].WorkerRecording? {
      path := LockPath(c, s, t);
    } else {
      SlotHolderSteps(c, s, t);
      path := Here(c, s, t);
    }
  }

  lemma WithoutHolder(s: State, u: Tid)
    requires u in SlotHolders(s.pcs)
    ensures |SlotHolders(Without(s, u).pcs)| < |SlotHolders(s.pcs)|
  {
    assert SlotHolders(Without(s, u).pcs) == SlotHolders(s.pcs) - {u};
  }

  lemma SlotTaken(c: Config, s: State, t: Tid) returns (u: Tid)
    requires CountersOK(c, s) && c.processes >= 1 && t in s.pcs && WantsSlot(s.pcs[t]) && !CanStep(c, s, t)
    ensures Awaits(c, s, t, u) && HasSlot(s.pcs[u])
  {
    if |SlotHolders(s.pcs)| < c.processes {
      FreeSlotSteps(c, s, t);
    }
    u :| u in SlotHolders(s.pcs);
    WithoutHolder(s, u);
    FreeSlotSteps(c, Without(s, u), t);
  }

  /** Waiting for a process slot: a holder of one waits for a job lock at most. */
  lemma SlotPath(c: Config, s: State, t: Tid) returns (path: seq<Tid>)
    requires ViewsOK(s) && MutexOK(c, s) && LocksOK(s) && CountersOK(c, s) && c.processes >= 1
    requires t in s.pcs && WantsSlot(s.pcs[t])
    ensures WaitsAlong(c, s, path) && path[0] == t && |path| <= 4
  {
    if CanStep(c, s, t) {
      path := Here(c, s, t);
    } else {
      var u := SlotTaken(c, s, t);
      path := SlotHolderPath(c, s, u);
      path := Further(c, s, t, path);
    }
  }

  lemma BusyPath(c: Config, s: State, t: Tid) returns (path: seq<Tid>)
    requires Inv(c, s) && c.processes >= 1 && Busy(s, t) && !s.pcs[t].DeleteWaiting?
    ensures WaitsAlong(c, s, path) && path[0] == t && |path| <= 4
  {
    if WantsLock(s.pcs[t]) {
      path := LockPath(c, s, t);
    } else if WantsSlot(s.pcs[t]) {
      path := SlotPath(c, s, t);
    } else {
      path := MutexPath(c, s, t);
    }
  }

  lemma LeaseHolderBusy(s: State, id: JobId) returns (u: Tid)
    requires LeasesOK(s) && Leased(s.mem, id)
    ensures Busy(s, u) && !s.pcs[u].DeleteWaiting? && LeaseOf(s.pcs[u]) == Some(id)
  {
    assert |LeaseHolders(s.pcs, id)| > 0;
    u :| u in LeaseHolders(s.pcs, id);
  }

  lemma FreeLeaseSteps(c: Config, s: State, t: Tid)
    requires t in s.pcs && s.pcs[t].DeleteWaiting? && MutexFree(s) && !Leased(s.mem, s.pcs[t].id)
    ensures CanStep(c, s, t)
  {
    Does(c, s, Go(s, t, DeleteWanting(s.pcs[t].id)), t, Deletions(DeleteSeesRelease));
  }

  lemma LeaseMutexTaken(c: Config, s: State, t: Tid) returns (u: Tid)
    requires MutexOK(c, s) && t in s.pcs && s.pcs[t].DeleteWaiting? && !CanStep(c, s, t) && !Leased(s.mem, s.pcs[t].id)
    ensures Awaits(c, s, t, u) && s.pcs[u].StartSending?
  {
    if MutexFree(s) {
      FreeLeaseSteps(c, s, t);
    }
    u :| u in s.pcs && s.pcs[u].StartSending?;
    FreeLeaseSteps(c, Without(s, u), t);
  }

  /** Waiting for the leases on a job: every holder of one waits for a slot at most. */
  lemma LeasePath(c: Config, s: State, t: Tid) returns (path: seq<Tid>)
    requires Inv(c, s) && c.processes >= 1 && t in s.pcs && s.pcs[t].DeleteWaiting?
    ensures WaitsAlong(c, s, path) && path[0] == t && |path| <= 5
  {
    if CanStep(c, s, t) {
      path := Here(c, s, t);
    } else if Leased(s.mem, s.pcs[t].id) {
      var u := LeaseHolderBusy(s, s.pcs[t].id);
      path := BusyPath(c, s, u);
      path := Further(c, s, t, path);
    } else {
      var u := LeaseMutexTaken(c, s, t);
      SenderSteps(c, s, u);
      path := Here(c, s, u);
      path := Further(c, s, t, path);
    }
  }

  /** The engine never deadlocks: in every state of every run, whatever a busy thread
      waits for, and whatever that waits for, within four hands there is a thread that
      has a step without timing out.  In particular nobody waits in a circle for job
      locks, the mutex, process slots, leases or the queue. */
  lemma NeverStuck(c: Config, states: seq<State>, i: nat, t: Tid) returns (path: seq<Tid>)
    requires Run(c, states) && i < |states| && Busy(states[i], t)
    ensures WaitsAlong(c, states[i], path) && path[0] == t && |path| <= 5
  {
    RunKeeps(c, states, i);
    if states[i].pcs[t].DeleteWaiting? {
      path := LeasePath(c, states[i], t);
    } else {
      path := BusyPath(c, states[i], t);
    }
  }

  // ---------------------------------------------------------------- how long a job lock is held

  /** How many steps at most until a thread under a job lock lets go of it. */
  ghost function StepsLeft(pc: PC): nat {
    match pc
    case Unlocking(_, _) => 1
    case StartSending(_) => 2
    case StartLocked(_, _) => 3
    case CancelUpdate(_) => 2
    case CancelSignal(_) => 3
    case CancelLocked(_) => 4
    case DeleteSignal(_) => 2
    case DeleteLocked(_) => 3
    case Forgetting(_) => 2
    case DeleteRemoving(_) => 3
    case DeleteChecked(_) => 4
    case DeleteRelocked(_) => 5
    case CleanupRemoving(_) => 3
    case CleanupLoaded(_) => 4
    case CleanupLocked(_, _) => 5
    case RemoveEmptied(_) => 2
    case RemoveRollback(_, _, _) => 2
    case RemoveSaved(_, _, _) => 3
    case RemoveChecked(_, _, _) => 4
    case RemoveLoaded(_, _, _) => 5
    case RemoveLocked(_, _) => 6
    case LeaseLoaded(_, _) => 2
    case LeaseLocked(_, _) => 3
    case _ => 0
  }

  lemma LockedSteps(pc: PC)
    ensures LocksJob(pc) <==> StepsLeft(pc) > 0
    ensures StepsLeft(pc) <= 6 && (StepsLeft(pc) > 0 ==> HasJob(pc))
  {
  }

  /** One thread moves, and if it holds a job lock it comes nearer to unlocking. */
  ghost predicate Nearer(s: State, s': State, t: Tid) {
    && t in s.pcs && t in s'.pcs && s'.pcs == s.pcs[t := s'.pcs[t]]
    && (StepsLeft(s.pcs[t]) > 0 ==> NearerPC(s.pcs[t], s'.pcs[t]))
  }

  ghost predicate NearerPC(pc: PC, next: PC) {
    StepsLeft(next) < StepsLeft(pc) && (StepsLeft(next) > 0 ==> HasJob(pc) && HasJob(next) && next.id == pc.id)
  }

  lemma StartingNears(c: Config, s: State, s': State, t: Tid, a: Starting)
    requires StartingStep(c, s, s', t, a)
    ensures Nearer(s, s', t)
  {
  }

  lemma CancelingNears(c: Config, s: State, s': State, t: Tid, a: Canceling)
    requires CancelingStep(c, s, s', t, a)
    ensures Nearer(s, s', t)
  {
  }

  lemma DeletionNears(c: Config, s: State, s': State, t: Tid, a: Deletion)
    requires DeletionStep(c, s, s', t, a)
    ensures Nearer(s, s', t)
  {
  }

  lemma SweepNears(c: Config, s: State, s': State, t: Tid, a: Sweep)
    requires SweepStep(c, s, s', t, a)
    ensures Nearer(s, s', t)
  {
  }

  lemma RemoverReadsNear(c: Config, s: State, s': State, t: Tid, a: FileRemoval)
    requires FileRemovalStep(c, s, s', t, a) && (a.BeginRemove? || a.RemoveLoad? || a.RemoveCheck?)
    ensures Nearer(s, s', t)
  {
  }

  lemma RemoverSavesNear(c: Config, s: State, s': State, t: Tid, a: FileRemoval)
    requires FileRemovalStep(c, s, s', t, a) && (a.RemoveSave? || a.RemoveRestore?)
    ensures Nearer(s, s', t)
  {
  }

  lemma RemoverUnlinksNear(c: Config, s: State, s': State, t: Tid, a: FileRemoval)
    requires FileRemovalStep(c, s, s', t, a) && (a.RemoveInput? || a.RemoveJob?)
    ensures Nearer(s, s', t)
  {
  }

  lemma FileRemovalNears(c: Config, s: State, s': State, t: Tid, a: FileRemoval)
    requires FileRemovalStep(c, s, s', t, a)
    ensures Nearer(s, s', t)
  {
    if a.BeginRemove? || a.RemoveLoad? || a.RemoveCheck? {
      RemoverReadsNear(c, s, s', t, a);
    } else if a.RemoveSave? || a.RemoveRestore? {
      RemoverSavesNear(c, s, s', t, a);
    } else {
      RemoverUnlinksNear(c, s, s', t, a);
    }
  }

  lemma LeasingNears(c: Config, s: State, s': State, t: Tid, a: Leasing)
    requires LeasingStep(c, s, s', t, a)
    ensures Nearer(s, s', t)
  {
  }

  ghost predicate Probes(a: Upload) {
    a.ProbeWithoutSlot? || a.ProbeTakesSlot? || a.ProbeFails? || a.ProbeSucceeds?
  }

  lemma ProbeNears(c: Config, s: State, s': State, t: Tid, a: Upload)
    requires UploadStep(c, s, s', t, a) && Probes(a)
    ensures Nearer(s, s', t)
  {
  }

  ghost predicate Counts(a: Upload) {
    a.Reserve? || a.Create? || a.CreateFails? || a.ReleaseUpload? || a.LeaveGroup?
  }

  lemma CountNears(c: Config, s: State, s': State, t: Tid, a: Upload)
    requires UploadStep(c, s, s', t, a) && Counts(a)
    ensures Nearer(s, s', t)
  {
  }

  lemma IntakeNears(c: Config, s: State, s': State, t: Tid, a: Upload)
    requires UploadStep(c, s, s', t, a) && !Probes(a) && !Counts(a)
    ensures Nearer(s, s', t)
  {
  }

  lemma UploadNears(c: Config, s: State, s': State, t: Tid, a: Upload)
    requires UploadStep(c, s, s', t, a)
    ensures Nearer(s, s', t)
  {
    if Probes(a) {
      ProbeNears(c, s, s', t, a);
    } else if Counts(a) {
      CountNears(c, s, s', t, a);
    } else {
      IntakeNears(c, s, s', t, a);
    }
  }

  lemma ShutdownNears(c: Config, s: State, s': State, t: Tid, a: Shutdown)
    requires ShutdownStep(c, s, s', t, a)
    ensures Nearer(s, s', t)
  {
  }

  lemma PoolNears(c: Config, s: State, s': State, t: Tid, a: Pool)
    requires PoolStep(c, s, s', t, a)
    ensures Nearer(s, s', t)
  {
  }

  ghost predicate Saves(a: Conversion) {
    a.Begin? || a.Record? || a.Finalize?
  }

  lemma SavingNears(c: Config, s: State, s': State, t: Tid, a: Conversion)
    requires ConversionStep(c, s, s', t, a) && Saves(a)
    ensures Nearer(s, s', t)
  {
  }

  ghost predicate Slots(a: Conversion) {
    a.SlotCanceled? || a.SlotFails? || a.SlotConverts? || a.ConvertReturns? || a.ReleaseSlot?
  }

  lemma SlotNears(c: Config, s: State, s': State, t: Tid, a: Conversion)
    requires ConversionStep(c, s, s', t, a) && Slots(a)
    ensures Nearer(s, s', t)
  {
  }

  lemma LoopNears(c: Config, s: State, s': State, t: Tid, a: Conversion)
    requires ConversionStep(c, s, s', t, a) && !Saves(a) && !Slots(a)
    ensures Nearer(s, s', t)
  {
  }

  lemma ConversionNears(c: Config, s: State, s': State, t: Tid, a: Conversion)
    requires ConversionStep(c, s, s', t, a)
    ensures Nearer(s, s', t)
  {
    if Saves(a) {
      SavingNears(c, s, s', t, a);
    } else if Slots(a) {
      SlotNears(c, s, s', t, a);
    } else {
      LoopNears(c, s, s', t, a);
    }
  }

  lemma StepNears(c: Config, s: State, s': State, t: Tid, a: Action)
    requires Step(c, s, s', t, a)
    ensures Nearer(s, s', t)
  {
    match a
    case Startings(x) => StartingNears(c, s, s', t, x);
    case Cancelings(x) => CancelingNears(c, s, s', t, x);
    case Deletions(x) => DeletionNears(c, s, s', t, x);
    case Sweeps(x) => SweepNears(c, s, s', t, x);
    case FileRemovals(x) => FileRemovalNears(c, s, s', t, x);
    case Leasings(x) => LeasingNears(c, s, s', t, x);
    case Uploads(x) => UploadNears(c, s, s', t, x);
    case Shutdowns(x) => ShutdownNears(c, s, s', t, x);
    case Pools(x) => PoolNears(c, s, s', t, x);
    case Conversions(x) => ConversionNears(c, s, s', t, x);
  }

  /** No job lock is held for long: every step of its holder brings the unlocking
      nearer, at most six of them, and no other step moves the holder. */
  lemma LocksAreShort(c: Config, s: State, s': State, t: Tid, u: Tid, a: Action)
    requires Step(c, s, s', t, a) && u in s.pcs && LocksJob(s.pcs[u])
    ensures u in s'.pcs
    ensures if u == t then StepsLeft(s'.pcs[u]) < StepsLeft(s.pcs[u]) <= 6 else s'.pcs[u] == s.pcs[u]
    ensures LockOf(s'.pcs[u]) == LockOf(s.pcs[u]) || StepsLeft(s'.pcs[u]) == 0
  {
    StepNears(c, s, s', t, a);
    LockedSteps(s.pcs[u]);
    LockedSteps(s'.pcs[u]);
  }
}
