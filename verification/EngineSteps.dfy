/** Every step of the engine has the shape that keeps the invariant, and so every
    state of every run satisfies it. */
module EngineSteps {
  import opened Options
  import opened Profiles
  import opened Manifests
  import opened Engine
  import opened EngineInvariants
  import opened EngineMoves

  // ---------------------------------------------------------------- outcomes several steps share

  /** A request takes a free job lock. */
  lemma BeginStep(c: Config, s: State, s': State, t: Tid)
    requires Facts(c, s, t) && t in s'.pcs && s' == Go(s, t, s'.pcs[t])
    requires BeginsRequest(s, s.pcs[t], s'.pcs[t])
    ensures StepShape(c, s, s', t)
  {
    BeginFits(c, s, s.pcs[t], s'.pcs[t]);
    GoStep(c, s, s', t, s'.pcs[t]);
  }

  /** A deletion waits for leases to go, or relocks. */
  lemma WaitStep(c: Config, s: State, s': State, t: Tid)
    requires Facts(c, s, t) && t in s'.pcs && s' == Go(s, t, s'.pcs[t])
    requires Waits(s, s.pcs[t], s'.pcs[t])
    ensures StepShape(c, s, s', t)
  {
    WaitFits(c, s, s.pcs[t], s'.pcs[t]);
    GoStep(c, s, s', t, s'.pcs[t]);
  }

  /** A thread comes or goes without a job. */
  lemma EntryStep(c: Config, s: State, s': State, t: Tid)
    requires Facts(c, s, t) && t in s'.pcs && s' == Go(s, t, s'.pcs[t])
    requires Enters(s, s.pcs[t], s'.pcs[t])
    ensures StepShape(c, s, s', t)
  {
    EntryFits(c, s, s.pcs[t], s'.pcs[t]);
    GoStep(c, s, s', t, s'.pcs[t]);
  }

  /** An upload receives and probes. */
  lemma UploadingStep(c: Config, s: State, s': State, t: Tid)
    requires Facts(c, s, t) && t in s'.pcs && s' == Go(s, t, s'.pcs[t])
    requires KeepsUploading(c, s, s.pcs[t], s'.pcs[t])
    ensures StepShape(c, s, s', t)
  {
    UploadFits(c, s, s.pcs[t], s'.pcs[t]);
    GoStep(c, s, s', t, s'.pcs[t]);
  }

  /** A worker goes on with its claimed job. */
  lemma WorksOnStep(c: Config, s: State, s': State, t: Tid)
    requires Facts(c, s, t) && t in s'.pcs && s' == Go(s, t, s'.pcs[t])
    requires KeepsWorking(c, s, s.pcs[t], s'.pcs[t])
    ensures StepShape(c, s, s', t)
  {
    WorksOnFits(c, s, s.pcs[t], s'.pcs[t]);
    GoStep(c, s, s', t, s'.pcs[t]);
  }

  /** Giving up a request under its job lock. */
  lemma BackOff(c: Config, s: State, s': State, t: Tid)
    requires Facts(c, s, t) && Plain(s.pcs[t]) && LocksJob(s.pcs[t])
    requires s' == Go(s, t, Unlocking(s.pcs[t].id, ToIdle))
    ensures StepShape(c, s, s', t)
  {
    BackOffFits(c, s, s.pcs[t], s'.pcs[t]);
    GoStep(c, s, s', t, s'.pcs[t]);
  }

  /** A thread that saw no lease removes the directory. */
  lemma Unlinks(c: Config, s: State, s': State, t: Tid, next: PC)
    requires Facts(c, s, t) && Quiet(s.pcs[t]) && !s.pcs[t].Forgetting?
    requires next == Forgetting(s.pcs[t].id) || next == Unlocking(s.pcs[t].id, ToIdle)
    requires s' == GoMem(s, t, next, Unlink(s.mem, s.pcs[t].id))
    ensures StepShape(c, s, s', t)
  {
    PlainRoles(s.pcs[t]);
    PlainRoles(next);
    ContentAccounts(c, s, s', t, next);
    ContentKept(c, s, s', t, next);
  }

  lemma GivesUpAccounts(c: Config, s: State, s': State, t: Tid, next: PC)
    requires Facts(c, s, t) && (s.pcs[t].WorkerLeased? || s.pcs[t].WorkerFinalizing?)
    requires next == WorkerReleasing(s.pcs[t].id, s.pcs[t].ctl)
    requires s' == Go(s, t, next).(dropped := Drop(s, s.pcs[t].id))
    ensures RolesFit(c, s, s.pcs[t], next) && OnlyContent(s, s', t, next)
    ensures Moves(s, s', t) && AccountShape(c, s, s', t) && ViewOK(s', next)
  {
    assert JobFacts(s, s.pcs[t].id);
    WorksThroughFits(c, s, s.pcs[t], next);
    ContentAccounts(c, s, s', t, next);
  }

  /** A worker leaves its job as it is, recording the failure if there was one. */
  lemma GivesUp(c: Config, s: State, s': State, t: Tid, next: PC)
    requires Facts(c, s, t) && (s.pcs[t].WorkerLeased? || s.pcs[t].WorkerFinalizing?)
    requires next == WorkerReleasing(s.pcs[t].id, s.pcs[t].ctl)
    requires s' == Go(s, t, next).(dropped := Drop(s, s.pcs[t].id))
    ensures StepShape(c, s, s', t)
  {
    assert JobFacts(s, s.pcs[t].id);
    GivesUpAccounts(c, s, s', t, next);
    AfterRoles(next);
    if s.pcs[t].WorkerLeased? {
      BeforeRoles(s.pcs[t]);
    } else {
      ClaimRoles(s.pcs[t]);
    }
    ContentKept(c, s, s', t, next);
  }

  lemma RemovalUndone(m: Manifest, i: nat)
    requires DistinctIds(m.files) && i < |m.files|
    ensures Absorbs(m, m) && Absorbs(WithoutIndex(m, i), m)
  {
    var rest := WithoutFile(m.files, i);
    forall j | 0 <= j < |rest| ensures rest[j] == m.files[if j < i then j else j + 1] {}
  }

  // ---------------------------------------------------------------- Start

  lemma StartBodyAccounts(c: Config, s: State, s': State, t: Tid, a: Starting)
    requires a.StartBody? && StartingStep(c, s, s', t, a) && Facts(c, s, t)
    requires StartSection(s.mem, s.pcs[t].id, s.pcs[t].selections, c.queueDepth, a.io).Ok?
    ensures Moves(s, s', t) && AccountShape(c, s, s', t)
  {
    assert Moves(s, s', t);
    assert JobFacts(s, s.pcs[t].id);
    PlainRoles(s.pcs[t]);
    BeforeRoles(s'.pcs[t]);
  }

  lemma StartBodyContent(c: Config, s: State, s': State, t: Tid, a: Starting)
    requires a.StartBody? && StartingStep(c, s, s', t, a) && Facts(c, s, t)
    requires StartSection(s.mem, s.pcs[t].id, s.pcs[t].selections, c.queueDepth, a.io).Ok?
    ensures Moves(s, s', t) && ContentShape(s, s', t)
  {
    assert Moves(s, s', t);
    assert JobFacts(s, s.pcs[t].id);
    PlainRoles(s.pcs[t]);
    BeforeRoles(s'.pcs[t]);
    StartKeeps(s.mem.store[s.pcs[t].id], s.pcs[t].selections, |s.mem.queue| != c.queueDepth);
  }

  lemma StartBodyJob(c: Config, s: State, s': State, t: Tid, a: Starting)
    requires a.StartBody? && StartingStep(c, s, s', t, a) && Facts(c, s, t)
    requires StartSection(s.mem, s.pcs[t].id, s.pcs[t].selections, c.queueDepth, a.io).Ok?
    ensures Moves(s, s', t) && JobShape(s, s', t)
  {
    assert Moves(s, s', t);
    assert JobFacts(s, s.pcs[t].id);
    PlainRoles(s.pcs[t]);
    BeforeRoles(s'.pcs[t]);
    StartKeeps(s.mem.store[s.pcs[t].id], s.pcs[t].selections, |s.mem.queue| != c.queueDepth);
  }

  lemma StartBodyShape(c: Config, s: State, s': State, t: Tid, a: Starting)
    requires a.StartBody? && StartingStep(c, s, s', t, a) && Facts(c, s, t)
    ensures StepShape(c, s, s', t)
  {
    if StartSection(s.mem, s.pcs[t].id, s.pcs[t].selections, c.queueDepth, a.io).Ok? {
      StartBodyAccounts(c, s, s', t, a);
      StartBodyContent(c, s, s', t, a);
      StartBodyJob(c, s, s', t, a);
    } else {
      BackOff(c, s, s', t);
    }
  }

  lemma StartSendShape(c: Config, s: State, s': State, t: Tid, a: Starting)
    requires a.StartSend? && StartingStep(c, s, s', t, a) && Facts(c, s, t)
    ensures StepShape(c, s, s', t)
  {
    var pc, next := s.pcs[t], s'.pcs[t];
    assert JobFacts(s, pc.id);
    BeforeRoles(pc);
    PlainRoles(next);
  }

  lemma StartingStepShape(c: Config, s: State, s': State, t: Tid, a: Starting)
    requires StartingStep(c, s, s', t, a) && Facts(c, s, t)
    ensures StepShape(c, s, s', t)
  {
    match a
    case BeginStart(_, _) => BeginStep(c, s, s', t);
    case StartBody(_) => StartBodyShape(c, s, s', t, a);
    case StartSend => StartSendShape(c, s, s', t, a);
  }

  // ---------------------------------------------------------------- Cancel

  lemma CancelLoadShape(c: Config, s: State, s': State, t: Tid, a: Canceling)
    requires a.CancelLoad? && CancelingStep(c, s, s', t, a) && Facts(c, s, t)
    ensures StepShape(c, s, s', t)
  {
    var pc, next := s.pcs[t], s'.pcs[t];
    assert JobFacts(s, pc.id);
    if next.Unlocking? {
      BackOffFits(c, s, pc, next);
    } else {
      ProceedsFits(c, s, pc, next);
    }
    GoStep(c, s, s', t, next);
  }

  lemma CancelNotifyShape(c: Config, s: State, s': State, t: Tid, a: Canceling)
    requires a.CancelNotify? && CancelingStep(c, s, s', t, a) && Facts(c, s, t)
    ensures StepShape(c, s, s', t)
  {
    var pc, next := s.pcs[t], s'.pcs[t];
    ProceedsFits(c, s, pc, next);
    SignalStep(c, s, s', t, next);
  }

  lemma CancelSaves(c: Config, s: State, s': State, t: Tid, a: Canceling)
    requires a.CancelSave? && CancelingStep(c, s, s', t, a) && Facts(c, s, t)
    requires s.pcs[t].id in s.mem.store && a.io.Works?
    ensures StepShape(c, s, s', t)
  {
    var pc, next := s.pcs[t], s'.pcs[t];
    assert JobFacts(s, pc.id);
    CancelKeeps(s.mem.store[pc.id], a.now);
    BackOffFits(c, s, pc, next);
    PlainRoles(pc);
    PlainRoles(next);
    SaveStep(c, s, s', t, next, CancelManifest(s.mem.store[pc.id], a.now));
  }

  lemma CancelSaveShape(c: Config, s: State, s': State, t: Tid, a: Canceling)
    requires a.CancelSave? && CancelingStep(c, s, s', t, a) && Facts(c, s, t)
    ensures StepShape(c, s, s', t)
  {
    if s.pcs[t].id in s.mem.store && a.io.Works? {
      CancelSaves(c, s, s', t, a);
    } else {
      BackOff(c, s, s', t);
    }
  }

  lemma CancelingStepShape(c: Config, s: State, s': State, t: Tid, a: Canceling)
    requires CancelingStep(c, s, s', t, a) && Facts(c, s, t)
    ensures StepShape(c, s, s', t)
  {
    match a
    case BeginCancel(_) => BeginStep(c, s, s', t);
    case CancelLoad(_) => CancelLoadShape(c, s, s', t, a);
    case CancelNotify => CancelNotifyShape(c, s, s', t, a);
    case CancelSave(_, _) => CancelSaveShape(c, s, s', t, a);
  }

  // ---------------------------------------------------------------- Delete

  lemma DeleteLoadShape(c: Config, s: State, s': State, t: Tid, a: Deletion)
    requires a.DeleteLoad? && DeletionStep(c, s, s', t, a) && Facts(c, s, t)
    ensures StepShape(c, s, s', t)
  {
    var pc, next := s.pcs[t], s'.pcs[t];
    assert JobFacts(s, pc.id);
    if next.Unlocking? {
      BackOffFits(c, s, pc, next);
    } else {
      ProceedsFits(c, s, pc, next);
    }
    GoStep(c, s, s', t, next);
  }

  lemma DeleteNotifyShape(c: Config, s: State, s': State, t: Tid, a: Deletion)
    requires a.DeleteNotify? && DeletionStep(c, s, s', t, a) && Facts(c, s, t)
    ensures StepShape(c, s, s', t)
  {
    var pc, next := s.pcs[t], s'.pcs[t];
    ProceedsFits(c, s, pc, next);
    SignalStep(c, s, s', t, next);
  }

  lemma DeleteCheckShape(c: Config, s: State, s': State, t: Tid, a: Deletion)
    requires a.DeleteCheck? && DeletionStep(c, s, s', t, a) && Facts(c, s, t)
    ensures StepShape(c, s, s', t)
  {
    var pc, next := s.pcs[t], s'.pcs[t];
    if next.Unlocking? {
      BackOffFits(c, s, pc, next);
    } else {
      ProceedsQuietlyFits(c, s, pc, next);
    }
    GoStep(c, s, s', t, next);
  }

  lemma DeleteNotifyAgainShape(c: Config, s: State, s': State, t: Tid, a: Deletion)
    requires a.DeleteNotifyAgain? && DeletionStep(c, s, s', t, a) && Facts(c, s, t)
    ensures StepShape(c, s, s', t)
  {
    var pc, next := s.pcs[t], s'.pcs[t];
    ProceedsQuietlyFits(c, s, pc, next);
    SignalStep(c, s, s', t, next);
  }

  lemma DeleteUnlinkShape(c: Config, s: State, s': State, t: Tid, a: Deletion)
    requires a.DeleteUnlink? && DeletionStep(c, s, s', t, a) && Facts(c, s, t)
    ensures StepShape(c, s, s', t)
  {
    if s.pcs[t].id !in s.mem.store || a.removal.FailedKept? {
      BackOff(c, s, s', t);
    } else {
      Unlinks(c, s, s', t, s'.pcs[t]);
    }
  }

  lemma ForgetShape(c: Config, s: State, s': State, t: Tid, a: Deletion)
    requires a.Forget? && DeletionStep(c, s, s', t, a) && Facts(c, s, t)
    ensures StepShape(c, s, s', t)
  {
    var pc, next := s.pcs[t], s'.pcs[t];
    assert JobFacts(s, pc.id);
    PlainRoles(pc);
    PlainRoles(next);
  }

  lemma DeletionStepShape(c: Config, s: State, s': State, t: Tid, a: Deletion)
    requires DeletionStep(c, s, s', t, a) && Facts(c, s, t)
    ensures StepShape(c, s, s', t)
  {
    match a
    case BeginDelete(_) => BeginStep(c, s, s', t);
    case DeleteLoad(_) => DeleteLoadShape(c, s, s', t, a);
    case DeleteNotify => DeleteNotifyShape(c, s, s', t, a);
    case DeleteGiveUp => WaitStep(c, s, s', t);
    case DeleteSeesRelease => WaitStep(c, s, s', t);
    case DeleteRelock => WaitStep(c, s, s', t);
    case DeleteCheck => DeleteCheckShape(c, s, s', t, a);
    case DeleteNotifyAgain => DeleteNotifyAgainShape(c, s, s', t, a);
    case DeleteUnlink(_) => DeleteUnlinkShape(c, s, s', t, a);
    case Forget => ForgetShape(c, s, s', t, a);
  }

  // ---------------------------------------------------------------- the expiry sweep

  lemma CleanupLoadShape(c: Config, s: State, s': State, t: Tid, a: Sweep)
    requires a.CleanupLoad? && SweepStep(c, s, s', t, a) && Facts(c, s, t)
    ensures StepShape(c, s, s', t)
  {
    var pc, next := s.pcs[t], s'.pcs[t];
    assert JobFacts(s, pc.id);
    if next.Unlocking? {
      BackOffFits(c, s, pc, next);
    } else {
      ProceedsFits(c, s, pc, next);
    }
    GoStep(c, s, s', t, next);
  }

  lemma CleanupCheckShape(c: Config, s: State, s': State, t: Tid, a: Sweep)
    requires a.CleanupCheck? && SweepStep(c, s, s', t, a) && Facts(c, s, t)
    ensures StepShape(c, s, s', t)
  {
    var pc, next := s.pcs[t], s'.pcs[t];
    if next.Unlocking? {
      BackOffFits(c, s, pc, next);
    } else {
      ProceedsQuietlyFits(c, s, pc, next);
    }
    GoStep(c, s, s', t, next);
  }

  lemma CleanupSkips(c: Config, s: State, s': State, t: Tid, a: Sweep)
    requires a.CleanupUnlink? && SweepStep(c, s, s', t, a) && Facts(c, s, t)
    requires s.pcs[t].id !in s.mem.store
    ensures StepShape(c, s, s', t)
  {
    var pc, next := s.pcs[t], s'.pcs[t];
    ProceedsQuietlyFits(c, s, pc, next);
    GoStep(c, s, s', t, next);
  }

  lemma CleanupUnlinkShape(c: Config, s: State, s': State, t: Tid, a: Sweep)
    requires a.CleanupUnlink? && SweepStep(c, s, s', t, a) && Facts(c, s, t)
    ensures StepShape(c, s, s', t)
  {
    if s.pcs[t].id !in s.mem.store {
      CleanupSkips(c, s, s', t, a);
    } else if a.removal.FailedKept? {
      BackOff(c, s, s', t);
    } else {
      Unlinks(c, s, s', t, s'.pcs[t]);
    }
  }

  lemma SweepStepShape(c: Config, s: State, s': State, t: Tid, a: Sweep)
    requires SweepStep(c, s, s', t, a) && Facts(c, s, t)
    ensures StepShape(c, s, s', t)
  {
    match a
    case BeginCleanup(_, _) => BeginStep(c, s, s', t);
    case CleanupLoad(_) => CleanupLoadShape(c, s, s', t, a);
    case CleanupCheck => CleanupCheckShape(c, s, s', t, a);
    case CleanupUnlink(_) => CleanupUnlinkShape(c, s, s', t, a);
  }

  // ---------------------------------------------------------------- RemoveFile

  lemma RemoveLoadShape(c: Config, s: State, s': State, t: Tid, a: FileRemoval)
    requires a.RemoveLoad? && FileRemovalStep(c, s, s', t, a) && Facts(c, s, t)
    ensures StepShape(c, s, s', t)
  {
    var pc, next := s.pcs[t], s'.pcs[t];
    assert JobFacts(s, pc.id);
    if next.Unlocking? {
      BackOffFits(c, s, pc, next);
    } else {
      ProceedsFits(c, s, pc, next);
    }
    GoStep(c, s, s', t, next);
  }

  lemma RemoveCheckShape(c: Config, s: State, s': State, t: Tid, a: FileRemoval)
    requires a.RemoveCheck? && FileRemovalStep(c, s, s', t, a) && Facts(c, s, t)
    ensures StepShape(c, s, s', t)
  {
    var pc, next := s.pcs[t], s'.pcs[t];
    if next.Unlocking? {
      BackOffFits(c, s, pc, next);
    } else {
      ProceedsQuietlyFits(c, s, pc, next);
    }
    GoStep(c, s, s', t, next);
  }

  lemma RemoveSaves(c: Config, s: State, s': State, t: Tid, a: FileRemoval)
    requires a.RemoveSave? && FileRemovalStep(c, s, s', t, a) && Facts(c, s, t)
    requires s.pcs[t].id in s.mem.store && a.io.Works?
    ensures StepShape(c, s, s', t)
  {
    var pc, next := s.pcs[t], s'.pcs[t];
    assert JobFacts(s, pc.id);
    RemovalKeeps(pc.was, pc.index);
    ProceedsQuietlyFits(c, s, pc, next);
    PlainRoles(pc);
    PlainRoles(next);
    SaveStep(c, s, s', t, next, WithoutIndex(pc.was, pc.index));
  }

  lemma RemoveSaveFails(c: Config, s: State, s': State, t: Tid, a: FileRemoval)
    requires a.RemoveSave? && FileRemovalStep(c, s, s', t, a) && Facts(c, s, t)
    requires !(s.pcs[t].id in s.mem.store && a.io.Works?)
    ensures StepShape(c, s, s', t)
  {
    var pc, next := s.pcs[t], s'.pcs[t];
    ProceedsQuietlyFits(c, s, pc, next);
    GoStep(c, s, s', t, next);
  }

  lemma RemoveSaveShape(c: Config, s: State, s': State, t: Tid, a: FileRemoval)
    requires a.RemoveSave? && FileRemovalStep(c, s, s', t, a) && Facts(c, s, t)
    ensures StepShape(c, s, s', t)
  {
    if s.pcs[t].id in s.mem.store && a.io.Works? {
      RemoveSaves(c, s, s', t, a);
    } else {
      RemoveSaveFails(c, s, s', t, a);
    }
  }

  lemma RemoveInputShape(c: Config, s: State, s': State, t: Tid, a: FileRemoval)
    requires a.RemoveInput? && FileRemovalStep(c, s, s', t, a) && Facts(c, s, t)
    ensures StepShape(c, s, s', t)
  {
    var pc, next := s.pcs[t], s'.pcs[t];
    assert JobFacts(s, pc.id);
    if next.Unlocking? {
      BackOffFits(c, s, pc, next);
    } else {
      ProceedsQuietlyFits(c, s, pc, next);
    }
    GoStep(c, s, s', t, next);
  }

  lemma RemoveRestores(c: Config, s: State, s': State, t: Tid, a: FileRemoval)
    requires a.RemoveRestore? && FileRemovalStep(c, s, s', t, a) && Facts(c, s, t)
    requires s.pcs[t].id in s.mem.store && a.io.Works?
    ensures StepShape(c, s, s', t)
  {
    var pc, next := s.pcs[t], s'.pcs[t];
    assert JobFacts(s, pc.id);
    RemovalUndone(pc.was, pc.index);
    BackOffFits(c, s, pc, next);
    PlainRoles(pc);
    PlainRoles(next);
    SaveStep(c, s, s', t, next, pc.was);
  }

  lemma RemoveRestoreShape(c: Config, s: State, s': State, t: Tid, a: FileRemoval)
    requires a.RemoveRestore? && FileRemovalStep(c, s, s', t, a) && Facts(c, s, t)
    ensures StepShape(c, s, s', t)
  {
    if s.pcs[t].id in s.mem.store && a.io.Works? {
      RemoveRestores(c, s, s', t, a);
    } else {
      BackOff(c, s, s', t);
    }
  }

  lemma RemoveJobShape(c: Config, s: State, s': State, t: Tid, a: FileRemoval)
    requires a.RemoveJob? && FileRemovalStep(c, s, s', t, a) && Facts(c, s, t)
    ensures StepShape(c, s, s', t)
  {
    if a.removal.FailedKept? {
      BackOff(c, s, s', t);
    } else {
      Unlinks(c, s, s', t, s'.pcs[t]);
    }
  }

  lemma FileRemovalStepShape(c: Config, s: State, s': State, t: Tid, a: FileRemoval)
    requires FileRemovalStep(c, s, s', t, a) && Facts(c, s, t)
    ensures StepShape(c, s, s', t)
  {
    match a
    case BeginRemove(_, _) => BeginStep(c, s, s', t);
    case RemoveLoad(_) => RemoveLoadShape(c, s, s', t, a);
    case RemoveCheck => RemoveCheckShape(c, s, s', t, a);
    case RemoveSave(_) => RemoveSaveShape(c, s, s', t, a);
    case RemoveInput(_) => RemoveInputShape(c, s, s', t, a);
    case RemoveRestore(_) => RemoveRestoreShape(c, s, s', t, a);
    case RemoveJob(_) => RemoveJobShape(c, s, s', t, a);
  }

  // ---------------------------------------------------------------- Lease, Unlock and downloads

  lemma LeaseLoadDrops(c: Config, s: State, s': State, t: Tid, a: Leasing)
    requires a.LeaseLoad? && LeasingStep(c, s, s', t, a) && Facts(c, s, t)
    requires s.pcs[t].use.Work? && (s.pcs[t].id !in s.mem.store || a.io.ReadFails?)
    ensures StepShape(c, s, s', t)
  {
    var pc, next := s.pcs[t], s'.pcs[t];
    assert JobFacts(s, pc.id);
    WorkerLeaseFits(c, s, pc, next);
    BeforeRoles(pc);
    AfterRoles(next);
    ContentAccounts(c, s, s', t, next);
    ContentKept(c, s, s', t, next);
  }

  lemma LeaseLoadFinds(c: Config, s: State, s': State, t: Tid, a: Leasing)
    requires a.LeaseLoad? && LeasingStep(c, s, s', t, a) && Facts(c, s, t)
    requires s.pcs[t].id in s.mem.store && !a.io.ReadFails?
    ensures StepShape(c, s, s', t)
  {
    var pc, next := s.pcs[t], s'.pcs[t];
    WorkerLeaseFits(c, s, pc, next);
    GoStep(c, s, s', t, next);
  }

  lemma LeaseLoadShape(c: Config, s: State, s': State, t: Tid, a: Leasing)
    requires a.LeaseLoad? && LeasingStep(c, s, s', t, a) && Facts(c, s, t)
    ensures StepShape(c, s, s', t)
  {
    if s.pcs[t].id in s.mem.store && !a.io.ReadFails? {
      LeaseLoadFinds(c, s, s', t, a);
    } else if s.pcs[t].use.Download? {
      BackOff(c, s, s', t);
    } else {
      LeaseLoadDrops(c, s, s', t, a);
    }
  }

  lemma LeaseForWork(c: Config, s: State, s': State, t: Tid, a: Leasing)
    requires a.LeaseCountUp? && LeasingStep(c, s, s', t, a) && Facts(c, s, t) && s.pcs[t].use.Work?
    ensures StepShape(c, s, s', t)
  {
    var pc, next := s.pcs[t], s'.pcs[t];
    assert JobFacts(s, pc.id);
    BeforeRoles(pc);
    BeforeRoles(next);
    QuietStep(c, s, s', t, next);
  }

  lemma LeaseForDownload(c: Config, s: State, s': State, t: Tid, a: Leasing)
    requires a.LeaseCountUp? && LeasingStep(c, s, s', t, a) && Facts(c, s, t) && s.pcs[t].use.Download?
    ensures StepShape(c, s, s', t)
  {
    var pc, next := s.pcs[t], s'.pcs[t];
    assert JobFacts(s, pc.id);
    PlainRoles(pc);
    QuietStep(c, s, s', t, next);
  }

  lemma LeaseCountUpShape(c: Config, s: State, s': State, t: Tid, a: Leasing)
    requires a.LeaseCountUp? && LeasingStep(c, s, s', t, a) && Facts(c, s, t)
    ensures StepShape(c, s, s', t)
  {
    if s.pcs[t].use.Work? {
      LeaseForWork(c, s, s', t, a);
    } else {
      LeaseForDownload(c, s, s', t, a);
    }
  }

  lemma UnlockShape(c: Config, s: State, s': State, t: Tid, a: Leasing)
    requires a.Unlock? && LeasingStep(c, s, s', t, a) && Facts(c, s, t)
    ensures StepShape(c, s, s', t)
  {
    var pc, next := s.pcs[t], s'.pcs[t];
    UnlockFits(c, s, pc, next);
    GoStep(c, s, s', t, next);
  }

  lemma ReleaseDownloadShape(c: Config, s: State, s': State, t: Tid, a: Leasing)
    requires a.ReleaseDownload? && LeasingStep(c, s, s', t, a) && Facts(c, s, t)
    ensures StepShape(c, s, s', t)
  {
    var pc, next := s.pcs[t], s'.pcs[t];
    JoblessRoles(next);
    QuietStep(c, s, s', t, next);
  }

  lemma LeasingStepShape(c: Config, s: State, s': State, t: Tid, a: Leasing)
    requires LeasingStep(c, s, s', t, a) && Facts(c, s, t)
    ensures StepShape(c, s, s', t)
  {
    match a
    case BeginLease(_) => BeginStep(c, s, s', t);
    case LeaseLoad(_) => LeaseLoadShape(c, s, s', t, a);
    case LeaseCountUp => LeaseCountUpShape(c, s, s', t, a);
    case Unlock => UnlockShape(c, s, s', t, a);
    case ReleaseDownload => ReleaseDownloadShape(c, s, s', t, a);
  }

  // ---------------------------------------------------------------- uploads

  lemma CreateShape(c: Config, s: State, s': State, t: Tid, a: Upload)
    requires a.Create? && UploadStep(c, s, s', t, a) && Facts(c, s, t)
    ensures StepShape(c, s, s', t)
  {
    var pc, next := s.pcs[t], s'.pcs[t];
    assert JobFacts(s, next.id);
    JoblessRoles(pc);
    UploadRoles(next);
  }

  lemma ReceivingShape(c: Config, s: State, s': State, t: Tid, a: Upload)
    requires a.ReceiveDone? || a.ReceiveFails? || a.ProbeTakesSlot?
    requires UploadStep(c, s, s', t, a) && Facts(c, s, t)
    ensures StepShape(c, s, s', t)
  {
    UploadingStep(c, s, s', t);
  }

  /** Every file is probed once, with or without a process slot. */
  lemma ProbingShape(c: Config, s: State, s': State, t: Tid, a: Upload)
    requires a.ProbeWithoutSlot? || a.ProbeFails? || a.ProbeSucceeds?
    requires UploadStep(c, s, s', t, a) && Facts(c, s, t)
    ensures StepShape(c, s, s', t)
  {
    UploadingStep(c, s, s', t);
  }

  lemma MergedJob(c: Config, s: State, s': State, t: Tid, a: Upload)
    requires a.Merge? && UploadStep(c, s, s', t, a) && Facts(c, s, t)
    requires s.pcs[t].id in s.mem.store && a.io.Works?
    ensures var pc := s.pcs[t]; var m := MergeManifest(s.mem.store[pc.id], pc.files, SumSizes(pc.files), a.now);
      && JobOK(s', pc.id)
      && (m != s.mem.store[pc.id] ==> Rewrites(s, pc, pc.id, s.mem.store[pc.id], m) && Absorbs(s.mem.store[pc.id], m))
  {
    var pc := s.pcs[t];
    assert JobFacts(s, pc.id);
    MergeKeeps(s.mem.store[pc.id], pc.files, a.now);
    UploadRoles(pc);
  }

  lemma Merges(c: Config, s: State, s': State, t: Tid, a: Upload)
    requires a.Merge? && UploadStep(c, s, s', t, a) && Facts(c, s, t)
    requires s.pcs[t].id in s.mem.store && a.io.Works?
    ensures StepShape(c, s, s', t)
  {
    var pc, next := s.pcs[t], s'.pcs[t];
    MergedJob(c, s, s', t, a);
    UploadRoles(pc);
    UploadRoles(next);
    SaveStep(c, s, s', t, next, MergeManifest(s.mem.store[pc.id], pc.files, SumSizes(pc.files), a.now));
  }

  lemma MergeSkips(c: Config, s: State, s': State, t: Tid, a: Upload)
    requires a.Merge? && UploadStep(c, s, s', t, a) && Facts(c, s, t)
    requires !(s.pcs[t].id in s.mem.store && a.io.Works?)
    ensures StepShape(c, s, s', t)
  {
    var pc, next := s.pcs[t], s'.pcs[t];
    UploadFits(c, s, pc, next);
    GoStep(c, s, s', t, next);
  }

  lemma MergeShape(c: Config, s: State, s': State, t: Tid, a: Upload)
    requires a.Merge? && UploadStep(c, s, s', t, a) && Facts(c, s, t)
    ensures StepShape(c, s, s', t)
  {
    if s.pcs[t].id in s.mem.store && a.io.Works? {
      Merges(c, s, s', t, a);
    } else {
      MergeSkips(c, s, s', t, a);
    }
  }

  lemma RollbackShape(c: Config, s: State, s': State, t: Tid, a: Upload)
    requires a.Rollback? && UploadStep(c, s, s', t, a) && Facts(c, s, t)
    ensures StepShape(c, s, s', t)
  {
    var pc, next := s.pcs[t], s'.pcs[t];
    assert JobFacts(s, pc.id);
    UploadRoles(pc);
    UploadRoles(next);
    ContentAccounts(c, s, s', t, next);
    ContentKept(c, s, s', t, next);
  }

  lemma ReleaseUploadShape(c: Config, s: State, s': State, t: Tid, a: Upload)
    requires a.ReleaseUpload? && UploadStep(c, s, s', t, a) && Facts(c, s, t)
    ensures StepShape(c, s, s', t)
  {
    var pc, next := s.pcs[t], s'.pcs[t];
    UploadRoles(pc);
    JoblessRoles(next);
    QuietStep(c, s, s', t, next);
  }

  lemma UploadStepShape(c: Config, s: State, s': State, t: Tid, a: Upload)
    requires UploadStep(c, s, s', t, a) && Facts(c, s, t)
    ensures StepShape(c, s, s', t)
  {
    match a
    case Reserve => EntryStep(c, s, s', t);
    case Create(_, _) => CreateShape(c, s, s', t, a);
    case CreateFails => EntryStep(c, s, s', t);
    case ReceiveDone(_) => ReceivingShape(c, s, s', t, a);
    case ReceiveFails => ReceivingShape(c, s, s', t, a);
    case ProbeWithoutSlot(_, _) => ProbingShape(c, s, s', t, a);
    case ProbeTakesSlot => ReceivingShape(c, s, s', t, a);
    case ProbeFails(_, _) => ProbingShape(c, s, s', t, a);
    case ProbeSucceeds(_, _) => ProbingShape(c, s, s', t, a);
    case Merge(_, _) => MergeShape(c, s, s', t, a);
    case Rollback(_) => RollbackShape(c, s, s', t, a);
    case ReleaseUpload => ReleaseUploadShape(c, s, s', t, a);
    case LeaveGroup => EntryStep(c, s, s', t);
  }

  // ---------------------------------------------------------------- shutdown

  lemma StopIntakeShape(c: Config, s: State, s': State, t: Tid, a: Shutdown)
    requires a.StopIntake? && ShutdownStep(c, s, s', t, a) && Facts(c, s, t)
    ensures StepShape(c, s, s', t)
  {
    JoblessRoles(s.pcs[t]);
    JoblessRoles(s'.pcs[t]);
    assert JobFacts(s, Act(s, s', t));
  }

  lemma BeginShutdownShape(c: Config, s: State, s': State, t: Tid, a: Shutdown)
    requires a.BeginShutdown? && ShutdownStep(c, s, s', t, a) && Facts(c, s, t)
    ensures StepShape(c, s, s', t)
  {
    JoblessRoles(s.pcs[t]);
    JoblessRoles(s'.pcs[t]);
    assert JobFacts(s, Act(s, s', t));
  }

  lemma CloseQueueShape(c: Config, s: State, s': State, t: Tid, a: Shutdown)
    requires a.CloseQueue? && ShutdownStep(c, s, s', t, a) && Facts(c, s, t)
    ensures StepShape(c, s, s', t)
  {
    JoblessRoles(s.pcs[t]);
    JoblessRoles(s'.pcs[t]);
    assert JobFacts(s, Act(s, s', t));
  }

  lemma DrainShape(c: Config, s: State, s': State, t: Tid, a: Shutdown)
    requires a.Drain? && ShutdownStep(c, s, s', t, a) && Facts(c, s, t)
    ensures StepShape(c, s, s', t)
  {
    JoblessRoles(s.pcs[t]);
    JoblessRoles(s'.pcs[t]);
    assert JobFacts(s, Act(s, s', t));
  }

  lemma ShutdownStepShape(c: Config, s: State, s': State, t: Tid, a: Shutdown)
    requires ShutdownStep(c, s, s', t, a) && Facts(c, s, t)
    ensures StepShape(c, s, s', t)
  {
    match a
    case StopIntake => StopIntakeShape(c, s, s', t, a);
    case BeginShutdown => BeginShutdownShape(c, s, s', t, a);
    case CloseQueue => CloseQueueShape(c, s, s', t, a);
    case Drain => DrainShape(c, s, s', t, a);
  }

  // ---------------------------------------------------------------- the worker pool

  lemma ReceiveShape(c: Config, s: State, s': State, t: Tid, a: Pool)
    requires a.Receive? && PoolStep(c, s, s', t, a) && Facts(c, s, t)
    ensures StepShape(c, s, s', t)
  {
    var pc, next := s.pcs[t], s'.pcs[t];
    assert JobFacts(s, next.id);
    JoblessRoles(pc);
    BeforeRoles(next);
  }

  lemma TakeShape(c: Config, s: State, s': State, t: Tid, a: Pool)
    requires a.Take? && PoolStep(c, s, s', t, a) && Facts(c, s, t)
    ensures StepShape(c, s, s', t)
  {
    var pc, next := s.pcs[t], s'.pcs[t];
    assert JobFacts(s, pc.id);
    BeforeRoles(pc);
    BeforeRoles(next);
  }

  lemma LockForLeaseShape(c: Config, s: State, s': State, t: Tid, a: Pool)
    requires a.LockForLease? && PoolStep(c, s, s', t, a) && Facts(c, s, t)
    ensures StepShape(c, s, s', t)
  {
    var pc, next := s.pcs[t], s'.pcs[t];
    WorkerLeaseFits(c, s, pc, next);
    GoStep(c, s, s', t, next);
  }

  lemma Claiming(c: Config, s: State, s': State, t: Tid, a: Pool)
    requires a.Claim? && PoolStep(c, s, s', t, a) && Facts(c, s, t)
    requires s.pcs[t].id in s.mem.store && a.io.Works? && s.mem.store[s.pcs[t].id].state.JobQueued?
    ensures StepShape(c, s, s', t)
  {
    var pc, next := s.pcs[t], s'.pcs[t];
    assert JobFacts(s, pc.id);
    ClaimKeeps(s.mem.store[pc.id]);
    WorksThroughFits(c, s, pc, next);
    ClaimRoles(next);
    SaveStep(c, s, s', t, next, ClaimManifest(s.mem.store[pc.id]).value);
  }

  lemma ClaimDrops(c: Config, s: State, s': State, t: Tid, a: Pool)
    requires a.Claim? && PoolStep(c, s, s', t, a) && Facts(c, s, t)
    requires !(s.pcs[t].id in s.mem.store && a.io.Works? && s.mem.store[s.pcs[t].id].state.JobQueued?)
    ensures s.pcs[t].WorkerLeased? && t in s'.pcs && s'.pcs[t] == WorkerReleasing(s.pcs[t].id, s.pcs[t].ctl)
    ensures s' == Go(s, t, s'.pcs[t]).(dropped := Drop(s, s.pcs[t].id))
  {
    var id := s.pcs[t].id;
    assert JobFacts(s, id) && s.place[id] == At(t);
  }

  lemma ClaimFails(c: Config, s: State, s': State, t: Tid, a: Pool)
    requires a.Claim? && PoolStep(c, s, s', t, a) && Facts(c, s, t)
    requires !(s.pcs[t].id in s.mem.store && a.io.Works? && s.mem.store[s.pcs[t].id].state.JobQueued?)
    ensures StepShape(c, s, s', t)
  {
    ClaimDrops(c, s, s', t, a);
    GivesUp(c, s, s', t, s'.pcs[t]);
  }

  lemma ClaimShape(c: Config, s: State, s': State, t: Tid, a: Pool)
    requires a.Claim? && PoolStep(c, s, s', t, a) && Facts(c, s, t)
    ensures StepShape(c, s, s', t)
  {
    if s.pcs[t].id in s.mem.store && a.io.Works? && s.mem.store[s.pcs[t].id].state.JobQueued? {
      Claiming(c, s, s', t, a);
    } else {
      ClaimFails(c, s, s', t, a);
    }
  }

  lemma ReleaseWorkShape(c: Config, s: State, s': State, t: Tid, a: Pool)
    requires a.ReleaseWork? && PoolStep(c, s, s', t, a) && Facts(c, s, t)
    ensures StepShape(c, s, s', t)
  {
    var pc, next := s.pcs[t], s'.pcs[t];
    assert JobFacts(s, pc.id);
    AfterRoles(pc);
    AfterRoles(next);
    QuietStep(c, s, s', t, next);
  }

  lemma FinishShape(c: Config, s: State, s': State, t: Tid, a: Pool)
    requires a.Finish? && PoolStep(c, s, s', t, a) && Facts(c, s, t)
    ensures StepShape(c, s, s', t)
  {
    var pc, next := s.pcs[t], s'.pcs[t];
    assert JobFacts(s, pc.id);
    AfterRoles(pc);
    JoblessRoles(next);
  }

  lemma PoolStepShape(c: Config, s: State, s': State, t: Tid, a: Pool)
    requires PoolStep(c, s, s', t, a) && Facts(c, s, t)
    ensures StepShape(c, s, s', t)
  {
    match a
    case Receive => ReceiveShape(c, s, s', t, a);
    case Exit => EntryStep(c, s, s', t);
    case Take => TakeShape(c, s, s', t, a);
    case LockForLease => LockForLeaseShape(c, s, s', t, a);
    case Claim(_) => ClaimShape(c, s, s', t, a);
    case ReleaseWork => ReleaseWorkShape(c, s, s', t, a);
    case Finish => FinishShape(c, s, s', t, a);
  }

  // ---------------------------------------------------------------- one claimed job

  lemma Begins(c: Config, s: State, s': State, t: Tid, a: Conversion)
    requires a.Begin? && ConversionStep(c, s, s', t, a) && Facts(c, s, t)
    requires s.pcs[t].id in s.mem.store && a.io.Works? && BeginFile(s.mem.store[s.pcs[t].id], s.pcs[t].file, a.now).Ok?
    ensures StepShape(c, s, s', t)
  {
    var pc, next := s.pcs[t], s'.pcs[t];
    assert JobFacts(s, pc.id);
    BeginFileKeeps(s.mem.store[pc.id], pc.file, a.now);
    WorksThroughFits(c, s, pc, next);
    ClaimRoles(pc);
    ClaimRoles(next);
    SaveStep(c, s, s', t, next, BeginFile(s.mem.store[pc.id], pc.file, a.now).value);
  }

  lemma BeginSkips(c: Config, s: State, s': State, t: Tid, a: Conversion)
    requires a.Begin? && ConversionStep(c, s, s', t, a) && Facts(c, s, t)
    requires !(a.io.Works? && BeginFile(s.mem.store[s.pcs[t].id], s.pcs[t].file, a.now).Ok?)
    ensures StepShape(c, s, s', t)
  {
    var pc, next := s.pcs[t], s'.pcs[t];
    assert JobFacts(s, pc.id);
    WorksOnFits(c, s, pc, next);
    GoStep(c, s, s', t, next);
  }

  lemma BeginShape(c: Config, s: State, s': State, t: Tid, a: Conversion)
    requires a.Begin? && ConversionStep(c, s, s', t, a) && Facts(c, s, t)
    ensures StepShape(c, s, s', t)
  {
    if s.pcs[t].id in s.mem.store && a.io.Works? && BeginFile(s.mem.store[s.pcs[t].id], s.pcs[t].file, a.now).Ok? {
      Begins(c, s, s', t, a);
    } else {
      BeginSkips(c, s, s', t, a);
    }
  }

  lemma RecordFacts(c: Config, s: State, t: Tid, now: Time)
    requires Facts(c, s, t) && s.pcs[t].WorkerRecording?
    ensures s.pcs[t].id in s.mem.store && s.place[s.pcs[t].id] == At(t)
    ensures var m := s.mem.store[s.pcs[t].id];
      var m' := RecordOutcome(m, s.pcs[t].file, s.pcs[t].outcome, now);
      && ManifestOK(m') && Absorbs(m, m') && m'.state == m.state && m'.id == m.id
      && (m.state.Terminal() ==> m' == m)
      && (m.state.JobRunning? ==> RunningFiles(m') == LostOf(s, s.pcs[t].id))
  {
    var pc := s.pcs[t];
    var id := pc.id;
    ClaimRoles(pc);
    assert JobFacts(s, id) && s.place[id] == At(t) && Current(s, id) == {pc.file};
    if s.mem.store[id].state.JobRunning? {
      RunningAt(s.mem.store[id], pc.file);
    }
    RecordKeeps(s.mem.store[id], pc.file, pc.outcome, now);
  }

  ghost predicate RecordNext(pc: PC, next: PC) {
    && pc.WorkerRecording?
    && next == (if pc.slot then WorkerSlotRelease(pc.id, pc.ctl, pc.file, pc.rest)
                else WorkerLoop(pc.id, pc.ctl, pc.rest))
  }

  /** The file leaves the running set. */
  ghost predicate RecordSaved(s: State, s': State, t: Tid, next: PC, now: Time) {
    && t in s.pcs && RecordNext(s.pcs[t], next) && s.pcs[t].id in s.mem.store && LockFree(s, s.pcs[t].id)
    && var pc := s.pcs[t];
    s' == GoMem(s, t, next, Save(s.mem, pc.id, RecordOutcome(s.mem.store[pc.id], pc.file, pc.outcome, now)))
  }

  lemma RecordedJob(c: Config, s: State, s': State, t: Tid, next: PC, now: Time)
    requires Facts(c, s, t) && RecordSaved(s, s', t, next, now)
    ensures JobOK(s', s.pcs[t].id)
  {
    assert JobFacts(s, s.pcs[t].id);
    RecordFacts(c, s, t, now);
    ClaimRoles(s.pcs[t]);
    ClaimRoles(next);
    assert Current(s', s.pcs[t].id) == {};
  }

  lemma RecordSaves(c: Config, s: State, s': State, t: Tid, next: PC, now: Time)
    requires Facts(c, s, t) && RecordSaved(s, s', t, next, now)
    ensures StepShape(c, s, s', t)
  {
    var pc := s.pcs[t];
    RecordFacts(c, s, t, now);
    RecordedJob(c, s, s', t, next, now);
    WorksThroughFits(c, s, pc, next);
    ClaimRoles(pc);
    ClaimRoles(next);
    SaveStep(c, s, s', t, next, RecordOutcome(s.mem.store[pc.id], pc.file, pc.outcome, now));
  }

  /** The file stays in the running set, and is noted as lost. */
  ghost predicate RecordLost(s: State, s': State, t: Tid, next: PC) {
    && t in s.pcs && RecordNext(s.pcs[t], next)
    && var pc := s.pcs[t];
    s' == Go(s, t, next).(lost := s.lost[pc.id := LostOf(s, pc.id) + {pc.file}])
  }

  lemma LostJob(c: Config, s: State, s': State, t: Tid, next: PC)
    requires Facts(c, s, t) && RecordLost(s, s', t, next)
    ensures s.pcs[t].id in s.mem.store && JobOK(s', s.pcs[t].id)
  {
    var pc := s.pcs[t];
    assert JobFacts(s, pc.id) && s.place[pc.id] == At(t);
    ClaimRoles(pc);
    ClaimRoles(next);
    assert Current(s, pc.id) == {pc.file} && Current(s', pc.id) == {};
  }

  lemma RecordLoses(c: Config, s: State, s': State, t: Tid, next: PC)
    requires Facts(c, s, t) && RecordLost(s, s', t, next)
    ensures StepShape(c, s, s', t)
  {
    LostJob(c, s, s', t, next);
    WorksThroughFits(c, s, s.pcs[t], next);
    ClaimRoles(s.pcs[t]);
    ClaimRoles(next);
    ContentAccounts(c, s, s', t, next);
    ContentKept(c, s, s', t, next);
  }

  lemma RecordShape(c: Config, s: State, s': State, t: Tid, a: Conversion)
    requires a.Record? && ConversionStep(c, s, s', t, a) && Facts(c, s, t)
    ensures StepShape(c, s, s', t)
  {
    assert s.pcs[t].id in s.mem.store by {
      ClaimRoles(s.pcs[t]);
    }
    if a.io.Works? {
      RecordSaves(c, s, s', t, s'.pcs[t], a.now);
    } else {
      RecordLoses(c, s, s', t, s'.pcs[t]);
    }
  }

  lemma Finalizes(c: Config, s: State, s': State, t: Tid, a: Conversion)
    requires a.Finalize? && ConversionStep(c, s, s', t, a) && Facts(c, s, t)
    requires s.pcs[t].id in s.mem.store && a.io.Works?
    ensures StepShape(c, s, s', t)
  {
    var pc, next := s.pcs[t], s'.pcs[t];
    assert JobFacts(s, pc.id);
    FinalizeKeeps(s.mem.store[pc.id], pc.canceled, a.now);
    WorksThroughFits(c, s, pc, next);
    ClaimRoles(pc);
    AfterRoles(next);
    SaveStep(c, s, s', t, next, FinalizeManifest(s.mem.store[pc.id], pc.canceled, a.now));
  }

  lemma FinalizeShape(c: Config, s: State, s': State, t: Tid, a: Conversion)
    requires a.Finalize? && ConversionStep(c, s, s', t, a) && Facts(c, s, t)
    ensures StepShape(c, s, s', t)
  {
    if s.pcs[t].id in s.mem.store && a.io.Works? {
      Finalizes(c, s, s', t, a);
    } else {
      GivesUp(c, s, s', t, s'.pcs[t]);
    }
  }

  lemma ConversionStepShape(c: Config, s: State, s': State, t: Tid, a: Conversion)
    requires ConversionStep(c, s, s', t, a) && Facts(c, s, t)
    ensures StepShape(c, s, s', t)
  {
    match a
    case LoopNext => WorksOnStep(c, s, s', t);
    case LoopEnd => WorksOnStep(c, s, s', t);
    case Begin(_, _) => BeginShape(c, s, s', t, a);
    case TakeSlot => WorksOnStep(c, s, s', t);
    case WaitCanceled => WorksOnStep(c, s, s', t);
    case SlotCanceled => WorksOnStep(c, s, s', t);
    case SlotFails(_) => WorksOnStep(c, s, s', t);
    case SlotConverts => WorksOnStep(c, s, s', t);
    case ConvertReturns(_) => WorksOnStep(c, s, s', t);
    case Record(_, _) => RecordShape(c, s, s', t, a);
    case ReleaseSlot => WorksOnStep(c, s, s', t);
    case Finalize(_, _) => FinalizeShape(c, s, s', t, a);
  }

  // ---------------------------------------------------------------- all steps, all runs

  lemma StepHasShape(c: Config, s: State, s': State, t: Tid, a: Action)
    requires Inv(c, s) && Step(c, s, s', t, a)
    ensures StepShape(c, s, s', t)
  {
    FactsHold(c, s, t);
    match a {
      case Startings(x) => StartingStepShape(c, s, s', t, x);
      case Cancelings(x) => CancelingStepShape(c, s, s', t, x);
      case Deletions(x) => DeletionStepShape(c, s, s', t, x);
      case Sweeps(x) => SweepStepShape(c, s, s', t, x);
      case FileRemovals(x) => FileRemovalStepShape(c, s, s', t, x);
      case Leasings(x) => LeasingStepShape(c, s, s', t, x);
      case Uploads(x) => UploadStepShape(c, s, s', t, x);
      case Shutdowns(x) => ShutdownStepShape(c, s, s', t, x);
      case Pools(x) => PoolStepShape(c, s, s', t, x);
      case Conversions(x) => ConversionStepShape(c, s, s', t, x);
    }
  }

  lemma StepKeeps(c: Config, s: State, s': State, t: Tid, a: Action)
    requires Inv(c, s) && Step(c, s, s', t, a)
    ensures Inv(c, s')
  {
    StepHasShape(c, s, s', t, a);
    ShapeKeeps(c, s, s', t);
  }

  lemma NextKeeps(c: Config, s: State, s': State)
    requires Inv(c, s) && Next(c, s, s')
    ensures Inv(c, s')
  {
    var t: Tid, a: Action :| Step(c, s, s', t, a);
    StepKeeps(c, s, s', t, a);
  }

  lemma {:induction false} RunHolds(c: Config, states: seq<State>, i: nat, s: State)
    requires Run(c, states) && i < |states| && s == states[i]
    ensures Inv(c, s)
    decreases i
  {
    if i == 0 {
      InitHolds(c, s);
    } else {
      RunHolds(c, states, i - 1, states[i - 1]);
      assert Linked(c, states, i - 1);
      NextKeeps(c, states[i - 1], s);
    }
  }

  lemma RunKeeps(c: Config, states: seq<State>, i: nat)
    requires Run(c, states) && i < |states|
    ensures Inv(c, states[i])
  {
    RunHolds(c, states, i, states[i]);
  }

  /** The thread behind one transition of a run, and the shape of its step. */
  lemma RunStep(c: Config, states: seq<State>, i: nat) returns (t: Tid)
    requires Run(c, states) && i < |states| - 1
    ensures StepShape(c, states[i], states[i + 1], t)
  {
    RunKeeps(c, states, i);
    assert Linked(c, states, i);
    var u: Tid, a: Action :| Step(c, states[i], states[i + 1], u, a);
    StepHasShape(c, states[i], states[i + 1], u, a);
    t := u;
  }

  // One part of the invariant at a time.

  lemma RunPlaces(c: Config, states: seq<State>, i: nat)
    requires Run(c, states) && i < |states|
    ensures PlacesOK(states[i])
  {
    RunKeeps(c, states, i);
  }

  lemma RunMutex(c: Config, states: seq<State>, i: nat)
    requires Run(c, states) && i < |states|
    ensures MutexOK(c, states[i])
  {
    RunKeeps(c, states, i);
  }

  lemma RunLeases(c: Config, states: seq<State>, i: nat)
    requires Run(c, states) && i < |states|
    ensures LeasesOK(states[i]) && QuietOK(states[i])
  {
    RunKeeps(c, states, i);
  }

  lemma RunKnown(c: Config, states: seq<State>, i: nat)
    requires Run(c, states) && i < |states|
    ensures KnownOK(states[i])
  {
    RunKeeps(c, states, i);
  }

  lemma RunShutdown(c: Config, states: seq<State>, i: nat)
    requires Run(c, states) && i < |states|
    ensures ShutdownOK(states[i])
  {
    RunKeeps(c, states, i);
  }

  lemma RunJob(c: Config, states: seq<State>, i: nat, id: JobId)
    requires Run(c, states) && i < |states| && id in states[i].mem.store
    ensures JobOK(states[i], id)
  {
    RunKeeps(c, states, i);
  }
}
