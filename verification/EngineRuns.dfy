/** Concrete runs: the exceptions that the statements of `EngineTheorems` name
    really occur. */
module EngineRuns {
  import opened Options
  import opened Profiles
  import opened Manifests
  import opened Engine

  ghost predicate EndsIn(c: Config, states: seq<State>, s: State) {
    Run(c, states) && states[|states| - 1] == s
  }

  ghost predicate Reachable(c: Config, s: State) {
    exists states :: EndsIn(c, states, s)
  }

  lemma LinkedOn(c: Config, states: seq<State>, s': State, i: nat)
    requires Run(c, states) && Next(c, states[|states| - 1], s') && i < |states|
    ensures Linked(c, states + [s'], i)
  {
    assert (states + [s'])[i] == states[i];
    if i < |states| - 1 {
      assert Linked(c, states, i);
      assert (states + [s'])[i + 1] == states[i + 1];
    }
  }

  lemma Extend(c: Config, states: seq<State>, s: State, s': State)
    requires EndsIn(c, states, s) && Next(c, s, s')
    ensures EndsIn(c, states + [s'], s')
  {
    assert (states + [s'])[0] == states[0];
    forall i | 0 <= i < |states| ensures Linked(c, states + [s'], i) {
      LinkedOn(c, states, s', i);
    }
  }

  /** A set of states that holds startup and is closed under steps.  Showing a state
      to be in every such set shows it to be reachable. */
  ghost predicate Closed(R: State -> bool) {
    && R(Startup())
    && forall s, s', t, a :: R(s) && Step(C, s, s', t, a) ==> R(s')
  }

  lemma ByStarting(R: State -> bool, s: State, s': State, t: Tid, a: Starting)
    requires Closed(R) && R(s) && StartingStep(C, s, s', t, a)
    ensures R(s')
  {
    assert Step(C, s, s', t, Startings(a));
  }

  lemma ByLeasing(R: State -> bool, s: State, s': State, t: Tid, a: Leasing)
    requires Closed(R) && R(s) && LeasingStep(C, s, s', t, a)
    ensures R(s')
  {
    assert Step(C, s, s', t, Leasings(a));
  }

  lemma ByUpload(R: State -> bool, s: State, s': State, t: Tid, a: Upload)
    requires Closed(R) && R(s) && UploadStep(C, s, s', t, a)
    ensures R(s')
  {
    assert Step(C, s, s', t, Uploads(a));
  }

  lemma ByShutdown(R: State -> bool, s: State, s': State, t: Tid, a: Shutdown)
    requires Closed(R) && R(s) && ShutdownStep(C, s, s', t, a)
    ensures R(s')
  {
    assert Step(C, s, s', t, Shutdowns(a));
  }

  lemma ByPool(R: State -> bool, s: State, s': State, t: Tid, a: Pool)
    requires Closed(R) && R(s) && PoolStep(C, s, s', t, a)
    ensures R(s')
  {
    assert Step(C, s, s', t, Pools(a));
  }

  lemma ByConversion(R: State -> bool, s: State, s': State, t: Tid, a: Conversion)
    requires Closed(R) && R(s) && ConversionStep(C, s, s', t, a)
    ensures R(s')
  {
    assert Step(C, s, s', t, Conversions(a));
  }

  lemma ReachableIsClosed()
    ensures Closed(s => Reachable(C, s))
  {
    assert Startup().pcs[2].WorkerIdle?;
    assert EndsIn(C, [Startup()], Startup());
    forall s, s', t, a | Reachable(C, s) && Step(C, s, s', t, a) ensures Reachable(C, s') {
      var states :| EndsIn(C, states, s);
      Extend(C, states, s, s');
      assert EndsIn(C, states + [s'], s');
    }
  }

  // Two request threads, 0 and 1, and one worker, 2.

  const C := Config(1, 1, 60)
  const IDLE := Shared(true, false, false, {}, 0, map[], map[], [], 0, 0, map[])

  function Pcs(a: PC, b: PC, w: PC): map<Tid, PC> { map[0 := a, 1 := b, 2 := w] }

  lemma PcsUpdate(a: PC, b: PC, w: PC, x: PC)
    ensures Pcs(a, b, w)[0 := x] == Pcs(x, b, w)
    ensures Pcs(a, b, w)[1 := x] == Pcs(a, x, w)
    ensures Pcs(a, b, w)[2 := x] == Pcs(a, b, x)
  {
  }

  lemma Unlocked(s: State, a: PC, b: PC, w: PC)
    requires s.pcs == Pcs(a, b, w) && !LocksJob(a) && !LocksJob(b) && !LocksJob(w)
    ensures LockFree(s, 5) && MutexFree(s)
  {
  }

  lemma KeyUpdate<V>(v: V, w: V)
    ensures map[5 := v][5 := w] == map[5 := w]
  {
  }

  function Startup(): State {
    State(IDLE, Pcs(Idle, Idle, WorkerIdle), {}, map[], {}, map[], false, false)
  }

  function Received(id: FileId): File {
    File(id, "clip", 10, FileUploaded, NoOperation, [], NoOperation, NotSelected, None, None, None, None)
  }

  function Inspected(id: FileId): File {
    ProbeInspected(Received(id), CompatibleVideo, [CompatibleVideo])
  }

  function Selected(id: FileId): File {
    Inspected(id).(state := FileQueued)
  }

  function Begun(id: FileId): File {
    Selected(id).(state := FileRunning, startedAt := Some(0))
  }

  /** Job 5 with two files, as uploaded, started and claimed, and then with one and
      both files marked running. */
  const PENDING := Manifest(5, JobPending, Some(60), 20, [Inspected(1), Inspected(2)], None)
  const QUEUED := Manifest(5, JobQueued, Some(60), 20, [Selected(1), Selected(2)], None)
  const RUNNING := Manifest(5, JobRunning, Some(60), 20, [Selected(1), Selected(2)], None)
  const FIRST := Manifest(5, JobRunning, Some(60), 20, [Begun(1), Selected(2)], None)
  const BOTH := Manifest(5, JobRunning, Some(60), 20, [Begun(1), Begun(2)], None)

  // ---------------------------------------------------------------- an upload

  /** Thread 0 has created job 5 and holds its lease. */
  function Creating(pc: PC): State {
    Startup().(mem := IDLE.(store := map[5 := CreatedManifest(5, 0, 60)], leases := map[5 := 1]),
               pcs := Pcs(pc, Idle, WorkerIdle), minted := {5})
  }

  lemma CreatingReached(R: State -> bool)
    requires Closed(R)
    ensures R(Creating(Receiving(5)))
  {
    var s0, s1 := Startup(), Go(Startup(), 0, Reserved);
    ByUpload(R, s0, s1, 0, Reserve);
    PcsUpdate(Idle, Idle, WorkerIdle, Reserved);
    PcsUpdate(Reserved, Idle, WorkerIdle, Receiving(5));
    ByUpload(R, s1, Creating(Receiving(5)), 0, Create(5, 0));
  }

  lemma ProbesFile(R: State -> bool, files: seq<File>, next: nat)
    requires Closed(R) && R(Creating(Probing(5, files, next))) && next < |files|
    ensures R(Creating(Probing(5, files[next := ProbeInspected(files[next], CompatibleVideo, [CompatibleVideo])],
                               next + 1)))
  {
    var s0, s1 := Creating(Probing(5, files, next)), Creating(ProbeSlot(5, files, next));
    PcsUpdate(s0.pcs[0], Idle, WorkerIdle, s1.pcs[0]);
    assert SlotHolders(s0.pcs) == {};
    ByUpload(R, s0, s1, 0, ProbeTakesSlot);
    var after := Probing(5, files[next := ProbeInspected(files[next], CompatibleVideo, [CompatibleVideo])], next + 1);
    PcsUpdate(s1.pcs[0], Idle, WorkerIdle, after);
    ByUpload(R, s1, Creating(after), 0, ProbeSucceeds(CompatibleVideo, [CompatibleVideo]));
  }

  lemma ProbedReached(R: State -> bool)
    requires Closed(R)
    ensures R(Creating(Probing(5, [Inspected(1), Inspected(2)], 2)))
  {
    CreatingReached(R);
    var files := [Received(1), Received(2)];
    PcsUpdate(Receiving(5), Idle, WorkerIdle, Probing(5, files, 0));
    ByUpload(R, Creating(Receiving(5)), Creating(Probing(5, files, 0)), 0, ReceiveDone(files));
    ProbesFile(R, files, 0);
    assert files[0 := Inspected(1)] == [Inspected(1), Received(2)];
    ProbesFile(R, [Inspected(1), Received(2)], 1);
    assert [Inspected(1), Received(2)][1 := Inspected(2)] == [Inspected(1), Inspected(2)];
  }

  /** Job 5 is uploaded and unstarted. */
  function Uploaded(pc: PC): State {
    Startup().(mem := IDLE.(store := map[5 := PENDING]), pcs := Pcs(pc, Idle, WorkerIdle), minted := {5})
  }

  lemma MergesProbed()
    ensures MergeManifest(CreatedManifest(5, 0, 60), [Inspected(1), Inspected(2)],
                          SumSizes([Inspected(1), Inspected(2)]), 0)
            == PENDING
  {
    assert [Inspected(1), Inspected(2)][1..] == [Inspected(2)];
    assert SumSizes([Inspected(2)]) == 10;
  }

  lemma MergedReached(R: State -> bool)
    requires Closed(R)
    ensures R(Uploaded(UploadDone(5)).(mem := Uploaded(Idle).mem.(leases := map[5 := 1])))
  {
    ProbedReached(R);
    MergesProbed();
    var both := [Inspected(1), Inspected(2)];
    var s0 := Creating(Probing(5, both, 2));
    var s1 := Uploaded(UploadDone(5)).(mem := Uploaded(Idle).mem.(leases := map[5 := 1]));
    PcsUpdate(s0.pcs[0], Idle, WorkerIdle, UploadDone(5));
    KeyUpdate(s0.mem.store[5], PENDING);
    Unlocked(s0, s0.pcs[0], Idle, WorkerIdle);
    ByUpload(R, s0, s1, 0, Merge(Works, 0));
  }

  lemma UploadedReached(R: State -> bool)
    requires Closed(R)
    ensures R(Uploaded(LeavingGroup))
  {
    MergedReached(R);
    var s1 := Uploaded(UploadDone(5)).(mem := Uploaded(Idle).mem.(leases := map[5 := 1]));
    PcsUpdate(UploadDone(5), Idle, WorkerIdle, LeavingGroup);
    Unlocked(s1, UploadDone(5), Idle, WorkerIdle);
    ByUpload(R, s1, Uploaded(LeavingGroup), 0, ReleaseUpload);
  }

  // ---------------------------------------------------------------- a start

  lemma StartsPending()
    ensures StartManifest(PENDING, map[], true) == Ok(QUEUED)
  {
    assert PENDING.files[..1] == [Inspected(1)];
    assert [Inspected(1)][..0] == [];
    assert StartFiles([], map[]) == Ok([]);
    assert StartFiles([Inspected(1)], map[]) == Ok([] + [Selected(1)]);
    assert [] + [Selected(1)] == [Selected(1)];
    assert StartFiles(PENDING.files, map[]) == Ok([Selected(1)] + [Selected(2)]);
    assert [Selected(1)] + [Selected(2)] == QUEUED.files;
    assert CountState(PENDING.files, FileInspected) == CountState([Inspected(1)], FileInspected) + 1;
  }

  const STARTED := IDLE.(controls := map[5 := 0], nextCtl := 1, queued := 1, store := map[5 := QUEUED])

  lemma StartLockedReached(R: State -> bool)
    requires Closed(R)
    ensures R(Uploaded(StartLocked(5, map[])))
  {
    UploadedReached(R);
    PcsUpdate(LeavingGroup, Idle, WorkerIdle, Idle);
    ByUpload(R, Uploaded(LeavingGroup), Uploaded(Idle), 0, LeaveGroup);
    PcsUpdate(Idle, Idle, WorkerIdle, StartLocked(5, map[]));
    Unlocked(Uploaded(Idle), Idle, Idle, WorkerIdle);
    ByStarting(R, Uploaded(Idle), Uploaded(StartLocked(5, map[])), 0, BeginStart(5, map[]));
  }

  lemma SendingReached(R: State -> bool)
    requires Closed(R)
    ensures R(State(STARTED, Pcs(StartSending(5), Idle, WorkerIdle), {5}, map[5 := At(0)], {}, map[], false, false))
  {
    StartLockedReached(R);
    StartsPending();
    KeyUpdate(PENDING, QUEUED);
    PcsUpdate(StartLocked(5, map[]), Idle, WorkerIdle, StartSending(5));
    ByStarting(R, Uploaded(StartLocked(5, map[])),
               State(STARTED, Pcs(StartSending(5), Idle, WorkerIdle), {5}, map[5 := At(0)], {}, map[], false, false),
               0, StartBody(Works));
  }

  /** The started job is with the worker. */
  function Handed(pc: PC): State {
    State(STARTED, Pcs(Idle, Idle, pc), {5}, map[5 := At(2)], {}, map[], false, false)
  }

  lemma HandedReached(R: State -> bool)
    requires Closed(R)
    ensures R(Handed(WorkerReceived(5)))
  {
    SendingReached(R);
    var s0 := State(STARTED, Pcs(StartSending(5), Idle, WorkerIdle), {5}, map[5 := At(0)], {}, map[], false, false);
    var s1 := State(STARTED.(queue := [5]), Pcs(Unlocking(5, ToIdle), Idle, WorkerIdle), {5}, map[5 := InQueue], {},
                    map[], false, false);
    PcsUpdate(StartSending(5), Idle, WorkerIdle, Unlocking(5, ToIdle));
    ByStarting(R, s0, s1, 0, StartSend);
    var s2 := s1.(pcs := Pcs(Idle, Idle, WorkerIdle));
    PcsUpdate(Unlocking(5, ToIdle), Idle, WorkerIdle, Idle);
    ByLeasing(R, s1, s2, 0, Unlock);
    PcsUpdate(Idle, Idle, WorkerIdle, WorkerReceived(5));
    ByPool(R, s2, Handed(WorkerReceived(5)), 2, Receive);
  }

  // ---------------------------------------------------------------- a worker that cannot read its job

  function Taken(pc: PC): State {
    Handed(pc).(mem := STARTED.(queued := 0, running := 1))
  }

  lemma LockedReached(R: State -> bool)
    requires Closed(R)
    ensures R(Taken(LeaseLocked(5, Work(Some(0)))))
  {
    HandedReached(R);
    PcsUpdate(Idle, Idle, WorkerReceived(5), WorkerTaken(5, Some(0)));
    Unlocked(Handed(WorkerReceived(5)), Idle, Idle, WorkerReceived(5));
    ByPool(R, Handed(WorkerReceived(5)), Taken(WorkerTaken(5, Some(0))), 2, Take);
    PcsUpdate(Idle, Idle, WorkerTaken(5, Some(0)), LeaseLocked(5, Work(Some(0))));
    Unlocked(Taken(WorkerTaken(5, Some(0))), Idle, Idle, WorkerTaken(5, Some(0)));
    ByPool(R, Taken(WorkerTaken(5, Some(0))), Taken(LeaseLocked(5, Work(Some(0)))), 2, LockForLease);
  }

  /** The worker's own read of the job failed, and it has gone back to the pool. */
  function Abandoned(a: PC, w: PC): State {
    State(STARTED.(queued := 0, controls := map[], canceled := {0}), Pcs(a, Idle, w), {5}, map[5 := Retired], {5},
          map[], false, false)
  }

  lemma AbandonedReached(R: State -> bool)
    requires Closed(R)
    ensures R(Abandoned(Idle, WorkerIdle))
  {
    LockedReached(R);
    var s0 := Taken(LeaseLocked(5, Work(Some(0))));
    var s1 := Taken(Unlocking(5, ToFinished(Some(0)))).(dropped := {5});
    PcsUpdate(Idle, Idle, s0.pcs[2], s1.pcs[2]);
    ByLeasing(R, s0, s1, 2, LeaseLoad(ReadFails));
    var s2 := Taken(WorkerFinished(5, Some(0))).(dropped := {5});
    PcsUpdate(Idle, Idle, s1.pcs[2], s2.pcs[2]);
    ByLeasing(R, s1, s2, 2, Unlock);
    PcsUpdate(Idle, Idle, s2.pcs[2], WorkerIdle);
    ByPool(R, s2, Abandoned(Idle, WorkerIdle), 2, Finish);
  }

  /** Shutdown has closed the queue. */
  function Closing(w: PC): State {
    Abandoned(Idle, w).(mem := Abandoned(Idle, w).mem.(accepting := false, baseCanceled := true, closed := true),
                        shutdownBegun := true)
  }

  lemma ClosingReached(R: State -> bool)
    requires Closed(R)
    ensures R(Closing(WorkerIdle))
  {
    AbandonedReached(R);
    var s0 := Abandoned(Idle, WorkerIdle);
    var s1 := Abandoned(ShutdownStopping, WorkerIdle).(mem := StopIntakeSection(s0.mem), shutdownBegun := true);
    PcsUpdate(Idle, Idle, WorkerIdle, ShutdownStopping);
    ByShutdown(R, s0, s1, 0, BeginShutdown);
    PcsUpdate(ShutdownStopping, Idle, WorkerIdle, Idle);
    ByShutdown(R, s1, Closing(WorkerIdle), 0, CloseQueue);
  }

  lemma ExitedReached(R: State -> bool)
    requires Closed(R)
    ensures R(Closing(WorkerExited))
  {
    ClosingReached(R);
    PcsUpdate(Idle, Idle, WorkerIdle, WorkerExited);
    ByPool(R, Closing(WorkerIdle), Closing(WorkerExited), 2, Exit);
  }

  lemma DrainAfterAbandoning(R: State -> bool) returns (s: State)
    requires Closed(R)
    ensures R(s) && s.drained && 5 in s.mem.store && s.mem.store[5].state.JobQueued?
  {
    ExitedReached(R);
    s := Closing(WorkerExited).(drained := true);
    assert !InGroup(Idle) && !InGroup(WorkerExited);
    ByShutdown(R, Closing(WorkerExited), s, 0, Drain);
  }

  /** The drain can leave a job queued: nothing retries a worker's failed read. */
  lemma DrainMayLeaveQueued() returns (s: State)
    ensures Reachable(C, s) && s.drained && 5 in s.mem.store && s.mem.store[5].state.JobQueued?
  {
    ReachableIsClosed();
    s := DrainAfterAbandoning(s => Reachable(C, s));
  }

  // ---------------------------------------------------------------- an upload that rolls back under a download

  function Sharing(a: PC, b: PC): State {
    Creating(a).(mem := Creating(a).mem.(leases := map[5 := 2]), pcs := Pcs(a, b, WorkerIdle))
  }

  lemma LeaseLoadedReached(R: State -> bool)
    requires Closed(R)
    ensures R(Creating(Receiving(5)).(pcs := Pcs(Receiving(5), LeaseLoaded(5, Download), WorkerIdle)))
  {
    CreatingReached(R);
    var s0 := Creating(Receiving(5));
    var s1 := s0.(pcs := Pcs(Receiving(5), LeaseLocked(5, Download), WorkerIdle));
    PcsUpdate(Receiving(5), Idle, WorkerIdle, s1.pcs[1]);
    Unlocked(s0, Receiving(5), Idle, WorkerIdle);
    ByLeasing(R, s0, s1, 1, BeginLease(5));
    var s2 := s0.(pcs := Pcs(Receiving(5), LeaseLoaded(5, Download), WorkerIdle));
    PcsUpdate(Receiving(5), s1.pcs[1], WorkerIdle, s2.pcs[1]);
    ByLeasing(R, s1, s2, 1, LeaseLoad(Works));
  }

  lemma SharingReached(R: State -> bool)
    requires Closed(R)
    ensures R(Sharing(Receiving(5), Unlocking(5, ToHold(Download))))
  {
    LeaseLoadedReached(R);
    var s2 := Creating(Receiving(5)).(pcs := Pcs(Receiving(5), LeaseLoaded(5, Download), WorkerIdle));
    PcsUpdate(Receiving(5), s2.pcs[1], WorkerIdle, Unlocking(5, ToHold(Download)));
    ByLeasing(R, s2, Sharing(Receiving(5), Unlocking(5, ToHold(Download))), 1, LeaseCountUp);
  }

  lemma RollbackWhileSharing(R: State -> bool) returns (s: State, s': State)
    requires Closed(R)
    ensures R(s) && Step(C, s, s', 0, Uploads(Rollback(Removed)))
    ensures 5 in s.mem.store && 5 !in s'.mem.store
    ensures 1 in s.pcs && s.pcs[1] == Downloading(5) && LeaseCount(s.mem.leases, 5) == 2
  {
    SharingReached(R);
    var s0 := Sharing(Receiving(5), Unlocking(5, ToHold(Download)));
    var s1 := Sharing(Receiving(5), Downloading(5));
    PcsUpdate(Receiving(5), s0.pcs[1], WorkerIdle, Downloading(5));
    ByLeasing(R, s0, s1, 1, Unlock);
    s := Sharing(RollingBack(5), Downloading(5));
    PcsUpdate(Receiving(5), Downloading(5), WorkerIdle, RollingBack(5));
    ByUpload(R, s1, s, 0, ReceiveFails);
    s' := GoMem(s, 0, UploadDone(5), Unlink(s.mem, 5));
    assert UploadStep(C, s, s', 0, Rollback(Removed));
  }

  /** Accept's rollback can remove a job directory that a download holds leased. */
  lemma RollbackMayRemoveLeased() returns (s: State, s': State)
    ensures Reachable(C, s) && Step(C, s, s', 0, Uploads(Rollback(Removed)))
    ensures 5 in s.mem.store && 5 !in s'.mem.store
    ensures 1 in s.pcs && s.pcs[1] == Downloading(5) && LeaseCount(s.mem.leases, 5) == 2
  {
    ReachableIsClosed();
    s, s' := RollbackWhileSharing(s => Reachable(C, s));
  }

  // ---------------------------------------------------------------- a result that cannot be saved

  function Leased5(pc: PC): State {
    Handed(pc).(mem := STARTED.(queued := 0, running := 1, leases := map[5 := 1]))
  }

  lemma LeasedReached(R: State -> bool)
    requires Closed(R)
    ensures R(Leased5(WorkerLeased(5, Some(0))))
  {
    LockedReached(R);
    var s0, s1 := Taken(LeaseLocked(5, Work(Some(0)))), Taken(LeaseLoaded(5, Work(Some(0))));
    PcsUpdate(Idle, Idle, s0.pcs[2], s1.pcs[2]);
    ByLeasing(R, s0, s1, 2, LeaseLoad(Works));
    var s2 := Leased5(Unlocking(5, ToHold(Work(Some(0)))));
    PcsUpdate(Idle, Idle, s1.pcs[2], s2.pcs[2]);
    ByLeasing(R, s1, s2, 2, LeaseCountUp);
    PcsUpdate(Idle, Idle, s2.pcs[2], WorkerLeased(5, Some(0)));
    ByLeasing(R, s2, Leased5(WorkerLeased(5, Some(0))), 2, Unlock);
  }

  /** At work on the claimed job, with the files lost so far. */
  function Working(pc: PC, m: Manifest, lost: set<FileId>): State {
    Leased5(pc).(mem := Leased5(pc).mem.(store := map[5 := m]), lost := map[5 := lost])
  }

  lemma ClaimedReached(R: State -> bool)
    requires Closed(R)
    ensures R(Working(WorkerLoop(5, Some(0), [1, 2]), RUNNING, {}))
  {
    LeasedReached(R);
    assert QueuedIds(RUNNING.files) == [1, 2] by {
      assert RUNNING.files[1..] == [Selected(2)];
      assert QueuedIds([Selected(2)]) == [2] + [];
    }
    PcsUpdate(Idle, Idle, WorkerLeased(5, Some(0)), WorkerLoop(5, Some(0), [1, 2]));
    KeyUpdate(QUEUED, RUNNING);
    Unlocked(Leased5(WorkerLeased(5, Some(0))), Idle, Idle, WorkerLeased(5, Some(0)));
    ByPool(R, Leased5(WorkerLeased(5, Some(0))), Working(WorkerLoop(5, Some(0), [1, 2]), RUNNING, {}), 2, Claim(Works));
  }

  lemma BeginsFiles()
    ensures BeginFile(RUNNING, 1, 0) == Ok(FIRST) && BeginFile(FIRST, 2, 0) == Ok(BOTH)
  {
    assert IndexOf(RUNNING.files, 1) == 0;
    assert RUNNING.files[0 := Begun(1)] == FIRST.files;
    assert FIRST.files[1..] == [Selected(2)];
    assert IndexOf([Selected(2)], 2) == 0;
    assert FIRST.files[1 := Begun(2)] == BOTH.files;
  }

  lemma FirstNext(R: State -> bool)
    requires Closed(R)
    ensures R(Working(WorkerBegin(5, Some(0), 1, [2]), RUNNING, {}))
  {
    ClaimedReached(R);
    assert [1, 2][1..] == [2];
    var s0, s1 := Working(WorkerLoop(5, Some(0), [1, 2]), RUNNING, {}),
        Working(WorkerBegin(5, Some(0), 1, [2]), RUNNING, {});
    PcsUpdate(Idle, Idle, s0.pcs[2], s1.pcs[2]);
    ByConversion(R, s0, s1, 2, LoopNext);
  }

  lemma FirstBegun(R: State -> bool)
    requires Closed(R)
    ensures R(Working(WorkerWaiting(5, Some(0), 1, [2]), FIRST, {}))
  {
    FirstNext(R);
    BeginsFiles();
    var s1 := Working(WorkerBegin(5, Some(0), 1, [2]), RUNNING, {});
    PcsUpdate(Idle, Idle, s1.pcs[2], WorkerWaiting(5, Some(0), 1, [2]));
    KeyUpdate(RUNNING, FIRST);
    Unlocked(s1, Idle, Idle, s1.pcs[2]);
    KeyUpdate<set<FileId>>({}, {});
    assert LostOf(s1, 5) - {1} == {};
    ByConversion(R, s1, Working(WorkerWaiting(5, Some(0), 1, [2]), FIRST, {}), 2, Begin(Works, 0));
  }

  const FAILURE := Failure(FailureConversion, "input")

  lemma FirstRecording(R: State -> bool)
    requires Closed(R)
    ensures R(Working(WorkerRecording(5, Some(0), 1, [2], FailureRecorded(FAILURE), true), FIRST, {}))
  {
    FirstBegun(R);
    var s0, s1 := Working(WorkerWaiting(5, Some(0), 1, [2]), FIRST, {}),
        Working(WorkerSlot(5, Some(0), 1, [2]), FIRST, {});
    PcsUpdate(Idle, Idle, s0.pcs[2], s1.pcs[2]);
    assert SlotHolders(s0.pcs) == {};
    ByConversion(R, s0, s1, 2, TakeSlot);
    var s2 := Working(WorkerRecording(5, Some(0), 1, [2], FailureRecorded(FAILURE), true), FIRST, {});
    PcsUpdate(Idle, Idle, s1.pcs[2], s2.pcs[2]);
    ByConversion(R, s1, s2, 2, SlotFails(FAILURE));
  }

  lemma FirstLost(R: State -> bool)
    requires Closed(R)
    ensures R(Working(WorkerLoop(5, Some(0), [2]), FIRST, {1}))
  {
    FirstRecording(R);
    var s0 := Working(WorkerRecording(5, Some(0), 1, [2], FailureRecorded(FAILURE), true), FIRST, {});
    var s1, s2 := Working(WorkerSlotRelease(5, Some(0), 1, [2]), FIRST, {1}),
        Working(WorkerLoop(5, Some(0), [2]), FIRST, {1});
    PcsUpdate(Idle, Idle, s0.pcs[2], s1.pcs[2]);
    KeyUpdate<set<FileId>>({}, {1});
    Unlocked(s0, Idle, Idle, s0.pcs[2]);
    assert LostOf(s0, 5) + {1} == {1};
    ByConversion(R, s0, s1, 2, Record(WriteFails, 0));
    PcsUpdate(Idle, Idle, s1.pcs[2], s2.pcs[2]);
    ByConversion(R, s1, s2, 2, ReleaseSlot);
  }

  lemma SecondNext(R: State -> bool)
    requires Closed(R)
    ensures R(Working(WorkerBegin(5, Some(0), 2, []), FIRST, {1}))
  {
    FirstLost(R);
    assert [2][1..] == [];
    var s0, s1 := Working(WorkerLoop(5, Some(0), [2]), FIRST, {1}), Working(WorkerBegin(5, Some(0), 2, []), FIRST, {1});
    PcsUpdate(Idle, Idle, s0.pcs[2], s1.pcs[2]);
    ByConversion(R, s0, s1, 2, LoopNext);
  }

  lemma SecondBegun(R: State -> bool)
    requires Closed(R)
    ensures R(Working(WorkerWaiting(5, Some(0), 2, []), BOTH, {1}))
  {
    SecondNext(R);
    BeginsFiles();
    var s1 := Working(WorkerBegin(5, Some(0), 2, []), FIRST, {1});
    PcsUpdate(Idle, Idle, s1.pcs[2], WorkerWaiting(5, Some(0), 2, []));
    KeyUpdate(FIRST, BOTH);
    Unlocked(s1, Idle, Idle, s1.pcs[2]);
    KeyUpdate<set<FileId>>({1}, {1});
    assert LostOf(s1, 5) - {2} == {1};
    ByConversion(R, s1, Working(WorkerWaiting(5, Some(0), 2, []), BOTH, {1}), 2, Begin(Works, 0));
  }

  /** Two files of one job can be marked running at once: when the first one's
      result could not be saved, its record stays running. */
  lemma TwoFilesMayRun() returns (s: State)
    ensures Reachable(C, s) && 5 in s.mem.store && s.mem.store[5].state.JobRunning?
    ensures RunningFiles(s.mem.store[5]) == {1, 2}
  {
    ReachableIsClosed();
    SecondBegun(s => Reachable(C, s));
    s := Working(WorkerWaiting(5, Some(0), 2, []), BOTH, {1});
    assert BOTH.files[0].id == 1 && BOTH.files[1].id == 2;
  }
}
