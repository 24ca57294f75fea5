/** What the engine guarantees over every run: the statements a maintainer would
    look up.  Where a promise has an exception, the exact condition is proved. */
module EngineTheorems {
  import opened Options
  import opened Profiles
  import opened Manifests
  import opened Engine
  import opened EngineInvariants
  import opened EngineSteps

  // ---------------------------------------------------------------- ownership

  /** A started job is in one place: no identifier is queued twice, none is queued
      and held, and none is held by two threads. */
  lemma OneOwner(c: Config, states: seq<State>, i: nat, id: JobId)
    requires Run(c, states) && i < |states|
    ensures var s := states[i]; var q := s.mem.queue;
      && (forall j, k :: 0 <= j < k < |q| ==> q[j] != id || q[k] != id)
      && (forall t :: t in s.pcs && TokenOf(s.pcs[t]) == Some(id) ==> id !in q)
      && (forall t, u :: t in s.pcs && u in s.pcs && TokenOf(s.pcs[t]) == Some(id) && TokenOf(s.pcs[u]) == Some(id) ==>
          t == u)
  {
    RunPlaces(c, states, i);
  }

  /** The owner fits the stored state: a queued job is queued or with a worker that
      has not claimed it, a running job is with the worker that claimed it, and a
      pending job is with nobody.  The exception is a job one of whose worker's own
      reads or saves failed: while it is stored as active it is not queued, and nobody
      has it but possibly the worker that has given it up. */
  lemma OwnerFitsState(c: Config, states: seq<State>, i: nat, id: JobId)
    requires Run(c, states) && i < |states| && id in states[i].mem.store
    ensures var s := states[i]; var state := s.mem.store[id].state;
      && (state.JobQueued? && id !in s.dropped ==>
            id in s.mem.queue || exists t :: t in s.pcs && TokenOf(s.pcs[t]) == Some(id) && BeforeClaim(s.pcs[t]))
      && (state.JobRunning? && id !in s.dropped ==> exists t :: t in s.pcs && ClaimOf(s.pcs[t]) == Some(id))
      && (state.JobPending? ==> id !in s.mem.queue && forall t :: t in s.pcs ==> TokenOf(s.pcs[t]) != Some(id))
      && (state.Active() && id in s.dropped ==>
            id !in s.mem.queue
            && forall t :: t in s.pcs && TokenOf(s.pcs[t]) == Some(id) ==> AfterClaim(s.pcs[t]))
  {
    RunPlaces(c, states, i);
    RunJob(c, states, i, id);
    var s := states[i];
    if s.mem.store[id].state.Active() && id !in s.dropped && s.place[id].At? {
      var t := s.place[id].thread;
      assert t in s.pcs && TokenOf(s.pcs[t]) == Some(id);
    }
  }

  /** The files marked running in a running job are exactly the one its worker is
      at and those whose result could not be saved; so there is at most one when
      every result was saved. */
  lemma RunningFilesExact(c: Config, states: seq<State>, i: nat, id: JobId)
    requires Run(c, states) && i < |states| && id in states[i].mem.store
    requires states[i].mem.store[id].state.JobRunning?
    ensures var s := states[i];
      && RunningFiles(s.mem.store[id]) == LostOf(s, id) + Current(s, id)
      && |Current(s, id)| <= 1
      && (LostOf(s, id) == {} ==> |RunningFiles(s.mem.store[id])| <= 1)
  {
    RunJob(c, states, i, id);
    var s := states[i];
    if Current(s, id) != {} {
      assert Current(s, id) == {s.pcs[s.place[id].thread].file};
    }
    if LostOf(s, id) == {} {
      assert RunningFiles(s.mem.store[id]) == Current(s, id);
    }
  }

  /** Once the drain is observed no thread answers for a job and nothing is queued. */
  lemma DrainedIsEmpty(c: Config, states: seq<State>, i: nat)
    requires Run(c, states) && i < |states| && states[i].drained
    ensures states[i].mem.queue == []
    ensures forall t :: t in states[i].pcs ==> !Answers(states[i].pcs[t])
  {
    RunShutdown(c, states, i);
    RunMutex(c, states, i);
    var s := states[i];
    var w :| w in s.pcs && IsWorker(s.pcs[w]);
    assert !InGroup(s.pcs[w]);
    assert s.pcs[w].WorkerExited?;
  }

  /** The jobs still stored as queued or running after the drain are exactly the
      unfinished ones whose worker failed to read or save them, less those canceled
      afterwards. */
  lemma DrainedActiveIff(c: Config, states: seq<State>, i: nat, id: JobId)
    requires Run(c, states) && i < |states| && states[i].drained && id in states[i].mem.store
    ensures states[i].mem.store[id].state.Active() <==> id in states[i].dropped
  {
    DrainedIsEmpty(c, states, i);
    RunPlaces(c, states, i);
    RunJob(c, states, i, id);
  }

  /** With no failed read or save in a worker, a drained service leaves nothing
      queued or running. */
  lemma DrainedMeansDone(c: Config, states: seq<State>, i: nat, id: JobId)
    requires Run(c, states) && i < |states| && states[i].drained && states[i].dropped == {}
    requires id in states[i].mem.store
    ensures !states[i].mem.store[id].state.Active()
  {
    DrainedActiveIff(c, states, i, id);
  }

  /** The step that puts a job identifier on the queue. */
  ghost predicate Enqueues(s: State, s': State, id: JobId) {
    s'.mem.queue == s.mem.queue + [id]
  }

  /** Past its only chance to be sent. */
  ghost predicate NeverAgain(s: State, id: JobId) {
    id in s.place && forall t :: t in s.pcs ==> s.pcs[t] != StartSending(id)
  }

  lemma EnqueueShape(c: Config, s: State, s': State, t: Tid, id: JobId)
    requires Moves(s, s', t) && PlaceShape(s, s', t) && MutexShape(c, s, s', t) && MutexOK(c, s)
    requires Enqueues(s, s', id)
    ensures s.pcs[t] == StartSending(id)
    ensures NeverAgain(s', id)
  {
    assert |s'.mem.queue| == |s.mem.queue| + 1;
    assert s'.mem.queue[|s.mem.queue|] == id;
    assert s.pcs[t].StartSending? && s.pcs[t].id == id;
    forall u | u in s'.pcs ensures s'.pcs[u] != StartSending(id) {
      if u != t {
        assert s'.pcs[u] == s.pcs[u];
        assert s.pcs[u].StartSending? ==> u == t;
      }
    }
  }

  lemma NeverAgainShape(s: State, s': State, t: Tid, id: JobId)
    requires Moves(s, s', t) && PlaceShape(s, s', t) && NeverAgain(s, id)
    ensures NeverAgain(s', id)
  {
    forall u | u in s'.pcs ensures s'.pcs[u] != StartSending(id) {
      if u != t {
        assert s'.pcs[u] == s.pcs[u];
      } else {
        assert BeforeClaim(StartSending(id));
      }
    }
  }

  lemma NeverAgainStep(c: Config, states: seq<State>, i: nat, id: JobId)
    requires Run(c, states) && i < |states| - 1 && NeverAgain(states[i], id)
    ensures NeverAgain(states[i + 1], id)
  {
    var t := RunStep(c, states, i);
    NeverAgainShape(states[i], states[i + 1], t, id);
  }

  lemma {:induction false} NeverAgainRun(c: Config, states: seq<State>, i: nat, j: nat, id: JobId)
    requires Run(c, states) && i <= j < |states| && NeverAgain(states[i], id)
    ensures NeverAgain(states[j], id)
  {
    if i < j {
      NeverAgainRun(c, states, i, j - 1, id);
      NeverAgainStep(c, states, j - 1, id);
    }
  }

  /** Each job identifier enters the queue at most once. */
  lemma EnqueuedAtMostOnce(c: Config, states: seq<State>, i: nat, j: nat, id: JobId)
    requires Run(c, states) && i < j < |states| - 1
    requires Enqueues(states[i], states[i + 1], id)
    ensures !Enqueues(states[j], states[j + 1], id)
  {
    RunMutex(c, states, i);
    var t := RunStep(c, states, i);
    EnqueueShape(c, states[i], states[i + 1], t, id);
    NeverAgainRun(c, states, i + 1, j, id);
    if Enqueues(states[j], states[j + 1], id) {
      RunMutex(c, states, j);
      var u := RunStep(c, states, j);
      EnqueueShape(c, states[j], states[j + 1], u, id);
      assert false;
    }
  }

  // ---------------------------------------------------------------- leases

  lemma RemovalShape(s: State, s': State, t: Tid, id: JobId)
    requires LeasesOK(s) && QuietOK(s) && Moves(s, s', t) && StoreShape(s, s', t)
    requires id in s.mem.store && id !in s'.mem.store
    ensures LeaseCount(s.mem.leases, id) == 0 <==> !s.pcs[t].RollingBack?
    ensures LeaseCount(s.mem.leases, id) == 0 ==> forall u :: u in s.pcs ==> LeaseOf(s.pcs[u]) != Some(id)
  {
    assert id == Act(s, s', t);
    if s.pcs[t].RollingBack? {
      HolderIsCounted(s, t, id);
    } else {
      assert QuietOf(s.pcs[t]) == Some(id);
    }
    forall u | u in s.pcs && LeaseCount(s.mem.leases, id) == 0 ensures LeaseOf(s.pcs[u]) != Some(id) {
      assert LeaseHolders(s.pcs, id) == {};
      assert u !in LeaseHolders(s.pcs, id);
    }
  }

  /** A stored job disappears with its lease count at zero, hence with no thread
      converting, probing or downloading it, except exactly when the step is an
      upload rolling back its own job. */
  lemma RemovalUnleasedIff(c: Config, states: seq<State>, i: nat, id: JobId) returns (t: Tid)
    requires Run(c, states) && i < |states| - 1
    requires id in states[i].mem.store && id !in states[i + 1].mem.store
    ensures Moves(states[i], states[i + 1], t)
    ensures LeaseCount(states[i].mem.leases, id) == 0 <==> !states[i].pcs[t].RollingBack?
    ensures LeaseCount(states[i].mem.leases, id) == 0 ==>
              forall u :: u in states[i].pcs ==> LeaseOf(states[i].pcs[u]) != Some(id)
  {
    RunLeases(c, states, i);
    t := RunStep(c, states, i);
    RemovalShape(states[i], states[i + 1], t, id);
  }

  /** The lease table never drifts from the threads that hold leases. */
  lemma LeasesExact(c: Config, states: seq<State>, i: nat, id: JobId)
    requires Run(c, states) && i < |states|
    ensures LeaseCount(states[i].mem.leases, id) == |LeaseHolders(states[i].pcs, id)|
  {
    RunLeases(c, states, i);
  }

  // ---------------------------------------------------------------- terminal states

  /** Every stored manifest of every reachable state is consistent. */
  lemma StoredManifestsConsistent(c: Config, states: seq<State>, i: nat, id: JobId)
    requires Run(c, states) && i < |states| && id in states[i].mem.store
    ensures var m := states[i].mem.store[id];
      && (forall k :: 0 <= k < |m.files| ==>
            var f := m.files[k];
            && (m.state.Terminal() ==> f.state.Terminal())
            && (f.state.Terminal() <==> f.finishedAt.Some?)
            && (f.output.Some? <==> f.state.FileCompleted?)
            && (f.error.Some? <==> f.state.FileFailed? || f.state.FileCanceled? || f.state.FileInterrupted?)
            && (f.state.FileQueued? || f.state.FileRunning? || f.state.FileCompleted? ==> f.selected in f.compatible))
      && (m.state.JobCompleted? ==> HasFile(m.files, FileCompleted))
      && (m.state.JobFailed? ==> HasFile(m.files, FileFailed) && !HasFile(m.files, FileCompleted))
      && m.totalBytes == SumSizes(m.files)
  {
    RunJob(c, states, i, id);
    var m := states[i].mem.store[id];
    forall k | 0 <= k < |m.files| ensures FileOK(m.files[k]) && StateFits(m.state, m.files[k].state) {}
  }

  ghost predicate FrozenAfter(m: Manifest, m': Manifest) {
    && m'.state == m.state
    && (m.files != [] ==> m' == m)
  }

  lemma TerminalShape(s: State, s': State, t: Tid, id: JobId)
    requires Moves(s, s', t) && StoreShape(s, s', t)
    requires id in s.mem.store && id in s'.mem.store && s.mem.store[id].state.Terminal()
    ensures FrozenAfter(s.mem.store[id], s'.mem.store[id])
  {
    if id != Act(s, s', t) {
      assert s'.mem.store[id] == s.mem.store[id];
    }
  }

  lemma StoredShape(s: State, s': State, t: Tid, id: JobId)
    requires Moves(s, s', t) && StoreShape(s, s', t) && KnownShape(s, s', t) && id in s.minted
    ensures id in s'.mem.store ==> id in s.mem.store
    ensures id in s'.minted
  {
    if id != Act(s, s', t) {
      assert id in s'.mem.store <==> id in s.mem.store;
    }
  }

  lemma StoredStep(c: Config, states: seq<State>, i: nat, id: JobId)
    requires Run(c, states) && i < |states| - 1 && id in states[i].minted
    ensures id in states[i + 1].mem.store ==> id in states[i].mem.store
    ensures id in states[i + 1].minted
  {
    var t := RunStep(c, states, i);
    StoredShape(states[i], states[i + 1], t, id);
  }

  lemma TerminalStep(c: Config, states: seq<State>, i: nat, id: JobId)
    requires Run(c, states) && i < |states| - 1
    requires id in states[i].mem.store && states[i].mem.store[id].state.Terminal() && id in states[i + 1].mem.store
    ensures FrozenAfter(states[i].mem.store[id], states[i + 1].mem.store[id])
  {
    var t := RunStep(c, states, i);
    TerminalShape(states[i], states[i + 1], t, id);
  }

  lemma {:induction false} MintedStays(c: Config, states: seq<State>, i: nat, j: nat, id: JobId)
    requires Run(c, states) && i <= j < |states| && id in states[i].minted
    ensures id in states[j].minted
  {
    if i < j {
      MintedStays(c, states, i, j - 1, id);
      StoredStep(c, states, j - 1, id);
    }
  }

  /** A terminal job never changes again: its state stays, and once it lists files
      the whole record stays.  (A job canceled while still probing lists its files,
      all of them finished, only when its upload ends.) */
  lemma {:induction false} TerminalJobsAreFrozen(c: Config, states: seq<State>, i: nat, j: nat, id: JobId)
    requires Run(c, states) && i <= j < |states|
    requires id in states[i].mem.store && states[i].mem.store[id].state.Terminal()
    requires id in states[j].mem.store
    ensures FrozenAfter(states[i].mem.store[id], states[j].mem.store[id])
  {
    if i < j {
      RunKnown(c, states, i);
      MintedStays(c, states, i, j - 1, id);
      StoredStep(c, states, j - 1, id);
      TerminalJobsAreFrozen(c, states, i, j - 1, id);
      TerminalStep(c, states, j - 1, id);
    }
  }

  // ---------------------------------------------------------------- queue, gauges and slots

  /** Start's send always finds the slot it checked and an open channel. */
  lemma StartNeverBlocks(c: Config, states: seq<State>, i: nat, t: Tid)
    requires Run(c, states) && i < |states| && t in states[i].pcs && states[i].pcs[t].StartSending?
    ensures |states[i].mem.queue| < c.queueDepth && !states[i].mem.closed
    ensures exists s' :: StartingStep(c, states[i], s', t, StartSend)
  {
    RunMutex(c, states, i);
    var s := states[i];
    var s' := GoMem(s, t, Unlocking(s.pcs[t].id, ToIdle), SendSection(s.mem, s.pcs[t].id)).(
                place := s.place[s.pcs[t].id := InQueue]);
    assert StartingStep(c, s, s', t, StartSend);
  }

  /** Whenever the mutex is free, the queued gauge is the queue plus the workers
      between receiving and counting, the running gauge is the workers after that,
      and the process ceiling holds. */
  lemma GaugesExact(c: Config, states: seq<State>, i: nat)
    requires Run(c, states) && i < |states| && MutexFree(states[i])
    ensures var s := states[i];
      && s.mem.queued == |s.mem.queue| + |set t | t in s.pcs && s.pcs[t].WorkerReceived?|
      && s.mem.running == |RunHolders(s.pcs)|
      && |SlotHolders(s.pcs)| <= c.processes
      && |s.mem.queue| <= c.queueDepth
  {
    RunKeeps(c, states, i);
    var s := states[i];
    assert QueueHolders(s.pcs) == set t | t in s.pcs && s.pcs[t].WorkerReceived?;
  }

  /** After shutdown began no upload joins the wait group and no start is accepted. */
  lemma NothingJoinsAfterShutdown(c: Config, states: seq<State>, i: nat, t: Tid)
    requires Run(c, states) && i < |states| - 1 && states[i].shutdownBegun
    requires t in states[i].pcs
    ensures t in states[i + 1].pcs
    ensures InGroup(states[i + 1].pcs[t]) ==> InGroup(states[i].pcs[t])
    ensures states[i + 1].pcs[t].StartSending? ==> states[i].pcs[t].StartSending?
    ensures states[i + 1].shutdownBegun
  {
    RunShutdown(c, states, i);
    var u := RunStep(c, states, i);
    if t != u {
      assert states[i + 1].pcs[t] == states[i].pcs[t];
    }
  }

  // ---------------------------------------------------------------- cancellation

  /** While a worker has the job, signaling the job's registered control cancels
      the very context that worker converts under. */
  lemma CancelReachesWorker(c: Config, states: seq<State>, i: nat, w: Tid)
    requires Run(c, states) && i < |states| && w in states[i].pcs
    requires ControlTaken(states[i].pcs[w]).Some?
    requires states[i].pcs[w].id in states[i].mem.store
    ensures var s := states[i];
      Canceled(SignalSection(s.mem, s.pcs[w].id), ControlTaken(s.pcs[w]).value)
  {
    RunKeeps(c, states, i);
    var s := states[i];
    assert TokenOf(s.pcs[w]) == Some(s.pcs[w].id);
    assert ControlFits(s, s.pcs[w], s.pcs[w].id);
  }
}
