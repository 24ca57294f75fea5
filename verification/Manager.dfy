/** The manager object: the fields its mutex guards, and its methods.

    Each method below is one critical section, or one operation run without
    interference; its contract ties the fields to the section functions of
    `Engine`, which interleaves exactly those sections.  Access to the data
    directory succeeds or fails as the `io` arguments say. */
module Manager {
  import opened Options
  import opened Profiles
  import opened Manifests
  import opened ManifestLoops
  import Engine

  class Manager {
    const queueDepth: nat
    const jobTTL: Time
    var accepting: bool
    var closed: bool
    var baseCanceled: bool
    var canceled: set<Engine.Ctl>
    var nextCtl: Engine.Ctl
    var controls: map<JobId, Engine.Ctl>
    var leases: map<JobId, nat>
    var queue: seq<JobId>
    var queued: int
    var running: int
    var store: map<JobId, Manifest>

    function View(): Engine.Shared
      reads this
    {
      Engine.Shared(accepting, closed, baseCanceled, canceled, nextCtl, controls, leases, queue, queued, running, store)
    }

    constructor (queueDepth: nat, jobTTL: Time, store: map<JobId, Manifest>)
      ensures this.queueDepth == queueDepth && this.jobTTL == jobTTL
      ensures View() == Engine.Shared(true, false, false, {}, 0, map[], map[], [], 0, 0, store)
    {
      this.queueDepth, this.jobTTL, this.store := queueDepth, jobTTL, store;
      accepting, closed, baseCanceled, canceled, nextCtl := true, false, false, {}, 0;
      controls, leases, queue, queued, running := map[], map[], [], 0, 0;
    }

    // -------------------------------------------------------------- leases

    method AcquireLease(id: JobId)
      modifies this`leases
      ensures View() == Engine.AcquireLease(old(View()), id)
      ensures forall k: JobId ::
                Engine.LeaseCount(leases, k) == Engine.LeaseCount(old(leases), k) + if k == id then 1 else 0
    {
      if id in leases {
        leases := leases[id := leases[id] + 1];
      } else {
        leases := leases[id := 1];
      }
    }

    method ReleaseLease(id: JobId)
      modifies this`leases
      ensures View() == Engine.ReleaseLease(old(View()), id)
      ensures forall k: JobId :: var was := Engine.LeaseCount(old(leases), k);
                Engine.LeaseCount(leases, k) == if k == id && was > 0 then was - 1 else was
      ensures Engine.LeaseCount(leases, id) == 0 ==> id !in leases
    {
      if id !in leases || leases[id] <= 1 {
        leases := leases - {id};
        return;
      }
      leases := leases[id := leases[id] - 1];
    }

    // -------------------------------------------------------------- requests

    /** Start, under the job lock and the mutex: either the job is stored as queued,
        counted, given a control and put at the end of the queue, or nothing changes. */
    method Start(id: JobId, selections: map<FileId, Operation>, io: Engine.IO) returns (r: Result<Manifest, JobError>)
      requires |queue| <= queueDepth
      modifies this
      ensures |queue| <= queueDepth
      ensures match Engine.StartSection(old(View()), id, selections, queueDepth, io)
              case Err(e) => r == Err(e) && View() == old(View())
              case Ok(mem) => id in mem.store && r == Ok(mem.store[id]) && View() == Engine.SendSection(mem, id)
    {
      if !accepting {
        return Err(ShuttingDown);
      }
      if id !in store {
        return Err(NotFound);
      }
      if io.ReadFails? {
        return Err(StorageFailed);
      }
      var m := store[id];
      var started := Started(m, selections, |queue| != queueDepth);
      if started.Err? {
        return started;
      }
      if io.WriteFails? {
        return Err(StorageFailed);
      }
      m := started.value;
      store := store[id := m];
      controls := controls[id := nextCtl];
      nextCtl := nextCtl + 1;
      queued := queued + 1;
      queue := queue + [id];
      return Ok(m);
    }

    /** Signals the registered control of a job, if it has one. */
    method Signal(id: JobId)
      modifies this`canceled
      ensures View() == Engine.SignalSection(old(View()), id)
      ensures if id in controls then Engine.Canceled(View(), Some(controls[id])) else canceled == old(canceled)
    {
      if id in controls {
        canceled := canceled + {controls[id]};
      }
    }

    /** Cancel, under the job lock.  The control is signaled before the manifest is
        written, and stays signaled when writing fails. */
    method Cancel(id: JobId, now: Time, io: Engine.IO) returns (r: Result<Manifest, JobError>)
      modifies this`canceled, this`store
      ensures id !in old(store) ==> r == Err(NotFound) && View() == old(View())
      ensures id in old(store) && io.ReadFails? ==> r == Err(StorageFailed) && View() == old(View())
      ensures id in old(store) && !io.ReadFails? && old(store[id]).state.Terminal() ==>
                r == Ok(old(store[id])) && View() == old(View())
      ensures id in old(store) && !io.ReadFails? && !old(store[id]).state.Terminal() ==>
                var mem := Engine.SignalSection(old(View()), id);
                if io.Works? then
                  && r == Ok(CancelManifest(old(store[id]), now))
                  && View() == Engine.Save(mem, id, CancelManifest(old(store[id]), now))
                else r == Err(StorageFailed) && View() == mem
    {
      if id !in store {
        return Err(NotFound);
      }
      if io.ReadFails? {
        return Err(StorageFailed);
      }
      var m := store[id];
      if m.state.Terminal() {
        return Ok(m);
      }
      Signal(id);
      if io.WriteFails? {
        return Err(StorageFailed);
      }
      var files := new File[|m.files|](i requires 0 <= i < |m.files| => m.files[i]);
      assert files[..] == m.files;
      CancelLoop(files, now);
      m := m.(files := files[..], state := JobCanceled);
      store := store[id := m];
      return Ok(m);
    }

    /** Creation and the upload's own lease are one section, so no sweep sees the job
        unleased. */
    method Create(id: JobId, now: Time)
      requires id !in store
      modifies this`store, this`leases
      ensures View() == Engine.CreateSection(old(View()), id, now, jobTTL)
      ensures Engine.Leased(View(), id)
    {
      store := store[id := CreatedManifest(id, now, jobTTL)];
      AcquireLease(id);
    }

    /** An upload's last update: publishes its probed files and their total size. */
    method Merge(id: JobId, files: seq<File>, now: Time)
      requires id in store
      modifies this`store
      ensures View() == Engine.Save(old(View()), id, MergeManifest(old(store[id]), files, SumSizes(files), now))
    {
      var m := store[id];
      var merged := new File[|files|](i requires 0 <= i < |files| => files[i]);
      assert merged[..] == files;
      var total := SumLoop(files);
      if m.state.JobCanceled? {
        MergeLoop(merged, now);
      }
      store := store[id := m.(files := merged[..], totalBytes := total)];
    }

    // -------------------------------------------------------------- the worker

    method Take() returns (id: JobId, ctl: Option<Engine.Ctl>)
      requires queue != []
      modifies this`queue, this`queued, this`running
      ensures id == old(queue)[0] && ctl == Engine.ControlOf(old(View()), id)
      ensures View() == Engine.TakeSection(old(View()).(queue := old(queue)[1..]))
      ensures queued + running == old(queued + running) && old(queue) == [id] + queue
    {
      id, queue := queue[0], queue[1..];
      queued := queued - 1;
      running := running + 1;
      ctl := if id in controls then Some(controls[id]) else None;
    }

    method Finish(id: JobId, ctl: Option<Engine.Ctl>)
      modifies this`running, this`controls, this`canceled
      ensures View() == Engine.FinishSection(old(View()), id, ctl)
      ensures id !in controls && (ctl.Some? ==> Engine.Canceled(View(), ctl))
    {
      running := running - 1;
      controls := controls - {id};
      if ctl.Some? {
        canceled := canceled + {ctl.value};
      }
    }

    method Finalize(id: JobId, wasCanceled: bool, now: Time)
      requires id in store
      modifies this`store
      ensures View() == Engine.Save(old(View()), id, FinalizeManifest(old(store[id]), wasCanceled, now))
    {
      var m := store[id];
      if m.state.Terminal() {
        assert store == store[id := m];
        return;
      }
      var files := new File[|m.files|](i requires 0 <= i < |m.files| => m.files[i]);
      assert files[..] == m.files;
      var state := FinalizeLoop(files, wasCanceled, now);
      store := store[id := m.(files := files[..], state := state)];
    }

    /** One queued file taken to its outcome by a worker nobody interferes with. */
    method ConvertFile(id: JobId, file: FileId, outcome: Outcome, now: Time)
      requires id in store && ManifestOK(store[id]) && store[id].state.JobRunning?
      requires var i := IndexOf(store[id].files, file);
        i < |store[id].files| && store[id].files[i].state.FileQueued?
      modifies this`store
      ensures var m := old(store[id]); var i := IndexOf(m.files, file);
        store == old(store)[id := m.(files := m.files[i := DoneFile(m.files[i], outcome, now)])]
      ensures ManifestOK(store[id])
    {
      var m := store[id];
      BeginFileKeeps(m, file, now);
      m := BeginFile(m, file, now).value;
      store := store[id := m];
      RecordsBegun(old(store[id]), file, outcome, now);
      RecordKeeps(m, file, outcome, now);
      store := store[id := RecordOutcome(m, file, outcome, now)];
    }

    /** The worker's pass over the files it claimed. */
    method ConvertFiles(id: JobId, claimed: Manifest, outcomes: map<FileId, Outcome>, now: Time)
      requires id in store && store[id] == claimed && ManifestOK(claimed) && claimed.state.JobRunning?
      requires forall f :: f in claimed.files && f.state.FileQueued? ==> f.id in outcomes
      modifies this`store
      ensures store ==
              old(store)[id := claimed.(files := ProcessedPrefix(claimed.files, outcomes, now, |claimed.files|))]
    {
      assert ProcessedPrefix(claimed.files, outcomes, now, 0) == claimed.files;
      assert store[id := claimed] == store;
      var i := 0;
      while i < |claimed.files|
        invariant 0 <= i <= |claimed.files|
        invariant store == old(store)[id := claimed.(files := ProcessedPrefix(claimed.files, outcomes, now, i))]
        invariant ManifestOK(store[id])
      {
        var f := claimed.files[i];
        if f.state.FileQueued? {
          IndexOfSlot(store[id].files, i);
          ConvertFile(id, f.id, outcomes[f.id], now);
        }
        assert store[id].files == ProcessedPrefix(claimed.files, outcomes, now, i + 1);
        i := i + 1;
      }
    }

    /** `process` for a job that is neither canceled nor interfered with, whose every
        conversion ends as `outcomes` says: every queued file gets its own outcome,
        the others are untouched, and the job's final state follows from them. */
    method Process(id: JobId, outcomes: map<FileId, Outcome>, now: Time)
      requires id in store && ManifestOK(store[id]) && store[id].state.JobQueued?
      requires forall f :: f in store[id].files && f.state.FileQueued? ==> f.id in outcomes
      modifies this`leases, this`store
      ensures Engine.LeaseCount(old(leases), id) > 0 ==> leases == old(leases)
      ensures Engine.LeaseCount(old(leases), id) == 0 ==> leases == old(leases) - {id}
      ensures store == old(store)[id := FinalizeManifest(ProcessedManifest(old(store[id]), outcomes, now), false, now)]
    {
      AcquireLease(id);
      ghost var m := store[id];
      var claimed := ClaimManifest(store[id]).value;
      ClaimKeeps(store[id]);
      store := store[id := claimed];
      ConvertFiles(id, claimed, outcomes, now);
      assert store == old(store)[id := ProcessedManifest(m, outcomes, now)];
      Finalize(id, false, now);
      ghost var held := View();
      ReleaseLease(id);
      LeaseUndone(old(View()), held, id);
    }

    // -------------------------------------------------------------- removal

    /** The sweep, run without interference: exactly the expired, inactive, unleased
        jobs go, with their controls. */
    method CleanupExpired(now: Time) returns (removed: set<JobId>)
      modifies this`store, this`controls
      ensures removed == set id | id in old(store) && old(store)[id].Expired(now) && !old(store)[id].state.Active()
                                  && !Engine.Leased(old(View()), id)
      ensures store == old(store) - removed && controls == old(controls) - removed
    {
      removed := {};
      var todo := store.Keys;
      while todo != {}
        invariant todo <= store.Keys && todo !! removed
        invariant store == old(store) - removed && controls == old(controls) - removed
        invariant removed == set id | id in old(store) && id !in todo && old(store)[id].Expired(now)
                                      && !old(store)[id].state.Active() && !Engine.Leased(old(View()), id)
      {
        var id :| id in todo;
        todo := todo - {id};
        if store[id].Expired(now) && !(id in leases && leases[id] > 0) && !store[id].state.Active() {
          store := store - {id};
          controls := controls - {id};
          removed := removed + {id};
        }
      }
    }

    // -------------------------------------------------------------- startup and shutdown

    method StopIntake()
      modifies this`accepting
      ensures View() == Engine.StopIntakeSection(old(View()))
    {
      accepting := false;
    }

    method Shutdown()
      modifies this`accepting, this`baseCanceled, this`closed
      ensures View() == Engine.CloseSection(Engine.StopIntakeSection(old(View())))
      ensures !accepting && closed && forall ctl :: Engine.Canceled(View(), ctl)
    {
      StopIntake();
      baseCanceled := true;
      closed := true;
    }

    /** Startup recovery over a stored job list: afterwards every job is terminal,
        and those that already were are untouched.  `changed` is the unfinished ones. */
    method RecoverInterrupted(now: Time) returns (changed: set<JobId>)
      requires forall id :: id in store ==> store[id].id == id && ManifestOK(store[id])
      modifies this`store
      ensures changed == set id | id in old(store) && !old(store)[id].state.Terminal()
      ensures store.Keys == old(store).Keys
      ensures forall id :: id in store ==>
                store[id] == if id in changed then InterruptManifest(old(store)[id], now) else old(store)[id]
      ensures forall id :: id in store ==> store[id].id == id && ManifestOK(store[id]) && store[id].state.Terminal()
    {
      changed := {};
      var todo := store.Keys;
      while todo != {}
        invariant todo <= store.Keys && store.Keys == old(store).Keys
        invariant changed == set id | id in old(store) && id !in todo && !old(store)[id].state.Terminal()
        invariant forall id :: id in store ==>
                    store[id] == if id in changed then InterruptManifest(old(store)[id], now) else old(store)[id]
      {
        var id :| id in todo;
        todo := todo - {id};
        var m := store[id];
        if !m.state.Terminal() {
          var files := new File[|m.files|](i requires 0 <= i < |m.files| => m.files[i]);
          assert files[..] == m.files;
          InterruptLoop(files, now);
          store := store[id := m.(files := files[..], state := JobInterrupted, error := Some(INTERRUPTED))];
          changed := changed + {id};
        }
      }
      forall id | id in store ensures ManifestOK(store[id]) && store[id].state.Terminal() {
        InterruptKeeps(old(store)[id], now);
      }
    }
  }

  /** Releasing undoes acquiring, except that an entry of zero goes away. */
  lemma LeaseUndone(before: Engine.Shared, held: Engine.Shared, id: JobId)
    requires held.leases == Engine.AcquireLease(before, id).leases
    ensures Engine.ReleaseLease(held, id).leases ==
            if Engine.LeaseCount(before.leases, id) > 0 then before.leases else before.leases - {id}
  {
  }

  lemma StartOutcome(m: Manifest, selections: map<FileId, Operation>, slotFree: bool,
                     files: seq<File>, convertible: nat, refused: Option<JobError>)
    requires m.state.JobPending?
    requires refused.Some? ==> StartFiles(m.files, selections) == Err(refused.value)
    requires refused.None? ==> StartFiles(m.files, selections) == Ok(files)
    requires refused.None? ==> convertible == CountState(m.files, FileInspected)
    ensures StartManifest(m, selections, slotFree) ==
            if refused.Some? then Err(refused.value)
            else if convertible == 0 then Err(NoConvertibleFiles)
            else if !slotFree then Err(QueueFull)
            else Ok(m.(files := files, state := JobQueued))
  {
  }

  /** What Start does to the manifest it updates; a failure leaves the stored one. */
  method Started(m: Manifest, selections: map<FileId, Operation>, slotFree: bool) returns (r: Result<Manifest, JobError>)
    ensures r == StartManifest(m, selections, slotFree)
  {
    if !m.state.JobPending? {
      return Err(NotStartable);
    }
    var files := new File[|m.files|](i requires 0 <= i < |m.files| => m.files[i]);
    assert files[..] == m.files;
    var convertible, refused := StartLoop(files, selections);
    StartOutcome(m, selections, slotFree, files[..], convertible, refused);
    if refused.Some? {
      return Err(refused.value);
    }
    if convertible == 0 {
      return Err(NoConvertibleFiles);
    }
    if !slotFree {
      return Err(QueueFull);
    }
    return Ok(m.(files := files[..], state := JobQueued));
  }

  // ---------------------------------------------------------------- a job processed alone

  function DoneFile(f: File, outcome: Outcome, now: Time): File {
    FinishFile(f.(state := FileRunning, startedAt := Some(now)), outcome, now)
  }

  /** Beginning a queued file and recording its outcome, on its own slot. */
  lemma RecordsBegun(m: Manifest, file: FileId, outcome: Outcome, now: Time)
    requires m.state.JobRunning?
    requires var i := IndexOf(m.files, file); i < |m.files| && m.files[i].state.FileQueued?
    ensures var i := IndexOf(m.files, file);
      RecordOutcome(BeginFile(m, file, now).value, file, outcome, now)
      == m.(files := m.files[i := DoneFile(m.files[i], outcome, now)])
  {
    var i := IndexOf(m.files, file);
    var begun := BeginFile(m, file, now).value;
    IndexStays(m.files, begun.files, file);
    assert begun.files[i := DoneFile(m.files[i], outcome, now)] == m.files[i := DoneFile(m.files[i], outcome, now)];
  }

  function ProcessedFile(f: File, outcomes: map<FileId, Outcome>, now: Time): File {
    if f.state.FileQueued? && f.id in outcomes then DoneFile(f, outcomes[f.id], now) else f
  }

  function ProcessedPrefix(files: seq<File>, outcomes: map<FileId, Outcome>, now: Time, n: nat): (r: seq<File>)
    requires n <= |files|
    ensures |r| == |files|
  {
    seq(|files|, i requires 0 <= i < |files| => if i < n then ProcessedFile(files[i], outcomes, now) else files[i])
  }

  function ProcessedManifest(m: Manifest, outcomes: map<FileId, Outcome>, now: Time): Manifest {
    m.(state := JobRunning, files := ProcessedPrefix(m.files, outcomes, now, |m.files|))
  }

  lemma {:induction false} IndexOfSlot(files: seq<File>, i: nat)
    requires DistinctIds(files) && i < |files|
    ensures IndexOf(files, files[i].id) == i
  {
    assert files[IndexOf(files, files[i].id)].id == files[i].id;
  }

  lemma {:induction false} IndexStays(a: seq<File>, b: seq<File>, id: FileId)
    requires |a| == |b| && forall i :: 0 <= i < |a| ==> a[i].id == b[i].id
    ensures IndexOf(a, id) == IndexOf(b, id)
  {
    if a != [] && a[0].id != id {
      IndexStays(a[1..], b[1..], id);
    }
  }

  /** What an undisturbed job comes to: every file that was queued ends with its own
      outcome, and the job is completed exactly when some conversion succeeded;
      otherwise it is failed exactly when some file failed, at probing or later. */
  lemma ProcessedResult(m: Manifest, outcomes: map<FileId, Outcome>, now: Time)
    requires ManifestOK(m) && m.state.JobQueued?
    requires forall f :: f in m.files && f.state.FileQueued? ==> f.id in outcomes
    ensures var r := FinalizeManifest(ProcessedManifest(m, outcomes, now), false, now);
      && |r.files| == |m.files|
      && (forall i :: 0 <= i < |m.files| && m.files[i].state.FileQueued? ==>
            r.files[i] == DoneFile(m.files[i], outcomes[m.files[i].id], now))
      && (forall i :: 0 <= i < |m.files| && m.files[i].state.Terminal() ==> r.files[i] == m.files[i])
      && (r.state.JobCompleted? <==> exists f :: f in m.files && f.state.FileQueued? && outcomes[f.id].Converted?)
      && (r.state.JobFailed? <==> !r.state.JobCompleted? && HasFile(r.files, FileFailed))
  {
    var p := ProcessedManifest(m, outcomes, now);
    var r := FinalizeManifest(p, false, now);
    CountPositive(r.files, FileCompleted);
    CountPositive(r.files, FileFailed);
    forall i | 0 <= i < |m.files|
      ensures m.files[i].state.FileQueued? ==> r.files[i] == DoneFile(m.files[i], outcomes[m.files[i].id], now)
      ensures m.files[i].state.Terminal() ==> r.files[i] == m.files[i]
      ensures r.files[i].state.FileCompleted? <==> m.files[i].state.FileQueued? && outcomes[m.files[i].id].Converted?
    {
      assert m.files[i] in m.files;
      ProcessedFileResult(m, m.files[i], outcomes, now);
      assert r.files[i] == CancelFile(ProcessedFile(m.files[i], outcomes, now), now);
    }
    if f :| f in m.files && f.state.FileQueued? && outcomes[f.id].Converted? {
      var i :| 0 <= i < |m.files| && m.files[i] == f;
      assert r.files[i].state == FileCompleted;
    }
  }

  lemma ProcessedFileResult(m: Manifest, f: File, outcomes: map<FileId, Outcome>, now: Time)
    requires ManifestOK(m) && m.state.JobQueued? && f in m.files
    requires f.state.FileQueued? ==> f.id in outcomes
    ensures var r := CancelFile(ProcessedFile(f, outcomes, now), now);
      && (f.state.FileQueued? ==> r == DoneFile(f, outcomes[f.id], now))
      && (f.state.Terminal() ==> r == f)
      && (r.state.FileCompleted? <==> f.state.FileQueued? && outcomes[f.id].Converted?)
  {
    var i :| 0 <= i < |m.files| && m.files[i] == f;
    assert StateFits(m.state, m.files[i].state);
  }
}
