/** Finished file records over whole runs: whatever a run does in between, a file that
    was finished and is listed again is the very same record.  RemoveFile takes a record
    out and may put it back from memory, so what it remembers is followed too. */
module EngineFiles {
  import opened Options
  import opened Profiles
  import opened Manifests
  import opened Engine
  import opened EngineInvariants
  import opened EngineSteps

  /** The only record under the identifier of `f` is `f` itself. */
  ghost predicate Only(files: seq<File>, f: File) {
    forall k :: 0 <= k < |files| && files[k].id == f.id ==> files[k] == f
  }

  /** The files a thread could write back. */
  ghost function Remembers(pc: PC): seq<File> {
    if pc.RemoveLoaded? || pc.RemoveChecked? || pc.RemoveSaved? || pc.RemoveRollback? then pc.was.files else []
  }

  ghost predicate PCSettled(pc: PC, id: JobId, f: File) {
    HasJob(pc) && pc.id == id ==> !Uploading(pc) && Only(Remembers(pc), f)
  }

  ghost predicate StoreSettled(s: State, id: JobId, f: File) {
    id in s.mem.store ==> Only(s.mem.store[id].files, f)
  }

  /** Nothing stored or remembered for the job says anything else of the finished file,
      and no upload will list files for it. */
  ghost predicate Settled(s: State, id: JobId, f: File) {
    && f.state.Terminal() && id in s.minted
    && StoreSettled(s, id, f)
    && forall t :: t in s.pcs ==> PCSettled(s.pcs[t], id, f)
  }

  // ---------------------------------------------------------------- mutations keep finished files

  lemma StartSettles(m: Manifest, selections: map<FileId, Operation>, slotFree: bool, f: File)
    requires Only(m.files, f) && f.state.Terminal()
    ensures var r := StartManifest(m, selections, slotFree); r.Ok? ==> Only(r.value.files, f)
  {
  }

  lemma CancelSettles(m: Manifest, now: Time, f: File)
    requires Only(m.files, f) && f.state.Terminal()
    ensures Only(CancelFiles(m.files, now), f)
  {
  }

  lemma BeginSettles(m: Manifest, file: FileId, now: Time, f: File)
    requires Only(m.files, f) && f.state.Terminal()
    ensures var r := BeginFile(m, file, now); r.Ok? ==> Only(r.value.files, f)
  {
  }

  lemma RecordSettles(m: Manifest, file: FileId, outcome: Outcome, now: Time, f: File)
    requires Only(m.files, f) && f.state.Terminal()
    ensures Only(RecordOutcome(m, file, outcome, now).files, f)
  {
  }

  lemma RemovalSettles(m: Manifest, i: nat, f: File)
    requires Only(m.files, f) && i < |m.files|
    ensures Only(WithoutIndex(m, i).files, f)
  {
    var rest := WithoutFile(m.files, i);
    forall k | 0 <= k < |rest| && rest[k].id == f.id ensures rest[k] == f {
      assert rest[k] == m.files[if k < i then k else k + 1];
    }
  }

  // ---------------------------------------------------------------- every step keeps it settled

  /** One thread moved. */
  ghost predicate Kept(s: State, s': State, t: Tid, id: JobId, f: File) {
    && t in s.pcs && t in s'.pcs && s'.pcs == s.pcs[t := s'.pcs[t]] && s.minted <= s'.minted
    && StoreSettled(s', id, f) && PCSettled(s'.pcs[t], id, f)
  }

  lemma KeptSettles(s: State, s': State, t: Tid, id: JobId, f: File)
    requires Settled(s, id, f) && Kept(s, s', t, id, f)
    ensures Settled(s', id, f)
  {
  }

  /** A thread that remembers no record and uploads nothing. */
  ghost predicate Recalls(pc: PC) {
    || Uploading(pc)
    || pc.RemoveLoaded? || pc.RemoveChecked? || pc.RemoveSaved? || pc.RemoveRollback?
  }

  /** No manifest is written. */
  lemma NoSaveSettles(s: State, s': State, t: Tid, id: JobId, f: File)
    requires Settled(s, id, f) && t in s.pcs && t in s'.pcs && s'.pcs == s.pcs[t := s'.pcs[t]] && !Recalls(s'.pcs[t])
    requires s.minted == s'.minted
    requires s'.mem.store.Keys <= s.mem.store.Keys
    requires forall k :: k in s'.mem.store ==> s'.mem.store[k] == s.mem.store[k]
    ensures Kept(s, s', t, id, f)
  {
  }

  /** One manifest is written. */
  lemma SaveSettles(s: State, s': State, t: Tid, job: JobId, m: Manifest, id: JobId, f: File)
    requires Settled(s, id, f) && t in s.pcs && t in s'.pcs && s'.pcs == s.pcs[t := s'.pcs[t]] && !Recalls(s'.pcs[t])
    requires s.minted == s'.minted && s'.mem.store == s.mem.store[job := m]
    requires job == id ==> Only(m.files, f)
    ensures Kept(s, s', t, id, f)
  {
  }

  lemma StartBodySettles(c: Config, s: State, s': State, t: Tid, a: Starting, id: JobId, f: File)
    requires StartingStep(c, s, s', t, a) && Settled(s, id, f) && a.StartBody?
    ensures Kept(s, s', t, id, f)
  {
    var pc, job, slotFree := s.pcs[t], s.pcs[t].id, |s.mem.queue| != c.queueDepth;
    if StartSection(s.mem, job, pc.selections, c.queueDepth, a.io).Ok? {
      if job == id {
        StartSettles(s.mem.store[id], pc.selections, slotFree, f);
      }
      SaveSettles(s, s', t, job, StartManifest(s.mem.store[job], pc.selections, slotFree).value, id, f);
    } else {
      NoSaveSettles(s, s', t, id, f);
    }
  }

  lemma StartingSettles(c: Config, s: State, s': State, t: Tid, a: Starting, id: JobId, f: File)
    requires StartingStep(c, s, s', t, a) && Settled(s, id, f)
    ensures Kept(s, s', t, id, f)
  {
    if a.StartBody? {
      StartBodySettles(c, s, s', t, a, id, f);
    } else {
      NoSaveSettles(s, s', t, id, f);
    }
  }

  lemma CancelingSettles(c: Config, s: State, s': State, t: Tid, a: Canceling, id: JobId, f: File)
    requires CancelingStep(c, s, s', t, a) && Settled(s, id, f)
    ensures Kept(s, s', t, id, f)
  {
    if a.CancelSave? && s.pcs[t].id in s.mem.store && a.io.Works? {
      var job := s.pcs[t].id;
      if job == id {
        CancelSettles(s.mem.store[id], a.now, f);
      }
      SaveSettles(s, s', t, job, CancelManifest(s.mem.store[job], a.now), id, f);
    } else {
      NoSaveSettles(s, s', t, id, f);
    }
  }

  lemma DeletionSettles(c: Config, s: State, s': State, t: Tid, a: Deletion, id: JobId, f: File)
    requires DeletionStep(c, s, s', t, a) && Settled(s, id, f)
    ensures Kept(s, s', t, id, f)
  {
    NoSaveSettles(s, s', t, id, f);
  }

  lemma SweepSettles(c: Config, s: State, s': State, t: Tid, a: Sweep, id: JobId, f: File)
    requires SweepStep(c, s, s', t, a) && Settled(s, id, f)
    ensures Kept(s, s', t, id, f)
  {
    NoSaveSettles(s, s', t, id, f);
  }

  lemma RemovalReadSettles(c: Config, s: State, s': State, t: Tid, a: FileRemoval, id: JobId, f: File)
    requires FileRemovalStep(c, s, s', t, a) && Settled(s, id, f) && (a.BeginRemove? || a.RemoveLoad? || a.RemoveCheck?)
    ensures Kept(s, s', t, id, f)
  {
    assert PCSettled(s.pcs[t], id, f);
  }

  lemma RemovalSaveSettles(c: Config, s: State, s': State, t: Tid, a: FileRemoval, id: JobId, f: File)
    requires FileRemovalStep(c, s, s', t, a) && Settled(s, id, f) && a.RemoveSave?
    ensures Kept(s, s', t, id, f)
  {
    var pc, next := s.pcs[t], s'.pcs[t];
    assert PCSettled(pc, id, f);
    assert PCSettled(next, id, f) by {
      assert next.id == pc.id && Remembers(next) == Remembers(pc);
    }
    if pc.id == id && id in s.mem.store && a.io.Works? {
      RemovalSettles(pc.was, pc.index, f);
      assert s'.mem.store[id] == WithoutIndex(pc.was, pc.index);
    } else {
      assert id in s'.mem.store ==> id in s.mem.store && s'.mem.store[id] == s.mem.store[id];
    }
  }

  lemma RemovalEndSettles(c: Config, s: State, s': State, t: Tid, a: FileRemoval, id: JobId, f: File)
    requires FileRemovalStep(c, s, s', t, a) && Settled(s, id, f) && (a.RemoveInput? || a.RemoveRestore? || a.RemoveJob?)
    ensures Kept(s, s', t, id, f)
  {
    var pc := s.pcs[t];
    assert PCSettled(pc, id, f);
    if a.RemoveRestore? && pc.id in s.mem.store && a.io.Works? {
      SaveSettles(s, s', t, pc.id, pc.was, id, f);
    } else if !s'.pcs[t].RemoveRollback? {
      NoSaveSettles(s, s', t, id, f);
    }
  }

  lemma FileRemovalSettles(c: Config, s: State, s': State, t: Tid, a: FileRemoval, id: JobId, f: File)
    requires FileRemovalStep(c, s, s', t, a) && Settled(s, id, f)
    ensures Kept(s, s', t, id, f)
  {
    if a.BeginRemove? || a.RemoveLoad? || a.RemoveCheck? {
      RemovalReadSettles(c, s, s', t, a, id, f);
    } else if a.RemoveSave? {
      RemovalSaveSettles(c, s, s', t, a, id, f);
    } else {
      RemovalEndSettles(c, s, s', t, a, id, f);
    }
  }

  lemma LeasingSettles(c: Config, s: State, s': State, t: Tid, a: Leasing, id: JobId, f: File)
    requires LeasingStep(c, s, s', t, a) && Settled(s, id, f)
    ensures Kept(s, s', t, id, f)
  {
    NoSaveSettles(s, s', t, id, f);
  }

  lemma ProbeSettles(c: Config, s: State, s': State, t: Tid, a: Upload, id: JobId, f: File)
    requires UploadStep(c, s, s', t, a) && Settled(s, id, f)
    requires a.ReceiveDone? || a.ProbeWithoutSlot? || a.ProbeTakesSlot? || a.ProbeFails? || a.ProbeSucceeds?
    ensures Kept(s, s', t, id, f)
  {
    assert PCSettled(s.pcs[t], id, f);
  }

  lemma UploadSettles(c: Config, s: State, s': State, t: Tid, a: Upload, id: JobId, f: File)
    requires UploadStep(c, s, s', t, a) && Settled(s, id, f)
    ensures Kept(s, s', t, id, f)
  {
    if a.ReceiveDone? || a.ProbeWithoutSlot? || a.ProbeTakesSlot? || a.ProbeFails? || a.ProbeSucceeds? {
      ProbeSettles(c, s, s', t, a, id, f);
    } else {
      assert PCSettled(s.pcs[t], id, f);
    }
  }

  lemma ShutdownSettles(c: Config, s: State, s': State, t: Tid, a: Shutdown, id: JobId, f: File)
    requires ShutdownStep(c, s, s', t, a) && Settled(s, id, f)
    ensures Kept(s, s', t, id, f)
  {
  }

  lemma ClaimingSettles(c: Config, s: State, s': State, t: Tid, a: Pool, id: JobId, f: File)
    requires PoolStep(c, s, s', t, a) && Settled(s, id, f) && a.Claim?
    ensures Kept(s, s', t, id, f)
  {
    var job := s.pcs[t].id;
    if job in s.mem.store && a.io.Works? && s.mem.store[job].state.JobQueued? {
      SaveSettles(s, s', t, job, ClaimManifest(s.mem.store[job]).value, id, f);
    } else {
      NoSaveSettles(s, s', t, id, f);
    }
  }

  lemma PoolSettles(c: Config, s: State, s': State, t: Tid, a: Pool, id: JobId, f: File)
    requires PoolStep(c, s, s', t, a) && Settled(s, id, f)
    ensures Kept(s, s', t, id, f)
  {
    if a.Claim? {
      ClaimingSettles(c, s, s', t, a, id, f);
    } else {
      NoSaveSettles(s, s', t, id, f);
    }
  }

  lemma BeginningSettles(c: Config, s: State, s': State, t: Tid, a: Conversion, id: JobId, f: File)
    requires ConversionStep(c, s, s', t, a) && Settled(s, id, f) && a.Begin?
    ensures Kept(s, s', t, id, f)
  {
    var pc, job := s.pcs[t], s.pcs[t].id;
    if job in s.mem.store && a.io.Works? && BeginFile(s.mem.store[job], pc.file, a.now).Ok? {
      if job == id {
        BeginSettles(s.mem.store[id], pc.file, a.now, f);
      }
      SaveSettles(s, s', t, job, BeginFile(s.mem.store[job], pc.file, a.now).value, id, f);
    } else {
      NoSaveSettles(s, s', t, id, f);
    }
  }

  lemma RecordSavedSettles(c: Config, s: State, s': State, t: Tid, a: Conversion, id: JobId, f: File)
    requires ConversionStep(c, s, s', t, a) && Settled(s, id, f) && a.Record?
    requires s.pcs[t].id in s.mem.store && a.io.Works?
    ensures Kept(s, s', t, id, f)
  {
    var pc, job := s.pcs[t], s.pcs[t].id;
    if job == id {
      RecordSettles(s.mem.store[id], pc.file, pc.outcome, a.now, f);
    }
    SaveSettles(s, s', t, job, RecordOutcome(s.mem.store[job], pc.file, pc.outcome, a.now), id, f);
  }

  lemma RecordingSettles(c: Config, s: State, s': State, t: Tid, a: Conversion, id: JobId, f: File)
    requires ConversionStep(c, s, s', t, a) && Settled(s, id, f) && a.Record?
    ensures Kept(s, s', t, id, f)
  {
    if s.pcs[t].id in s.mem.store && a.io.Works? {
      RecordSavedSettles(c, s, s', t, a, id, f);
    } else {
      NoSaveSettles(s, s', t, id, f);
    }
  }

  lemma FinalizingSettles(c: Config, s: State, s': State, t: Tid, a: Conversion, id: JobId, f: File)
    requires ConversionStep(c, s, s', t, a) && Settled(s, id, f) && a.Finalize?
    ensures Kept(s, s', t, id, f)
  {
    var pc, job := s.pcs[t], s.pcs[t].id;
    if job in s.mem.store && a.io.Works? {
      if job == id {
        CancelSettles(s.mem.store[id], a.now, f);
      }
      SaveSettles(s, s', t, job, FinalizeManifest(s.mem.store[job], pc.canceled, a.now), id, f);
    } else {
      NoSaveSettles(s, s', t, id, f);
    }
  }

  lemma ConversionSettles(c: Config, s: State, s': State, t: Tid, a: Conversion, id: JobId, f: File)
    requires ConversionStep(c, s, s', t, a) && Settled(s, id, f)
    ensures Kept(s, s', t, id, f)
  {
    if a.Begin? {
      BeginningSettles(c, s, s', t, a, id, f);
    } else if a.Record? {
      RecordingSettles(c, s, s', t, a, id, f);
    } else if a.Finalize? {
      FinalizingSettles(c, s, s', t, a, id, f);
    } else {
      NoSaveSettles(s, s', t, id, f);
    }
  }

  lemma StepSettles(c: Config, s: State, s': State, t: Tid, a: Action, id: JobId, f: File)
    requires Step(c, s, s', t, a) && Settled(s, id, f)
    ensures Kept(s, s', t, id, f)
  {
    match a
    case Startings(x) => StartingSettles(c, s, s', t, x, id, f);
    case Cancelings(x) => CancelingSettles(c, s, s', t, x, id, f);
    case Deletions(x) => DeletionSettles(c, s, s', t, x, id, f);
    case Sweeps(x) => SweepSettles(c, s, s', t, x, id, f);
    case FileRemovals(x) => FileRemovalSettles(c, s, s', t, x, id, f);
    case Leasings(x) => LeasingSettles(c, s, s', t, x, id, f);
    case Uploads(x) => UploadSettles(c, s, s', t, x, id, f);
    case Shutdowns(x) => ShutdownSettles(c, s, s', t, x, id, f);
    case Pools(x) => PoolSettles(c, s, s', t, x, id, f);
    case Conversions(x) => ConversionSettles(c, s, s', t, x, id, f);
  }

  lemma {:induction false} RunSettles(c: Config, states: seq<State>, i: nat, j: nat, id: JobId, f: File)
    requires Run(c, states) && i <= j < |states| && Settled(states[i], id, f)
    ensures Settled(states[j], id, f)
  {
    if i < j {
      RunSettles(c, states, i, j - 1, id, f);
      assert Linked(c, states, j - 1);
      var t: Tid, a: Action :| Step(c, states[j - 1], states[j], t, a);
      StepSettles(c, states[j - 1], states[j], t, a, id, f);
      KeptSettles(states[j - 1], states[j], t, id, f);
    }
  }

  /** What a thread remembers of a job it is taking a file out of is what is stored,
      or that with the file put back. */
  lemma MemorySettled(s: State, t: Tid, id: JobId, f: File)
    requires t in s.pcs && ViewOK(s, s.pcs[t]) && id in s.mem.store
    requires HasJob(s.pcs[t]) && s.pcs[t].id == id && Remembers(s.pcs[t]) != []
    requires f in s.mem.store[id].files
    ensures Only(Remembers(s.pcs[t]), f)
  {
    var was := s.pcs[t].was;
    assert DistinctIds(was.files);
    assert f in was.files;
  }

  lemma FinishedSettled(s: State, id: JobId, i: nat)
    requires KnownOK(s) && JobsOK(s) && UploadsOK(s) && ViewsOK(s)
    requires id in s.mem.store && i < |s.mem.store[id].files| && s.mem.store[id].files[i].state.Terminal()
    ensures Settled(s, id, s.mem.store[id].files[i])
  {
    var f := s.mem.store[id].files[i];
    assert JobOK(s, id);
    forall t | t in s.pcs ensures PCSettled(s.pcs[t], id, f) {
      var pc := s.pcs[t];
      if HasJob(pc) && pc.id == id {
        assert UploadOf(pc) != Some(id);
        if Remembers(pc) != [] {
          MemorySettled(s, t, id, f);
        }
      }
    }
  }

  /** Terminal file states absorb over every run: a file once finished, if it is still
      or again listed later, is the same record, whatever arrives late and however often
      its removal was tried and rolled back. */
  lemma FinishedFilesAbsorb(c: Config, states: seq<State>, i: nat, j: nat, id: JobId)
    requires Run(c, states) && i <= j < |states|
    requires id in states[i].mem.store && id in states[j].mem.store
    ensures AbsorbsFiles(states[i].mem.store[id].files, states[j].mem.store[id].files)
  {
    var before, after := states[i].mem.store[id].files, states[j].mem.store[id].files;
    forall k, l | 0 <= k < |before| && 0 <= l < |after| && before[k].id == after[l].id && before[k].state.Terminal()
      ensures after[l] == before[k]
    {
      RunKeeps(c, states, i);
      FinishedSettled(states[i], id, k);
      RunSettles(c, states, i, j, id, before[k]);
    }
  }
}
