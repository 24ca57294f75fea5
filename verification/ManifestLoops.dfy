/** The loops that carry out the mutations of `Manifests` in place, over the file
    list of a manifest that was loaded for an update.  On an error the half-mutated
    list is thrown away with the update, so only the error is specified. */
module ManifestLoops {
  import opened Options
  import opened Profiles
  import opened Manifests

  lemma StartPrefixError(files: seq<File>, selections: map<FileId, Operation>, i: nat)
    requires i < |files|
    requires StartFiles(files[..i], selections).Ok? && StartFile(files[i], selections).Err?
    ensures StartFiles(files, selections) == Err(StartFile(files[i], selections).error)
  {
    StartErrorStays(files, selections, i + 1);
    assert files[..i + 1][..i] == files[..i];
  }

  /** The first refused selection is the error, whatever follows it. */
  lemma {:induction false} StartErrorStays(files: seq<File>, selections: map<FileId, Operation>, i: nat)
    requires i <= |files|
    ensures StartFiles(files[..i], selections).Err? ==>
            StartFiles(files, selections) == StartFiles(files[..i], selections)
    decreases |files|
  {
    if i == |files| {
      assert files[..i] == files;
    } else {
      var last := |files| - 1;
      StartErrorStays(files[..last], selections, i);
      assert files[..last][..i] == files[..i];
    }
  }

  lemma StartNext(files: seq<File>, selections: map<FileId, Operation>, i: nat, done: seq<File>, f: File)
    requires i < |files| && StartFiles(files[..i], selections) == Ok(done) && StartFile(files[i], selections) == Ok(f)
    ensures StartFiles(files[..i + 1], selections) == Ok(done + [f])
    ensures CountState(files[..i + 1], FileInspected) ==
            CountState(files[..i], FileInspected) + if files[i].state.FileInspected? then 1 else 0
  {
    assert files[..i + 1][..i] == files[..i];
  }

  method StartLoop(files: array<File>, selections: map<FileId, Operation>)
    returns (convertible: nat, refused: Option<JobError>)
    modifies files
    ensures refused.Some? ==> StartFiles(old(files[..]), selections) == Err(refused.value)
    ensures refused.None? ==> StartFiles(old(files[..]), selections) == Ok(files[..])
    ensures refused.None? ==> convertible == CountState(old(files[..]), FileInspected)
  {
    ghost var before := files[..];
    convertible, refused := 0, None;
    var i := 0;
    while i < files.Length
      invariant 0 <= i <= files.Length
      invariant StartFiles(before[..i], selections) == Ok(files[..i])
      invariant files[i..] == before[i..]
      invariant convertible == CountState(before[..i], FileInspected)
    {
      assert files[i] == before[i];
      ghost var done := files[..i];
      if files[i].state.FileInspected? {
        var selected, source := files[i].recommended, RecommendedSource;
        if files[i].id in selections && selections[files[i].id] != NoOperation {
          if selections[files[i].id] !in files[i].compatible {
            StartPrefixError(before, selections, i);
            return convertible, Some(IncompatibleOperation(selections[files[i].id]));
          }
          selected, source := selections[files[i].id], RequestedSource;
        }
        files[i] := files[i].(selected := selected, source := source, state := FileQueued);
        convertible := convertible + 1;
      }
      StartNext(before, selections, i, done, files[i]);
      assert files[..i + 1] == done + [files[i]];
      assert files[i + 1..] == before[i + 1..] by {
        assert before[i..][1..] == before[i + 1..];
      }
      i := i + 1;
    }
    assert before[..i] == before && files[..i] == files[..];
  }

  method CancelLoop(files: array<File>, now: Time)
    modifies files
    ensures files[..] == CancelFiles(old(files[..]), now)
  {
    var i := 0;
    while i < files.Length
      invariant 0 <= i <= files.Length
      invariant forall k :: 0 <= k < i ==> files[k] == CancelFile(old(files[k]), now)
      invariant forall k :: i <= k < files.Length ==> files[k] == old(files[k])
    {
      if !files[i].state.Terminal() {
        var error := files[i].error;
        files[i] := files[i].(state := FileCanceled, finishedAt := Some(now));
        if error.None? {
          files[i] := files[i].(error := Some(CANCELED));
        }
      }
      i := i + 1;
    }
  }

  /** One pass both cancels what is unfinished and counts how it ended. */
  method FinalizeLoop(files: array<File>, canceled: bool, now: Time) returns (state: JobState)
    modifies files
    ensures files[..] == CancelFiles(old(files[..]), now)
    ensures state == FinalState(files[..], canceled)
  {
    var i, completed, failed := 0, 0, 0;
    while i < files.Length
      invariant 0 <= i <= files.Length
      invariant forall k :: 0 <= k < i ==> files[k] == CancelFile(old(files[k]), now)
      invariant forall k :: i <= k < files.Length ==> files[k] == old(files[k])
      invariant completed == CountState(files[..i], FileCompleted)
      invariant failed == CountState(files[..i], FileFailed)
    {
      ghost var done := files[..i];
      if !files[i].state.Terminal() {
        var error := files[i].error;
        files[i] := files[i].(state := FileCanceled, finishedAt := Some(now));
        if error.None? {
          files[i] := files[i].(error := Some(CANCELED));
        }
      }
      if files[i].state.FileCompleted? {
        completed := completed + 1;
      } else if files[i].state.FileFailed? {
        failed := failed + 1;
      }
      assert files[..i] == done && files[..i + 1] == done + [files[i]];
      i := i + 1;
    }
    assert files[..i] == files[..];
    if completed > 0 {
      state := JobCompleted;
    } else if canceled {
      state := JobCanceled;
    } else if failed > 0 {
      state := JobFailed;
    } else {
      state := JobCanceled;
    }
  }

  /** Closing an upload of a job canceled meanwhile: here an earlier error of an
      unfinished file is replaced, not kept. */
  method MergeLoop(files: array<File>, now: Time)
    modifies files
    ensures files[..] == MergeFiles(old(files[..]), now)
  {
    var i := 0;
    while i < files.Length
      invariant 0 <= i <= files.Length
      invariant forall k :: 0 <= k < i ==> files[k] == MergeFile(old(files[k]), now)
      invariant forall k :: i <= k < files.Length ==> files[k] == old(files[k])
    {
      if !files[i].state.Terminal() {
        files[i] := files[i].(state := FileCanceled, finishedAt := Some(now), error := Some(CANCELED));
      }
      i := i + 1;
    }
  }

  method InterruptLoop(files: array<File>, now: Time)
    modifies files
    ensures files[..] == InterruptFiles(old(files[..]), now)
  {
    var i := 0;
    while i < files.Length
      invariant 0 <= i <= files.Length
      invariant forall k :: 0 <= k < i ==> files[k] == InterruptFile(old(files[k]), now)
      invariant forall k :: i <= k < files.Length ==> files[k] == old(files[k])
    {
      if !files[i].state.Terminal() {
        files[i] := files[i].(state := FileInterrupted, finishedAt := Some(now), error := Some(INTERRUPTED));
      }
      i := i + 1;
    }
  }

  /** The totals an upload publishes. */
  method SumLoop(files: seq<File>) returns (total: nat)
    ensures total == SumSizes(files)
  {
    total := 0;
    for i := 0 to |files|
      invariant total == SumSizes(files[..i])
    {
      SumAppend(files[..i], files[i]);
      assert files[..i + 1] == files[..i] + [files[i]];
      total := total + files[i].size;
    }
    assert files[..|files|] == files;
  }
}
