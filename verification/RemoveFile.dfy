/** Removing one uploaded input, down to what a crash can leave behind.

    A manifest that has been renamed into place is visible at once, but survives a
    crash for certain only when the directory was synced too; saving can fail in
    between.  Removing a directory goes entry by entry and can stop anywhere. */
module RemoveFile {
  import opened Options
  import opened Profiles
  import opened Manifests

  type Found = Option<Manifest>

  /** `crash` is every manifest that may be found if the machine stops now, and `gone`
      the inputs that removals have unlinked so far. */
  datatype Disk = Disk(shown: Found, crash: set<Found>, inputs: set<string>, gone: set<string>)

  datatype SaveFault = Saves | FailsBefore | FailsAfterRename

  datatype Entry = ManifestEntry | InputEntry(name: string)

  /** What the disk does during one call: `removal` lists the directory entries that
      removing the job gets through before `removalFails`. */
  datatype Faults = Faults(save: SaveFault, unlinks: bool, restore: SaveFault,
                           removal: seq<Entry>, removalFails: bool, preserve: SaveFault)

  datatype RemoveError = NoJob | NotPending | JobLeased | NoFile | StorageFailure

  /** No manifest that is visible or may come back lists an input that is gone. */
  ghost predicate Safe(d: Disk) {
    forall m :: m in d.crash + {d.shown} && m.Some? ==>
                  forall i :: 0 <= i < |m.value.files| ==> m.value.files[i].name !in d.gone
  }

  /** Every input a manifest lists that is visible or may come back is there. */
  ghost predicate Whole(d: Disk) {
    forall m :: m in d.crash + {d.shown} && m.Some? ==>
                  forall i :: 0 <= i < |m.value.files| ==> m.value.files[i].name in d.inputs
  }

  ghost predicate DistinctNames(files: seq<File>) {
    forall i, j :: 0 <= i < j < |files| ==> files[i].name != files[j].name
  }

  function Removed(m: Manifest, i: nat): Manifest
    requires i < |m.files| && m.totalBytes >= m.files[i].size
  {
    m.(files := WithoutFile(m.files, i), totalBytes := m.totalBytes - m.files[i].size)
  }

  ghost predicate Lists(found: Found, name: string) {
    found.Some? && exists i :: 0 <= i < |found.value.files| && found.value.files[i].name == name
  }

  method FindFile(files: seq<File>, file: FileId) returns (index: nat)
    ensures index == IndexOf(files, file)
  {
    index := 0;
    while index < |files| && files[index].id != file
      invariant 0 <= index <= |files|
      invariant forall k :: 0 <= k < index ==> files[k].id != file
    {
      index := index + 1;
    }
  }

  datatype Call = Call(file: FileId, leased: bool, faults: Faults)

  /** A manifest that may be stored while the inputs in `gone` are gone. */
  ghost predicate Sound(m: Manifest, gone: set<string>) {
    && ManifestOK(m) && DistinctNames(m.files)
    && forall i :: 0 <= i < |m.files| ==> m.files[i].name !in gone
  }

  ghost predicate AllThere(m: Manifest, inputs: set<string>) {
    forall i :: 0 <= i < |m.files| ==> m.files[i].name in inputs
  }

  ghost predicate NobodyLists(d: Disk, name: string) {
    forall m :: m in d.crash + {d.shown} ==> !Lists(m, name)
  }

  /** The same manifest with one input less, which no other file shares. */
  ghost predicate Shorter(m: Manifest, updated: Manifest, name: string) {
    && ManifestOK(updated) && DistinctNames(updated.files) && !Lists(Some(updated), name)
    && forall k :: 0 <= k < |updated.files| ==> Lists(Some(m), updated.files[k].name)
  }

  lemma RemovedIsShorter(m: Manifest, i: nat)
    requires ManifestOK(m) && m.state.JobPending? && i < |m.files| && DistinctNames(m.files)
    ensures m.totalBytes >= m.files[i].size && Shorter(m, Removed(m, i), m.files[i].name)
  {
    RemovalKeeps(m, i);
    var rest := WithoutFile(m.files, i);
    forall k | 0 <= k < |rest|
      ensures rest[k] == m.files[if k < i then k else k + 1] && Lists(Some(m), rest[k].name)
    {
      assert rest[k] == m.files[if k < i then k else k + 1];
    }
  }

  lemma ShorterSound(m: Manifest, updated: Manifest, name: string, gone: set<string>, inputs: set<string>)
    requires Shorter(m, updated, name)
    ensures Sound(m, gone) ==> Sound(updated, gone)
    ensures AllThere(m, inputs) ==> AllThere(updated, inputs)
  {
  }

  class JobDir {
    var shown: Found
    ghost var crash: set<Found>
    var inputs: set<string>
    ghost var gone: set<string>
    /** Every disk state the directory went through. */
    ghost var history: seq<Disk>

    ghost function View(): Disk
      reads this
    {
      Disk(shown, crash, inputs, gone)
    }

    ghost predicate SafeThroughout()
      reads this
    {
      Safe(View()) && forall i :: 0 <= i < |history| ==> Safe(history[i])
    }

    /** What every call keeps: it was never unsafe to stop, and whatever may be found
        afterwards is a sound manifest with one name an input. */
    ghost predicate Valid()
      reads this
    {
      && SafeThroughout() && shown in crash
      && forall m :: m in crash && m.Some? ==> ManifestOK(m.value) && DistinctNames(m.value.files)
    }

    /** No file was ever missing that was listed. */
    ghost predicate WholeSince(n: nat)
      reads this
    {
      Whole(View()) && forall i :: n <= i < |history| ==> Whole(history[i])
    }

    constructor (m: Manifest, inputs: set<string>)
      requires ManifestOK(m) && DistinctNames(m.files)
      ensures shown == Some(m) && crash == {Some(m)} && this.inputs == inputs && gone == {} && history == []
      ensures Valid()
    {
      shown, crash, this.inputs, gone, history := Some(m), {Some(m)}, inputs, {}, [];
    }

    method Save(m: Manifest, fault: SaveFault) returns (ok: bool)
      modifies this`shown, this`crash, this`history
      ensures ok == fault.Saves?
      ensures history == old(history) + [View()]
      ensures fault.Saves? ==> shown == Some(m) && crash == {Some(m)}
      ensures fault.FailsBefore? ==> shown == old(shown) && crash == old(crash)
      ensures fault.FailsAfterRename? ==> shown == Some(m) && crash == old(crash) + {Some(m)}
      ensures old(Valid()) && Sound(m, gone) ==> Valid()
      ensures old(Whole(View())) && AllThere(m, inputs) ==> Whole(View())
    {
      if fault.FailsBefore? {
        history := history + [View()];
        return false;
      }
      shown := Some(m);
      crash := crash + {Some(m)};
      if fault.Saves? {
        crash := {Some(m)};
      }
      history := history + [View()];
      return fault.Saves?;
    }

    method Unlink(name: string, works: bool) returns (ok: bool)
      modifies this`inputs, this`gone, this`history
      ensures ok == (works && name in old(inputs))
      ensures history == old(history) + [View()]
      ensures ok ==> inputs == old(inputs) - {name} && gone == old(gone) + {name}
      ensures !ok ==> inputs == old(inputs) && gone == old(gone)
      ensures old(Valid()) && NobodyLists(old(View()), name) ==> Valid()
      ensures old(Whole(View())) && NobodyLists(old(View()), name) ==> Whole(View())
    {
      ok := works && name in inputs;
      if ok {
        inputs := inputs - {name};
        gone := gone + {name};
      }
      history := history + [View()];
    }

    /** Removes a job whose manifest lists nothing.  Whatever goes wrong, the job is
        gone or its empty manifest is what can be found. */
    method Delete(faults: Faults) returns (ok: bool)
      requires shown.Some? && shown.value.files == [] && crash == {shown} && Valid()
      modifies this`shown, this`crash, this`inputs, this`history
      ensures Valid() && old(history) <= history && WholeSince(|old(history)|)
      ensures ok <==> !faults.removalFails
      ensures ok ==> shown.None? && inputs == {}
      ensures shown == None || shown == old(shown)
      ensures crash <= {None, old(shown)}
    {
      var manifest := shown.value;
      var i := 0;
      while i < |faults.removal|
        invariant 0 <= i <= |faults.removal|
        invariant shown in crash && crash <= {None, old(shown)}
        invariant old(history) <= history && forall k :: 0 <= k < |history| ==> Safe(history[k])
        invariant forall k :: |old(history)| <= k < |history| ==> Whole(history[k])
      {
        match faults.removal[i] {
          case ManifestEntry =>
            shown := None;
            crash := crash + {None};
          case InputEntry(name) => inputs := inputs - {name};
        }
        history := history + [View()];
        i := i + 1;
      }
      if faults.removalFails {
        var _ := Save(manifest, faults.preserve);
        return false;
      }
      shown, inputs := None, {};
      crash := crash + {None};
      history := history + [View()];
      return true;
    }

    /** Saves the shorter manifest, then unlinks the input it no longer lists. */
    method Hide(m: Manifest, updated: Manifest, name: string, faults: Faults) returns (ok: bool)
      requires Valid() && shown == Some(m) && Shorter(m, updated, name)
      modifies this
      ensures Valid() && old(history) <= history
      ensures old(Whole(View())) ==> WholeSince(|old(history)|)
      ensures ok <==> faults.save.Saves? && faults.unlinks && name in old(inputs)
      ensures ok ==> shown == Some(updated) && crash == {shown}
                     && gone == old(gone) + {name} && inputs == old(inputs) - {name}
      ensures !ok ==> gone == old(gone) && inputs == old(inputs) && crash <= old(crash) + {Some(updated)}
      ensures !ok ==> shown == Some(m) || shown == Some(updated)
    {
      assert Sound(m, gone) && (Whole(View()) ==> AllThere(m, inputs));
      ShorterSound(m, updated, name, gone, inputs);
      ok := Save(updated, faults.save);
      assert Valid() && (old(Whole(View())) ==> Whole(View()));
      if ok {
        assert NobodyLists(View(), name) by {
          assert crash + {shown} == {Some(updated)};
        }
        ok := Unlink(name, faults.unlinks);
      }
    }

    /** And puts the first manifest back when either fails. */
    method Exclude(m: Manifest, updated: Manifest, name: string, faults: Faults) returns (ok: bool)
      requires Valid() && shown == Some(m) && Shorter(m, updated, name)
      modifies this
      ensures Valid() && old(history) <= history
      ensures old(Whole(View())) ==> WholeSince(|old(history)|)
      ensures ok <==> faults.save.Saves? && faults.unlinks && name in old(inputs)
      ensures ok ==> shown == Some(updated) && crash == {shown}
                     && gone == old(gone) + {name} && inputs == old(inputs) - {name}
      ensures !ok ==> gone == old(gone) && inputs == old(inputs) && crash <= old(crash) + {Some(updated)}
      ensures !ok ==> shown == Some(m) || (shown == Some(updated) && faults.restore.FailsBefore?)
    {
      assert Sound(m, gone) && (Whole(View()) ==> AllThere(m, inputs));
      ok := Hide(m, updated, name, faults);
      if !ok {
        var _ := Save(m, faults.restore);
      }
    }

    /** The whole call, from any state an earlier one may have left.  A crash at any
        point, and every failure branch, leaves no manifest that lists an input this or
        an earlier call removed, nor one that lists a missing input. */
    method RemoveFile(file: FileId, leased: bool, faults: Faults) returns (r: Result<Found, RemoveError>)
      requires Valid()
      modifies this
      ensures Valid() && old(history) <= history
      ensures old(Whole(View())) ==> WholeSince(|old(history)|)
      ensures old(shown).None? ==> r == Err(NoJob) && View() == old(View())
      ensures old(shown).Some? ==> var m := old(shown).value; var i := IndexOf(m.files, file);
        if !m.state.JobPending? then r == Err(NotPending) && View() == old(View())
        else if leased then r == Err(JobLeased) && View() == old(View())
        else if i == |m.files| then r == Err(NoFile) && View() == old(View())
        else AfterRemoval(m, i, old(View()), faults, r)
    {
      if shown.None? {
        return Err(NoJob);
      }
      var m := shown.value;
      if !m.state.JobPending? {
        return Err(NotPending);
      }
      if leased {
        return Err(JobLeased);
      }
      var index := FindFile(m.files, file);
      if index == |m.files| {
        return Err(NoFile);
      }
      r := RemoveAt(m, index, faults);
    }

    method RemoveAt(m: Manifest, index: nat, faults: Faults) returns (r: Result<Found, RemoveError>)
      requires Valid() && shown == Some(m) && index < |m.files| && ManifestOK(m) && m.state.JobPending?
      modifies this
      ensures Valid() && old(history) <= history
      ensures old(Whole(View())) ==> WholeSince(|old(history)|)
      ensures AfterRemoval(m, index, old(View()), faults, r)
    {
      RemovalKeeps(m, index);
      RemovedIsShorter(m, index);
      var updated := Removed(m, index);
      var ok := Exclude(m, updated, m.files[index].name, faults);
      if !ok {
        return Err(StorageFailure);
      }
      if updated.files == [] {
        ok := Delete(faults);
        return if ok then Ok(None) else Err(StorageFailure);
      }
      return Ok(Some(updated));
    }

    /** The three ways a removal that got as far as the file can end. */
    ghost predicate AfterRemoval(m: Manifest, i: nat, before: Disk, faults: Faults, r: Result<Found, RemoveError>)
      requires i < |m.files| && ManifestOK(m) && m.state.JobPending?
      reads this
    {
      RemovalKeeps(m, i);
      var name := m.files[i].name;
      if !faults.save.Saves? || !faults.unlinks || name !in before.inputs then
        // Nothing was unlinked; only if restoring failed may the shorter list stay.
        && r == Err(StorageFailure) && gone == before.gone && inputs == before.inputs
        && (shown == Some(m) || (shown == Some(Removed(m, i)) && faults.restore.FailsBefore?))
        && crash <= before.crash + {Some(Removed(m, i))}
      else if |m.files| > 1 then
        && r == Ok(shown) && shown == Some(Removed(m, i)) && crash == {shown}
        && gone == before.gone + {name} && inputs == before.inputs - {name}
      else
        && gone == before.gone + {name} && (r == Ok(None) || r == Err(StorageFailure))
        && (r.Ok? <==> !faults.removalFails)
        && (r.Ok? ==> shown == None && inputs == {})
        && crash + {shown} <= {None, Some(Removed(m, i))}
    }

    /** The machine stopped, and found one of the manifests it might find. */
    method Reboot(found: Found)
      requires Valid() && found in crash
      modifies this
      ensures Valid() && shown == found && crash == {found} && inputs == old(inputs) && gone == old(gone)
      ensures history == old(history) + [View()]
      ensures old(Whole(View())) ==> WholeSince(|old(history)|)
    {
      shown, crash := found, {found};
      history := history + [View()];
    }

    /** Any number of calls, retries after failed ones included. */
    method RemoveFiles(calls: seq<Call>)
      requires Valid()
      modifies this
      ensures Valid() && old(history) <= history
      ensures old(Whole(View())) ==> WholeSince(|old(history)|)
    {
      var i := 0;
      while i < |calls|
        invariant 0 <= i <= |calls| && Valid() && old(history) <= history
        invariant old(Whole(View())) ==> WholeSince(|old(history)|)
      {
        ghost var before := history;
        var _ := RemoveFile(calls[i].file, calls[i].leased, calls[i].faults);
        assert forall k :: 0 <= k < |before| ==> history[k] == before[k];
        i := i + 1;
      }
    }
  }

  /** What the shorter manifest is: the other files in their order, still consistent,
      with their sizes adding up; empty exactly when it was the only file. */
  lemma RemovedIsConsistent(m: Manifest, i: nat)
    requires ManifestOK(m) && m.state.JobPending? && i < |m.files|
    ensures m.totalBytes >= m.files[i].size
    ensures ManifestOK(Removed(m, i)) && Removed(m, i).totalBytes == SumSizes(Removed(m, i).files)
    ensures Removed(m, i).files == m.files[..i] + m.files[i + 1..]
    ensures Removed(m, i).files == [] <==> |m.files| == 1
  {
    RemovalKeeps(m, i);
  }

  /** Distinct stored names are needed: with a shared name the shorter manifest would
      list the very input that is unlinked. */
  lemma SharedNameIsUnsafe(m: Manifest, i: nat, j: nat)
    requires i < |m.files| && j < |m.files| && i != j && m.totalBytes >= m.files[i].size
    requires m.files[i].name == m.files[j].name
    ensures !Safe(Disk(Some(Removed(m, i)), {Some(Removed(m, i))}, {}, {m.files[i].name}))
  {
    var k := if j < i then j else j - 1;
    assert Removed(m, i).files[k] == m.files[j];
    assert Some(Removed(m, i)) in {Some(Removed(m, i))} + {Some(Removed(m, i))};
  }
}
