/** Receiving one multipart upload into a job's input directory.

    The body is a list of parts and the way it ends; what the disk and the
    transport do to a part is its `fault`.  A part is stored whole or not at all,
    and only within what the upload reserved. */
module Intake {
  import opened Options
  import opened Profiles
  import opened Manifests
  import opened Names
  import Engine
  import UploadAccount

  const MAX_FORM_FIELDS := 32
  const MAX_FORM_FIELD_BYTES := 0x1_0000

  datatype UploadError =
    | ContextDone
    | InvalidUpload
    | TooManyFiles
    | NoFiles
    | StorageError
    | Stalled
    | OverLimit(refusal: UploadAccount.Refusal)

  /** `ReadFails` is the error class of a body that stops after some bytes. */
  datatype Fault =
    | NoFault
    | OpenFails
    | ReadFails(after: nat, error: UploadError)
    | FlushFails
    | CloseFails(error: UploadError)
    | RenameFails

  /** A part without a file name is a form field. */
  datatype Part = Part(fileName: string, length: nat, fault: Fault)
  {
    predicate IsFile() {
      fileName != ""
    }
  }

  datatype Body = Body(parts: seq<Part>, broken: Option<UploadError>)

  // ---------------------------------------------------------------- one part

  function Min(a: int, b: int): int { if a < b then a else b }

  /** Copies a part into its temporary file.  Also says how many bytes reached the
      disk: the byte that shows a part to be too long is read but not written. */
  function WritePart(p: Part, remaining: int, limit: UploadAccount.Refusal): (r: (Result<nat, UploadError>, nat))
    ensures r.1 <= if remaining > 0 then remaining else 0
    ensures r.0.Ok? <==> (p.fault.NoFault? || p.fault.CloseFails? || p.fault.RenameFails?
                          || (p.fault.ReadFails? && p.fault.after > p.length)) && 1 <= p.length <= remaining
    ensures r.0.Ok? ==> r.0.value == r.1 == p.length
  {
    if remaining <= 0 then (Err(OverLimit(limit)), 0)
    else if p.fault.OpenFails? then (Err(StorageError), 0)
    else if p.fault.ReadFails? && p.fault.after <= Min(p.length, remaining) then (Err(p.fault.error), p.fault.after)
    else if p.length > remaining then (Err(OverLimit(limit)), remaining)
    else if p.fault.FlushFails? then (Err(StorageError), p.length)
    else if p.length == 0 then (Err(InvalidUpload), 0)
    else (Ok(p.length), p.length)
  }

  /** Discards a form field; an oversized one ends the upload. */
  function DrainPart(p: Part): Option<UploadError> {
    if p.fault.ReadFails? && p.fault.after <= Min(p.length, MAX_FORM_FIELD_BYTES) then Some(p.fault.error)
    else if p.length > MAX_FORM_FIELD_BYTES then Some(InvalidUpload)
    else if p.fault.CloseFails? then Some(InvalidUpload)
    else None
  }

  // ---------------------------------------------------------------- which bodies are accepted

  function FileSizes(parts: seq<Part>): seq<nat> {
    if parts == [] then []
    else
      var last := parts[|parts| - 1];
      FileSizes(parts[..|parts| - 1]) + if last.IsFile() then [last.length] else []
  }

  function Fields(parts: seq<Part>): nat {
    if parts == [] then 0
    else Fields(parts[..|parts| - 1]) + if parts[|parts| - 1].IsFile() then 0 else 1
  }

  function Total(sizes: seq<nat>): nat {
    if sizes == [] then 0 else Total(sizes[..|sizes| - 1]) + sizes[|sizes| - 1]
  }

  ghost predicate GoodPart(p: Part) {
    if p.IsFile() then p.length >= 1 && (p.fault.NoFault? || (p.fault.ReadFails? && p.fault.after > p.length))
    else DrainPart(p).None?
  }

  ghost predicate GoodPrefix(parts: seq<Part>, i: nat, budget: nat, maxFiles: nat)
    requires i <= |parts|
  {
    AllGood(parts, i) && Within(FileSizes(parts[..i]), Fields(parts[..i]), budget, maxFiles)
  }

  ghost predicate AllGood(parts: seq<Part>, i: nat)
    requires i <= |parts|
  {
    forall k :: 0 <= k < i ==> GoodPart(parts[k])
  }

  ghost predicate Within(sizes: seq<nat>, fields: nat, budget: nat, maxFiles: nat) {
    |sizes| <= maxFiles && fields <= MAX_FORM_FIELDS && Total(sizes) <= budget
  }

  ghost predicate Acceptable(body: Body, doneAfter: nat, stagingFails: bool, budget: nat, maxFiles: nat) {
    && GoodPrefix(body.parts, |body.parts|, budget, maxFiles)
    && FileSizes(body.parts) != []
    && body.broken.None? && doneAfter > |body.parts| && !stagingFails
  }

  /** A bad prefix stays bad. */
  lemma {:induction false} PrefixesOfGood(parts: seq<Part>, i: nat, budget: nat, maxFiles: nat)
    requires i <= |parts| && GoodPrefix(parts, |parts|, budget, maxFiles)
    ensures GoodPrefix(parts, i, budget, maxFiles)
    decreases |parts|
  {
    assert parts[..|parts|] == parts;
    if i < |parts| {
      var front := parts[..|parts| - 1];
      PrefixGrows(parts, |front|);
      assert front[..|front|] == front;
      PrefixesOfGood(front, i, budget, maxFiles);
      assert front[..i] == parts[..i];
    }
  }

  /** What one more part adds. */
  lemma PrefixGrows(parts: seq<Part>, i: nat)
    requires i < |parts|
    ensures FileSizes(parts[..i + 1]) ==
            if parts[i].IsFile() then FileSizes(parts[..i]) + [parts[i].length] else FileSizes(parts[..i])
    ensures Total(FileSizes(parts[..i + 1])) ==
            Total(FileSizes(parts[..i])) + if parts[i].IsFile() then parts[i].length else 0
    ensures Fields(parts[..i + 1]) == Fields(parts[..i]) + if parts[i].IsFile() then 0 else 1
  {
    assert parts[..i + 1][..i] == parts[..i];
    TotalAppend(FileSizes(parts[..i]), parts[i].length);
  }

  lemma TotalAppend(sizes: seq<nat>, n: nat)
    ensures Total(sizes + [n]) == Total(sizes) + n
  {
    assert (sizes + [n])[..|sizes|] == sizes;
  }

  // ---------------------------------------------------------------- the intake loop

  function FileIdText(count: nat): string {
    if count < 10 then "f00" + Decimal(count) else if count < 100 then "f0" + Decimal(count) else "f" + Decimal(count)
  }

  lemma FileIdSafe(count: nat)
    ensures SafeText(FileIdText(count))
  {
    DecimalSafe(count);
  }

  function StoredFile(count: nat, name: string, size: nat): File {
    File(count, name, size, FileUploaded, NoOperation, [], NoOperation, NotSelected, None, None, None, None)
  }

  ghost predicate FileStored(files: seq<File>, input: map<string, nat>, i: nat)
    requires i < |files|
  {
    var f := files[i];
    && f == StoredFile(i + 1, f.name, f.size) && f.size >= 1
    && SafeText(f.name) && f.name in input && input[f.name] == f.size
  }

  /** Files and directory agree: one entry per listed file, under its own name. */
  ghost predicate StoredApart(files: seq<File>, totalBytes: nat, input: map<string, nat>) {
    && totalBytes == SumSizes(files)
    && (forall i :: 0 <= i < |files| ==> FileStored(files, input, i))
    && (forall i, j :: 0 <= i < j < |files| ==> files[i].name != files[j].name)
    && |input| == |files|
  }

  lemma StoredGrows(files: seq<File>, totalBytes: nat, input: map<string, nat>, name: string, size: nat)
    requires StoredApart(files, totalBytes, input) && SafeText(name) && name !in input && size >= 1
    ensures StoredApart(files + [StoredFile(|files| + 1, name, size)], totalBytes + size, input[name := size])
  {
    var more := files + [StoredFile(|files| + 1, name, size)];
    SumAppend(files, StoredFile(|files| + 1, name, size));
    var input' := input[name := size];
    forall i | 0 <= i < |more| ensures FileStored(more, input', i) {
      if i < |files| {
        assert FileStored(files, input, i);
      }
    }
    forall i, j | 0 <= i < j < |more| ensures more[i].name != more[j].name {
      assert FileStored(files, input, i);
    }
  }

  /** A safe name nobody has yet, recorded as taken. */
  method ChooseName(names: NameTable, fileName: string, count: nat) returns (name: string)
    modifies names
    ensures name !in old(names.taken) && names.taken == old(names.taken) + {name}
    ensures SafeText(name)
  {
    FileIdSafe(count);
    var display := SafeFileName(fileName, FileIdText(count));
    name := names.UniqueFileName(display);
    if name != display {
      var k: nat :| name == Candidate(display, k);
      VariantSafe(display, k);
    }
  }

  /** The files of a job and the directory their bytes go to. */
  class Intake {
    const maxFiles: nat
    var files: seq<File>
    var totalBytes: nat
    /** Sizes of the files in the input directory, by stored name. */
    var input: map<string, nat>
    var names: NameTable
    /** Most bytes this upload ever had on disk, temporary file included. */
    ghost var peak: nat

    constructor (maxFiles: nat)
      ensures this.maxFiles == maxFiles && files == [] && totalBytes == 0 && input == map[] && peak == 0
      ensures fresh(names) && names.taken == {}
    {
      this.maxFiles, files, totalBytes, input, peak := maxFiles, [], 0, map[], 0;
      names := new NameTable();
    }

    ghost predicate Stored()
      reads this, names
    {
      StoredApart(files, totalBytes, input) && names.taken == input.Keys
    }

    /** Adds a received file: the rename into the input directory replaces nothing. */
    method Publish(fileName: string, size: nat) returns (name: string)
      requires Stored() && size >= 1
      modifies this`files, this`totalBytes, this`input, names
      ensures Stored() && names == old(names)
      ensures name !in old(input) && input == old(input)[name := size]
      ensures files == old(files) + [StoredFile(|old(files)| + 1, name, size)]
      ensures totalBytes == old(totalBytes) + size
    {
      var count := |files| + 1;
      name := ChooseName(names, fileName, count);
      StoredGrows(files, totalBytes, input, name, size);
      input := input[name := size];
      files := files + [StoredFile(count, name, size)];
      totalBytes := totalBytes + size;
    }

    /** One file part, stored whole within what remains, or refused with nothing
        published. */
    method ReceiveFile(p: Part, remaining: int, limit: UploadAccount.Refusal) returns (error: Option<UploadError>)
      requires Stored() && p.IsFile() && remaining >= 0 && totalBytes <= peak <= totalBytes + remaining
      modifies this`files, this`totalBytes, this`input, this`peak, names
      ensures Stored() && names == old(names)
      ensures error.None? <==> GoodPart(p) && p.length <= remaining
      ensures error.None? ==>
                SizesOf(files) == SizesOf(old(files)) + [p.length] && totalBytes == old(totalBytes) + p.length
      ensures error.Some? ==> files == old(files) && totalBytes == old(totalBytes) && input == old(input)
      ensures totalBytes <= peak <= old(totalBytes) + remaining
    {
      var (written, onDisk) := WritePart(p, remaining, limit);
      peak := if totalBytes + onDisk > peak then totalBytes + onDisk else peak;
      if written.Err? {
        return Some(written.error);
      }
      if p.fault.CloseFails? {
        return Some(p.fault.error);
      }
      if p.fault.RenameFails? {
        return Some(StorageError);
      }
      var _ := Publish(p.fileName, written.value);
      return None;
    }

    /** One part of either kind.  `fields` counts it already when it is a field. */
    method ReceivePart(p: Part, remaining: int, fields: nat, limit: UploadAccount.Refusal)
      returns (error: Option<UploadError>)
      requires Stored() && remaining >= 0 && totalBytes <= peak <= totalBytes + remaining
      modifies this`files, this`totalBytes, this`input, this`peak, names
      ensures Stored() && names == old(names)
      ensures error.None? <==> Admits(p, |old(files)|, remaining, fields, maxFiles)
      ensures error.None? ==> SizesOf(files) == SizesOf(old(files)) + if p.IsFile() then [p.length] else []
      ensures error.None? ==> totalBytes == old(totalBytes) + if p.IsFile() then p.length else 0
      ensures totalBytes <= peak <= old(totalBytes) + remaining
    {
      if p.IsFile() {
        if |files| + 1 > maxFiles {
          return Some(TooManyFiles);
        }
        error := ReceiveFile(p, remaining, limit);
      } else {
        if fields > MAX_FORM_FIELDS {
          return Some(InvalidUpload);
        }
        error := DrainPart(p);
      }
    }

    /** Accepts exactly the acceptable bodies.  Then the job lists one file per file
        part, in order and with its size, under distinct stored names.  In every case
        the upload stays within its budget, also on the way. */
    method Receive(body: Body, doneAfter: nat, stagingFails: bool, budget: nat, limit: UploadAccount.Refusal)
      returns (error: Option<UploadError>)
      requires Stored() && files == [] && peak == 0
      modifies this`files, this`totalBytes, this`input, this`peak, names
      ensures error.None? <==> Acceptable(body, doneAfter, stagingFails, budget, maxFiles)
      ensures error.None? ==> 1 <= |files| <= maxFiles && SizesOf(files) == FileSizes(body.parts)
      ensures Stored() && totalBytes <= peak <= budget
    {
      var remaining: int := budget;
      var fields := 0;
      var i := 0;
      while true
        invariant 0 <= i <= |body.parts| && i <= doneAfter && names == old(names) && Stored()
        invariant GoodPrefix(body.parts, i, budget, maxFiles)
        invariant SizesOf(files) == FileSizes(body.parts[..i]) && fields == Fields(body.parts[..i])
        invariant totalBytes == Total(FileSizes(body.parts[..i])) && remaining == budget - totalBytes
        invariant totalBytes <= peak <= budget
        decreases |body.parts| - i
      {
        if doneAfter <= i {
          return Some(ContextDone);
        }
        if i == |body.parts| {
          if body.broken.Some? {
            return body.broken;
          }
          break;
        }
        var p := body.parts[i];
        PrefixGrows(body.parts, i);
        GoodPrefixGrows(body.parts, i, budget, maxFiles);
        if !p.IsFile() {
          fields := fields + 1;
        }
        var problem := ReceivePart(p, remaining, fields, limit);
        if problem.Some? {
          BadPrefixStops(body.parts, i + 1, budget, maxFiles);
          return problem;
        }
        remaining := remaining - if p.IsFile() then p.length else 0;
        i := i + 1;
      }
      assert body.parts[..i] == body.parts;
      if |files| == 0 {
        return Some(NoFiles);
      }
      if stagingFails {
        return Some(StorageError);
      }
      return None;
    }
  }

  /** Whether a part goes through after so many files, bytes and fields. */
  ghost predicate Admits(p: Part, count: nat, remaining: int, fields: nat, maxFiles: nat) {
    && GoodPart(p)
    && if p.IsFile() then count + 1 <= maxFiles && p.length <= remaining else fields <= MAX_FORM_FIELDS
  }

  lemma BadPrefixStops(parts: seq<Part>, i: nat, budget: nat, maxFiles: nat)
    requires i <= |parts| && !GoodPrefix(parts, i, budget, maxFiles)
    ensures !GoodPrefix(parts, |parts|, budget, maxFiles)
  {
    if GoodPrefix(parts, |parts|, budget, maxFiles) {
      PrefixesOfGood(parts, i, budget, maxFiles);
    }
  }

  lemma GoodPrefixGrows(parts: seq<Part>, i: nat, budget: nat, maxFiles: nat)
    requires i < |parts| && GoodPrefix(parts, i, budget, maxFiles)
    ensures GoodPrefix(parts, i + 1, budget, maxFiles) <==>
            var sizes := FileSizes(parts[..i]);
            Admits(parts[i], |sizes|, budget - Total(sizes),
                   Fields(parts[..i]) + if parts[i].IsFile() then 0 else 1, maxFiles)
  {
    PrefixGrows(parts, i);
    AllGoodGrows(parts, i);
  }

  lemma AllGoodGrows(parts: seq<Part>, i: nat)
    requires i < |parts|
    ensures AllGood(parts, i + 1) <==> AllGood(parts, i) && GoodPart(parts[i])
  {
  }

  function SizesOf(files: seq<File>): (r: seq<nat>)
    ensures |r| == |files|
  {
    seq(|files|, i requires 0 <= i < |files| => files[i].size)
  }

  /** What the engine assumes of a received upload. */
  lemma ReceivedIsFresh(files: seq<File>)
    requires forall i :: 0 <= i < |files| ==> files[i] == StoredFile(i + 1, files[i].name, files[i].size)
    ensures Engine.FreshFiles(files)
  {
  }
}
