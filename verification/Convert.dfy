/** Running a plan and publishing its output, over an abstract directory tree.

    A file is its bytes.  Everything the tools, the disk and the caller's context do
    during one attempt is given in advance as an `Attempt`.  Before each operation on
    the tree, other processes may create any files at free paths, but not under the
    hidden names of the attempts.  The tree records every state it goes through. */
module Convert {
  import opened Options
  import opened Streams
  import opened MediaPlan
  import opened MediaMeaning
  import Mp4
  import Validate

  type Bytes = seq<Mp4.byte>

  datatype Stage = Prepare | Capability | Encode | Progress | ProbeOutput | ValidateStage | Publish

  /** `exit` is the class of a tool that ran and exited in error. */
  datatype ConversionError = ConversionError(stage: Stage, exit: bool) | MissingFilters | ContextEnded

  datatype Attempt = Attempt(
    suffix: string,
    creates: bool,
    closes: bool,
    written: Bytes,
    exits: bool,
    starts: bool,
    stderr: FallbackReason,
    progress: bool,
    probe: Option<Probe>,
    ended: bool,
    links: bool,
    removes: bool)

  /** The hidden name next to the output that one attempt works under. */
  function TempPath(output: string, suffix: string): string {
    DirPart(output) + "." + output[|DirPart(output)|..] + ".filetwist-" + suffix
  }

  function DirPart(path: string): (d: string)
    ensures d <= path
  {
    if path == "" then "" else if path[|path| - 1] == '/' then path else DirPart(path[..|path| - 1])
  }

  lemma TempIsNotOutput(output: string, suffix: string)
    ensures TempPath(output, suffix) != output
  {
    assert |TempPath(output, suffix)| > |output|;
  }

  /** A failure that a retry in software may get past: the encoder ran, failed, and
      said something recognized about the device. */
  function ClassifyFailure(error: Option<ConversionError>, stderr: FallbackReason): FallbackReason {
    if error.Some? && error.value.ConversionError? && error.value.stage.Encode? && error.value.exit then stderr
    else NoFallback
  }

  /** The arguments of one attempt: the temporary path in place of the output. */
  function Redirected(args: seq<Opt>, temp: string): seq<Opt>
    requires args != []
  {
    args[|args| - 1 := Output(temp)]
  }

  /** Where an invocation writes: every output it names. */
  ghost function Writes(args: seq<Opt>): set<string> {
    set i | 0 <= i < |args| && args[i].Output? :: args[i].path
  }

  /** A plan whose arguments name the output last, and nowhere else, writes only to
      the temporary file. */
  lemma RedirectedWrites(args: seq<Opt>, output: string, temp: string)
    requires WritesLast(args, output)
    ensures Writes(Redirected(args, temp)) == {temp}
  {
    var r := Redirected(args, temp);
    assert r[|r| - 1] == Output(temp);
  }

  /** What can be found at the output path at one moment: what was there or appeared
      there, or the complete converted file. */
  ghost predicate Safe(now: Option<Bytes>, others: set<Option<Bytes>>, e: Expected) {
    now in others || (now.Some? && Complete(now.value, e))
  }

  /** It was safe to stop at any moment from some time on. */
  ghost predicate SafeFrom(history: seq<map<string, Bytes>>, n: nat, path: string, others: set<Option<Bytes>>,
                           e: Expected) {
    forall i :: n <= i < |history| ==> Safe(At(history[i], path), others, e)
  }

  /** From some time on, what the path holds stays as it is, once it holds anything. */
  ghost predicate Steady(history: seq<map<string, Bytes>>, n: nat, path: string) {
    forall i, j :: n <= i <= j < |history| && At(history[i], path).Some? ==> At(history[j], path) == At(history[i], path)
  }

  /** What is expected of the tree from its nth state on: others create the files of
      `created`, we work under the names `temps`, and we publish the files `ours`. */
  datatype Watch = Watch(n: nat, created: seq<map<string, Bytes>>, temps: set<string>, ours: set<(string, Bytes)>)

  /** What was there at first, what somebody else created, or what we published. */
  ghost predicate Known(w: Watch, path: string, first: Option<Bytes>, now: Option<Bytes>) {
    now == first || (now.Some? && (Created(w.created, path, now.value) || (path, now.value) in w.ours))
  }

  ghost predicate Created(created: seq<map<string, Bytes>>, path: string, bytes: Bytes) {
    exists m :: m in created && path in m && m[path] == bytes
  }

  ghost predicate KnownAt(w: Watch, history: seq<map<string, Bytes>>, path: string, i: nat)
    requires w.n < |history| && i < |history|
  {
    Known(w, path, At(history[w.n], path), At(history[i], path))
  }

  ghost predicate Kept(w: Watch, history: seq<map<string, Bytes>>, path: string)
    requires w.n < |history|
  {
    Steady(history, w.n, path) && forall i :: w.n <= i < |history| ==> KnownAt(w, history, path, i)
  }

  lemma KeptGrows(w: Watch, history: seq<map<string, Bytes>>, path: string, next: map<string, Bytes>)
    requires w.n < |history| && Kept(w, history, path)
    requires var last := At(history[|history| - 1], path);
      At(next, path) == last
      || (last.None? && At(next, path).Some?
          && (Created(w.created, path, next[path]) || (path, next[path]) in w.ours))
    ensures Kept(w, history + [next], path)
  {
    assert KnownAt(w, history, path, |history| - 1);
    forall i | w.n <= i < |history| + 1 ensures KnownAt(w, history + [next], path, i) {
      assert i < |history| ==> KnownAt(w, history, path, i);
    }
  }

  lemma KeptMore(w: Watch, history: seq<map<string, Bytes>>, path: string, published: (string, Bytes))
    requires w.n < |history| && Kept(w, history, path)
    ensures Kept(w.(ours := w.ours + {published}), history, path)
  {
    forall i | w.n <= i < |history| ensures KnownAt(w.(ours := w.ours + {published}), history, path, i) {
      assert KnownAt(w, history, path, i);
    }
  }

  /** Bytes some probe of which the contract accepts. */
  ghost predicate Complete(bytes: Bytes, e: Expected) {
    exists probe :: Validate.Accepted(e, probe, Some(bytes))
  }

  class Tree {
    var files: map<string, Bytes>
    /** What others create before each operation; an existing file is never replaced. */
    var rivals: seq<map<string, Bytes>>
    ghost var history: seq<map<string, Bytes>>

    /** The present is the end of the history. */
    ghost predicate Valid()
      reads this
    {
      history != [] && history[|history| - 1] == files
    }

    /** Since the watch began, every file outside our hidden names came as expected and
        stayed as it came, and nobody else uses those names. */
    ghost predicate Watched(w: Watch)
      reads this
    {
      && Valid() && w.n < |history|
      && (forall m :: m in rivals ==> m in w.created)
      && (forall m :: m in w.created ==> m.Keys !! w.temps)
      && forall p :: p !in w.temps ==> Kept(w, history, p)
    }

    constructor (files: map<string, Bytes>, rivals: seq<map<string, Bytes>>)
      ensures this.files == files && this.rivals == rivals && history == [files] && Valid()
    {
      this.files, this.rivals, this.history := files, rivals, [files];
    }

    /** Others get their turn. */
    method Others(ghost w: Watch)
      requires Watched(w)
      modifies this
      ensures Watched(w) && old(history) <= history
      ensures forall p :: p in old(files) || p in w.temps ==> At(files, p) == At(old(files), p)
    {
      if rivals != [] {
        var created := rivals[0];
        ghost var before := history;
        files := created + files;
        rivals := rivals[1..];
        history := history + [files];
        forall p | p !in w.temps ensures Kept(w, history, p) {
          assert created in w.created;
          KeptGrows(w, before, p, files);
        }
      }
    }

    method Put(path: string, bytes: Bytes, ghost w: Watch)
      requires Watched(w) && path in w.temps
      modifies this
      ensures Watched(w) && old(history) <= history && At(files, path) == Some(bytes)
      ensures forall p :: p in w.temps && p != path ==> At(files, p) == At(old(files), p)
    {
      Others(w);
      ghost var before := history;
      files := files[path := bytes];
      history := history + [files];
      forall p | p !in w.temps ensures Kept(w, history, p) {
        KeptGrows(w, before, p, files);
      }
    }

    method Remove(path: string, ghost w: Watch)
      requires Watched(w) && path in w.temps
      modifies this
      ensures Watched(w) && old(history) <= history && path !in files
      ensures forall p :: p in w.temps && p != path ==> At(files, p) == At(old(files), p)
      ensures forall p :: p in old(files) && p !in w.temps ==> At(files, p) == At(old(files), p)
    {
      Others(w);
      ghost var before := history;
      files := files - {path};
      history := history + [files];
      forall p | p !in w.temps ensures Kept(w, history, p) {
        KeptGrows(w, before, p, files);
      }
    }

    /** A second name for a file; fails on a taken name instead of replacing it. */
    method Link(from: string, to: string, works: bool, ghost w: Watch) returns (ok: bool)
      requires Watched(w) && from in w.temps && from in files && to !in w.temps
      modifies this
      ensures ok ==> works && to !in old(files) && At(files, to) == Some(old(files)[from])
      ensures !ok ==> !works || to in files
      ensures Watched(if ok then w.(ours := w.ours + {(to, old(files)[from])}) else w) && old(history) <= history
      ensures forall p :: p in w.temps ==> At(files, p) == At(old(files), p)
    {
      Others(w);
      ok := works && to !in files;
      if ok {
        ghost var before, ours := history, w.(ours := w.ours + {(to, files[from])});
        files := files[to := files[from]];
        history := history + [files];
        forall p | p !in w.temps ensures Kept(ours, history, p) {
          KeptMore(w, before, p, (to, files[from]));
          KeptGrows(ours, before, p, files);
        }
      }
    }
  }

  ghost function At(files: map<string, Bytes>, path: string): Option<Bytes> {
    if path in files then Some(files[path]) else None
  }

  /** The watch once a file is published. */
  ghost function Publishing(w: Watch, path: string, bytes: Bytes): Watch {
    w.(ours := w.ours + {(path, bytes)})
  }

  /** The temporary file becomes the output unless the output exists at the very moment
      of linking. */
  method PublishNoReplace(tree: Tree, temp: string, output: string, links: bool, removes: bool, ghost w: Watch)
    returns (ok: bool)
    requires tree.Watched(w) && temp in w.temps && temp in tree.files && output !in w.temps
    modifies tree
    ensures ok ==> links && output !in old(tree.files) && At(tree.files, output) == Some(old(tree.files)[temp])
    ensures !ok ==> !links || output in tree.files
    ensures tree.Watched(if ok then Publishing(w, output, old(tree.files)[temp]) else w)
    ensures forall p :: p in w.temps && p != temp ==> At(tree.files, p) == At(old(tree.files), p)
    ensures old(tree.history) <= tree.history
  {
    ok := tree.Link(temp, output, links, w);
    if ok && removes {
      tree.Remove(temp, Publishing(w, output, old(tree.files)[temp]));
    }
  }

  /** Everything the tool does: it fills the files it was told to write. */
  method RunTool(tree: Tree, args: seq<Opt>, temp: string, written: Bytes, ghost w: Watch)
    requires Writes(args) == {temp} && tree.Watched(w) && temp in w.temps
    modifies tree
    ensures tree.Watched(w) && old(tree.history) <= tree.history && At(tree.files, temp) == Some(written)
    ensures forall p :: p in w.temps && p != temp ==> At(tree.files, p) == At(old(tree.files), p)
  {
    tree.Put(temp, written, w);
  }

  /** The checks between the end of the tool and publication, in order. */
  method CheckResult(tree: Tree, e: Expected, temp: string, a: Attempt) returns (error: Option<ConversionError>)
    requires temp in tree.files
    ensures error.None? ==> a.progress && a.probe.Some? && !a.ended
    ensures error.None? ==> Validate.Accepted(e, a.probe.value, Some(tree.files[temp]))
    ensures error.Some? ==> error.value.ConversionError? && !error.value.exit && !error.value.stage.Encode?
    ensures error.Some? && error.value.stage.Publish? ==> a.ended
  {
    if !a.progress {
      return Some(ConversionError(Progress, false));
    }
    if a.probe.None? {
      return Some(ConversionError(ProbeOutput, false));
    }
    var issues := Validate.ValidateOutput(e, a.probe.value, Some(tree.files[temp]));
    if issues != [] {
      return Some(ConversionError(ValidateStage, false));
    }
    if a.ended {
      return Some(ConversionError(Publish, false));
    }
    return None;
  }

  /** Encodes into the temporary file and checks what came out. */
  method EncodeAndCheck(tree: Tree, args: seq<Opt>, output: string, temp: string, e: Expected, a: Attempt,
                        ghost w: Watch) returns (error: Option<ConversionError>)
    requires WritesLast(args, output) && tree.Watched(w) && temp in w.temps && temp in tree.files
    modifies tree
    ensures tree.Watched(w) && old(tree.history) <= tree.history && temp in tree.files
    ensures forall p :: p in w.temps && p != temp ==> At(tree.files, p) == At(old(tree.files), p)
    ensures error.None? ==> tree.files[temp] == a.written && a.probe.Some?
                            && Validate.Accepted(e, a.probe.value, Some(a.written))
    ensures error.Some? ==> error.value.ConversionError? && (error.value.stage.Publish? ==> a.ended)
    ensures error.Some? && error.value.stage.Encode? && error.value.exit <==> a.starts && a.exits
  {
    RedirectedWrites(args, output, temp);
    if !a.starts {
      return Some(ConversionError(Encode, false));
    }
    RunTool(tree, Redirected(args, temp), temp, a.written, w);
    if a.exits {
      return Some(ConversionError(Encode, true));
    }
    error := CheckResult(tree, e, temp, a);
  }

  /** Creates the empty temporary file. */
  method PrepareTemp(tree: Tree, temp: string, a: Attempt, ghost w: Watch) returns (ok: bool)
    requires tree.Watched(w) && temp in w.temps && temp !in tree.files
    modifies tree
    ensures tree.Watched(w) && old(tree.history) <= tree.history
    ensures ok == (a.creates && a.closes) && (temp in tree.files <==> ok)
    ensures forall p :: p in w.temps && p != temp ==> At(tree.files, p) == At(old(tree.files), p)
  {
    if !a.creates {
      return false;
    }
    tree.Put(temp, [], w);
    if !a.closes {
      tree.Remove(temp, w);
      return false;
    }
    return true;
  }

  /** Everything before publication: a fresh hidden file, filled and checked, or gone. */
  method Produce(tree: Tree, args: seq<Opt>, output: string, temp: string, e: Expected, a: Attempt, ghost w: Watch)
    returns (error: Option<ConversionError>)
    requires WritesLast(args, output) && tree.Watched(w) && temp in w.temps && temp !in tree.files
    modifies tree
    ensures tree.Watched(w) && old(tree.history) <= tree.history && (temp in tree.files <==> error.None?)
    ensures forall p :: p in w.temps && p != temp ==> At(tree.files, p) == At(old(tree.files), p)
    ensures error.None? ==> tree.files[temp] == a.written && a.probe.Some?
                            && Validate.Accepted(e, a.probe.value, Some(a.written))
    ensures error.Some? ==> error.value.ConversionError? && (error.value.stage.Publish? ==> a.ended)
    ensures error.Some? && error.value.stage.Encode? && error.value.exit <==>
            a.creates && a.closes && a.starts && a.exits
  {
    var prepared := PrepareTemp(tree, temp, a, w);
    if !prepared {
      return Some(ConversionError(Prepare, false));
    }
    error := EncodeAndCheck(tree, args, output, temp, e, a, w);
    if error.Some? {
      tree.Remove(temp, w);
    }
  }

  /** One attempt: encode into a fresh hidden file, check it, publish it without
      replacing anything, and clean up unless it was published.  A checked file goes
      unpublished only when linking fails or the output exists by then. */
  method ConvertOnce(tree: Tree, args: seq<Opt>, output: string, e: Expected, a: Attempt, ghost w: Watch)
    returns (error: Option<ConversionError>)
    requires WritesLast(args, output) && tree.Watched(w) && output !in w.temps
    requires TempPath(output, a.suffix) in w.temps && TempPath(output, a.suffix) !in tree.files
    modifies tree
    ensures error.None? ==> tree.Watched(Publishing(w, output, a.written)) && At(tree.files, output) == Some(a.written)
                            && output !in old(tree.files) && a.probe.Some? && Validate.Accepted(e, a.probe.value, Some(a.written))
    ensures error.Some? ==> tree.Watched(w) && TempPath(output, a.suffix) !in tree.files
                            && error.value.ConversionError?
    ensures error == Some(ConversionError(Publish, false)) && !a.ended ==> !a.links || output in tree.files
    ensures old(tree.history) <= tree.history
    ensures forall p :: p in w.temps && p != TempPath(output, a.suffix) ==> At(tree.files, p) == At(old(tree.files), p)
    ensures ClassifyFailure(error, a.stderr) != NoFallback <==>
            a.creates && a.closes && a.starts && a.exits && a.stderr != NoFallback
  {
    var temp := TempPath(output, a.suffix);
    error := Produce(tree, args, output, temp, e, a, w);
    if error.None? {
      var ok := PublishNoReplace(tree, temp, output, a.links, a.removes, w);
      if !ok {
        tree.Remove(temp, w);
        error := Some(ConversionError(Publish, false));
      }
    }
  }

  datatype Execution = Execution(requested: Mode, initial: ExecutionPath, final: ExecutionPath,
                                 fallback: FallbackReason,
                                 attemptCount: nat)

  datatype Outcome = Outcome(execution: Execution, attempts: seq<ExecutionPath>, error: Option<ConversionError>)

  /** The software plan of a failed hardware attempt. */
  function CPUPlan(plan: Plan, reason: FallbackReason): Plan {
    plan.(args := plan.cpuArgs, cpuArgs := [], path := CPUPath, fallback := reason)
  }

  /** Everything that may be found at a path although we did not put it there. */
  ghost function Foreign(before: Option<Bytes>, created: seq<map<string, Bytes>>, path: string): set<Option<Bytes>> {
    {before} + set m | m in created && path in m :: Some(m[path])
  }

  ghost predicate Retries(plan: Plan, filters: Option<ConversionError>, first: Attempt) {
    && filters.None? && !plan.path.CPUPath? && plan.cpuArgs != []
    && first.creates && first.closes && first.starts && first.exits && first.stderr != NoFallback
  }

  ghost function Temps(plan: Plan, first: Attempt, second: Attempt): set<string> {
    {TempPath(plan.outputPath, first.suffix), TempPath(plan.outputPath, second.suffix)}
  }

  /** A watch that begins now. */
  lemma WatchBegins(tree: Tree, w: Watch)
    requires tree.Valid() && w.n == |tree.history| - 1 && w.created == tree.rivals
    requires forall m :: m in tree.rivals ==> m.Keys !! w.temps
    ensures tree.Watched(w)
  {
  }

  /** What a watch says of the output: it is safe to find at any moment. */
  lemma WatchedOutput(tree: Tree, w: Watch, path: string, e: Expected)
    requires tree.Watched(w) && path !in w.temps
    requires forall p, bytes :: (p, bytes) in w.ours ==> Complete(bytes, e)
    ensures SafeFrom(tree.history, w.n, path, Foreign(At(tree.history[w.n], path), w.created, path), e)
  {
    var history, foreign := tree.history, Foreign(At(tree.history[w.n], path), w.created, path);
    assert Kept(w, history, path);
    forall i | w.n <= i < |history| ensures Safe(At(history[i], path), foreign, e) {
      assert KnownAt(w, history, path, i);
    }
  }

  /** What it says of a path we do not publish to. */
  lemma WatchedOther(tree: Tree, w: Watch, path: string)
    requires tree.Watched(w) && path !in w.temps
    requires forall bytes :: (path, bytes) !in w.ours
    ensures At(tree.files, path) in Foreign(At(tree.history[w.n], path), w.created, path)
  {
    assert Kept(w, tree.history, path);
    assert KnownAt(w, tree.history, path, |tree.history| - 1);
  }

  /** What a finished call leaves, whoever created what in between. */
  ghost predicate Leaves(tree: Tree, w: Watch, output: string, e: Expected)
    reads tree
    requires w.n < |tree.history|
  {
    && (forall p :: p !in w.temps ==> Steady(tree.history, w.n, p))
    && SafeFrom(tree.history, w.n, output, Foreign(At(tree.history[w.n], output), w.created, output), e)
    && forall p :: p !in w.temps && (p != output || w.ours == {}) ==>
                     At(tree.files, p) in Foreign(At(tree.history[w.n], p), w.created, p)
  }

  lemma WatchEnds(tree: Tree, w: Watch, output: string, e: Expected)
    requires tree.Watched(w) && output !in w.temps
    requires forall p, bytes :: (p, bytes) in w.ours ==> p == output && Complete(bytes, e)
    ensures Leaves(tree, w, output, e)
  {
    WatchedOutput(tree, w, output, e);
    forall p | p !in w.temps ensures Steady(tree.history, w.n, p) {
      assert Kept(w, tree.history, p);
    }
    forall p | p !in w.temps && (p != output || w.ours == {})
      ensures At(tree.files, p) in Foreign(At(tree.history[w.n], p), w.created, p)
    {
      WatchedOther(tree, w, p);
    }
  }

  /** At most two attempts, the second exactly after a recognized hardware encode
      failure.  The call succeeds exactly when it put a new file at the output path,
      whose bytes the last attempt's checks accepted.  Whatever others create at
      whatever moment, no file of theirs is ever changed: what a path holds stays, an
      output that existed before is there at every moment, and a crash leaves at the
      output path what others put there, or nothing, or a complete accepted file. */
  method ConvertPlan(tree: Tree, plan: Plan, filters: Option<ConversionError>, first: Attempt, second: Attempt)
    returns (r: Outcome)
    requires WritesLast(plan.args, plan.outputPath)
             && (plan.cpuArgs != [] ==> WritesLast(plan.cpuArgs, plan.outputPath))
    requires tree.Valid() && Temps(plan, first, second) !! tree.files.Keys
    requires forall m :: m in tree.rivals ==> m.Keys !! Temps(plan, first, second)
    modifies tree
    ensures r.execution.attemptCount == |r.attempts| <= 2
    ensures |r.attempts| == if filters.Some? then 0 else if Retries(plan, filters, first) then 2 else 1
    ensures r.attempts == if filters.Some? then [] else [plan.path] + if |r.attempts| == 2 then [CPUPath] else []
    ensures |r.attempts| > 0 ==> r.execution.initial == plan.path && r.execution.final == r.attempts[|r.attempts| - 1]
    ensures |r.attempts| == 2 ==> r.execution.fallback == first.stderr
    ensures var output := plan.outputPath; var last := if |r.attempts| == 2 then second else first;
      && (output in old(tree.files) ==> r.error.Some? && At(tree.files, output) == At(old(tree.files), output))
      && (r.error.None? ==> At(tree.files, output) == Some(last.written) && last.probe.Some?
                            && Validate.Accepted(plan.expected, last.probe.value, Some(last.written)))
    ensures tree.Valid() && old(tree.history) <= tree.history
    ensures var published := if r.error.Some? then {} else {(plan.outputPath, tree.files[plan.outputPath])};
      var w := Watch(|old(tree.history)| - 1, old(tree.rivals), Temps(plan, first, second), published);
      Leaves(tree, w, plan.outputPath, plan.expected)
  {
    ghost var output, w := plan.outputPath, Watch(|tree.history| - 1, tree.rivals, Temps(plan, first, second), {});
    WatchBegins(tree, w);
    TempIsNotOutput(output, first.suffix);
    TempIsNotOutput(output, second.suffix);
    if filters.Some? {
      WatchEnds(tree, w, output, plan.expected);
      return Outcome(Execution(CPUMode, CPUPath, CPUPath, NoFallback, 0), [], filters);
    }
    var error := ConvertOnce(tree, plan.args, plan.outputPath, plan.expected, first, w);
    var reason := ClassifyFailure(error, first.stderr);
    if error.None? || plan.path.CPUPath? || plan.cpuArgs == [] || reason == NoFallback {
      WatchEnds(tree, if error.None? then Publishing(w, output, first.written) else w, output, plan.expected);
      return Outcome(Execution(plan.requested, plan.path, plan.path, plan.fallback, 1), [plan.path], error);
    }
    var cpu := CPUPlan(plan, reason);
    assert At(tree.files, TempPath(output, second.suffix)) == None;
    error := ConvertOnce(tree, cpu.args, cpu.outputPath, cpu.expected, second, w);
    WatchEnds(tree, if error.None? then Publishing(w, output, second.written) else w, output, plan.expected);
    return Outcome(Execution(plan.requested, plan.path, CPUPath, reason, 2), [plan.path, CPUPath], error);
  }
}
