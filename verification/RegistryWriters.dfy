/** Any number of pushes at once, request by request.  Writers that take turns are one
    case; here their requests mix in every order, and any of them may stop anywhere. */
module RegistryWriters {
  import opened Options
  import opened RegistryPush

  /** Where a push stands: the two looks at the tag, the uploads in between (the next
      blob of the next manifest), the assignment, and the last look. */
  datatype Phase = First | Sending(entry: nat, blob: nat) | Second | Assigning | Confirming | Ended(ok: bool)

  datatype Writer = Writer(tag: Tag, candidate: Index, phase: Phase)

  datatype System = System(registry: State, writers: map<nat, Writer>)

  /** Where a look at the tag leads. */
  function AfterLook(s: State, w: Writer, free: Phase): Phase
    requires RuntimeOf(w.candidate).Some?
  {
    match Existing(s, w.tag, w.candidate)
    case Err(_) => Ended(false)
    case Ok(Some(_)) => Ended(true)
    case Ok(None) => free
  }

  /** One request and its answer. */
  ghost predicate Request(s: State, w: Writer, s': State, phase: Phase) {
    && RuntimeOf(w.candidate).Some?
    && match w.phase
       case First => s' == s && phase == AfterLook(s, w, Sending(0, 0))
       case Sending(e, k) =>
         if e >= |w.candidate.entries| then s' == s && phase == Second
         else
           var m := w.candidate.entries[e].manifest;
           if k < |m.Blobs()| then s' == s.(blobs := s.blobs + {m.Blobs()[k]}) && phase == Sending(e, k + 1)
           else s' == s.(manifests := s.manifests + {m}) && phase == Sending(e + 1, 0)
       case Second => s' == s && phase == AfterLook(s, w, Assigning)
       case Assigning => s' == s.(tags := s.tags[w.tag := w.candidate]) && phase == Confirming
       case Confirming => s' == s && phase == Ended(Existing(s, w.tag, w.candidate) == Ok(Some(w.candidate)))
       case Ended(_) => false
  }

  /** A request without an answer: it may have taken effect, and the push is over. */
  ghost predicate Fails(s: State, w: Writer, s': State, phase: Phase) {
    phase == Ended(false) && (s' == s || exists p :: Request(s, w, s', p))
  }

  ghost predicate Step(y: System, y': System, id: nat) {
    && id in y.writers && id in y'.writers
    && y'.writers == y.writers[id := y.writers[id].(phase := y'.writers[id].phase)]
    && var w, phase := y.writers[id], y'.writers[id].phase;
      Request(y.registry, w, y'.registry, phase) || Fails(y.registry, w, y'.registry, phase)
  }

  ghost predicate Init(y: System) {
    && Closed(y.registry)
    && forall id :: id in y.writers ==> y.writers[id].phase == First && RuntimeOf(y.writers[id].candidate).Some?
  }

  ghost predicate Linked(run: seq<System>, steps: seq<nat>, i: nat)
    requires i < |steps| == |run| - 1
  {
    Step(run[i], run[i + 1], steps[i])
  }

  /** `steps[i]` is the writer that makes the i-th step. */
  ghost predicate Run(run: seq<System>, steps: seq<nat>) {
    && |run| == |steps| + 1 && Init(run[0])
    && forall i :: 0 <= i < |steps| ==> Linked(run, steps, i)
  }

  // ---------------------------------------------------------------- references stay closed

  /** What a writer has uploaded so far is stored. */
  ghost predicate WriterOK(s: State, w: Writer) {
    && RuntimeOf(w.candidate).Some?
    && match w.phase
       case Sending(e, k) => UploadedTo(s, w.candidate.entries, e, k)
       case Second => Stored(s, w.candidate)
       case Assigning => Stored(s, w.candidate)
       case Confirming => Stored(s, w.candidate)
       case _ => true
  }

  ghost predicate UploadedTo(s: State, entries: seq<Entry>, e: nat, k: nat) {
    && e <= |entries|
    && (forall i :: 0 <= i < e ==> ManifestStored(s, entries[i].manifest))
    && (e < |entries| ==>
          k <= |entries[e].manifest.Blobs()| && forall i :: 0 <= i < k ==> entries[e].manifest.Blobs()[i] in s.blobs)
  }

  ghost predicate Inv(y: System) {
    Closed(y.registry) && forall id :: id in y.writers ==> WriterOK(y.registry, y.writers[id])
  }

  /** What every request does to the registry: it only adds, or assigns a stored index. */
  ghost predicate Adds(s: State, w: Writer, s': State) {
    && s.blobs <= s'.blobs && s.manifests <= s'.manifests
    && (s'.tags == s.tags || (w.phase.Assigning? && s'.tags == s.tags[w.tag := w.candidate]))
  }

  lemma RequestAdds(s: State, w: Writer, s': State, phase: Phase)
    requires WriterOK(s, w) && Request(s, w, s', phase)
    ensures Adds(s, w, s') && WriterOK(s', w.(phase := phase))
  {
    StoredMore(s, s');
    if w.phase.Sending? && w.phase.entry < |w.candidate.entries| {
      SendingKeeps(s, w, s', phase);
    }
  }

  lemma StoredMore(s: State, s': State)
    requires s.blobs <= s'.blobs && s.manifests <= s'.manifests
    ensures forall m :: ManifestStored(s, m) ==> ManifestStored(s', m)
    ensures forall index :: Stored(s, index) ==> Stored(s', index)
  {
    StoredGrows(s, s');
  }

  lemma SendingKeeps(s: State, w: Writer, s': State, phase: Phase)
    requires WriterOK(s, w) && Request(s, w, s', phase)
    requires w.phase.Sending? && w.phase.entry < |w.candidate.entries|
    ensures WriterOK(s', w.(phase := phase))
  {
    var e, k := w.phase.entry, w.phase.blob;
    var m := w.candidate.entries[e].manifest;
    StoredMore(s, s');
    if k >= |m.Blobs()| {
      assert ManifestStored(s', m);
    }
  }

  lemma OtherWriterOK(s: State, s': State, w: Writer)
    requires WriterOK(s, w) && s.blobs <= s'.blobs && s.manifests <= s'.manifests
    ensures WriterOK(s', w)
  {
    StoredMore(s, s');
  }

  lemma StepAdds(y: System, y': System, id: nat)
    requires Inv(y) && Step(y, y', id)
    ensures Adds(y.registry, y.writers[id], y'.registry) && WriterOK(y'.registry, y'.writers[id])
  {
    var w, phase := y.writers[id], y'.writers[id].phase;
    if Request(y.registry, w, y'.registry, phase) {
      RequestAdds(y.registry, w, y'.registry, phase);
    } else if y'.registry != y.registry {
      var p :| Request(y.registry, w, y'.registry, p);
      RequestAdds(y.registry, w, y'.registry, p);
    }
  }

  lemma StepKeeps(y: System, y': System, id: nat)
    requires Inv(y) && Step(y, y', id)
    ensures Inv(y')
  {
    StepAdds(y, y', id);
    StoredMore(y.registry, y'.registry);
    assert WriterOK(y.registry, y.writers[id]);
    forall j | j in y'.writers ensures WriterOK(y'.registry, y'.writers[j]) {
      if j != id {
        OtherWriterOK(y.registry, y'.registry, y.writers[j]);
      }
    }
  }

  /** References stay closed at every moment, however the requests of any number of
      writers mix and wherever each of them stops: whatever a tag resolves to is
      completely stored. */
  lemma {:induction false} MixedStaysClosed(run: seq<System>, steps: seq<nat>, i: nat)
    requires Run(run, steps) && i < |run|
    ensures Inv(run[i]) && Closed(run[i].registry)
  {
    if i > 0 {
      MixedStaysClosed(run, steps, i - 1);
      assert Linked(run, steps, i - 1);
      StepKeeps(run[i - 1], run[i], steps[i - 1]);
    }
  }

  // ---------------------------------------------------------------- when a published tag is replaced

  /** The i-th step assigns the tag. */
  ghost predicate Assigns(run: seq<System>, steps: seq<nat>, i: nat, tag: Tag)
    requires i < |steps| == |run| - 1
  {
    && steps[i] in run[i].writers
    && var w := run[i].writers[steps[i]];
      w.tag == tag && w.phase.Assigning? && run[i + 1].registry.tags == run[i].registry.tags[tag := w.candidate]
  }

  /** Of the steps from i on before j, the k-th is the last to assign the tag. */
  ghost predicate LastAssigns(run: seq<System>, steps: seq<nat>, i: nat, k: nat, j: nat, tag: Tag)
    requires j <= |steps| == |run| - 1
  {
    && i <= k < j && Assigns(run, steps, k, tag)
    && forall l :: k < l < j ==> !Assigns(run, steps, l, tag)
  }

  lemma TagStep(run: seq<System>, steps: seq<nat>, i: nat, tag: Tag)
    requires Run(run, steps) && i < |steps|
    ensures !Assigns(run, steps, i, tag) ==>
              (tag in run[i + 1].registry.tags <==> tag in run[i].registry.tags)
              && (tag in run[i].registry.tags ==> run[i + 1].registry.tags[tag] == run[i].registry.tags[tag])
    ensures Assigns(run, steps, i, tag) ==>
              tag in run[i + 1].registry.tags
              && run[i + 1].registry.tags[tag] == run[i].writers[steps[i]].candidate
  {
    MixedStaysClosed(run, steps, i);
    assert Linked(run, steps, i);
    StepAdds(run[i], run[i + 1], steps[i]);
  }

  /** A tag that was free resolves to whatever was assigned last since. */
  lemma {:induction false} TagSince(run: seq<System>, steps: seq<nat>, i: nat, j: nat, tag: Tag)
    requires Run(run, steps) && i <= j < |run| && tag !in run[i].registry.tags
    ensures tag in run[j].registry.tags <==> exists k: nat :: LastAssigns(run, steps, i, k, j, tag)
    ensures forall k: nat :: LastAssigns(run, steps, i, k, j, tag) ==>
              tag in run[j].registry.tags && run[j].registry.tags[tag] == run[k].writers[steps[k]].candidate
    decreases j
  {
    if i < j {
      TagSince(run, steps, i, j - 1, tag);
      TagStep(run, steps, j - 1, tag);
      if Assigns(run, steps, j - 1, tag) {
        assert LastAssigns(run, steps, i, j - 1, j, tag);
      } else {
        forall k: nat | LastAssigns(run, steps, i, k, j, tag) ensures LastAssigns(run, steps, i, k, j - 1, tag) {
          assert k != j - 1;
        }
        if tag in run[j - 1].registry.tags {
          var k: nat :| LastAssigns(run, steps, i, k, j - 1, tag);
          assert LastAssigns(run, steps, i, k, j, tag);
        }
      }
    }
  }

  /** A writer about to assign has looked at the tag before, found it free, and has
      done nothing since. */
  lemma {:induction false} LookedBefore(run: seq<System>, steps: seq<nat>, j: nat, id: nat) returns (i: nat)
    requires Run(run, steps) && j < |run| && id in run[j].writers && run[j].writers[id].phase.Assigning?
    ensures i < j && steps[i] == id && id in run[i].writers
    ensures run[i].writers[id].phase.Second? && run[i].writers[id].tag == run[j].writers[id].tag
    ensures run[i].writers[id].tag !in run[i].registry.tags
    ensures forall l :: i < l <= j ==> id in run[l].writers && run[l].writers[id] == run[j].writers[id]
    ensures forall l :: i < l < j ==> steps[l] != id
    decreases j
  {
    assert j > 0;
    assert Linked(run, steps, j - 1);
    if steps[j - 1] == id {
      i := j - 1;
      var w := run[i].writers[id];
      assert Existing(run[i].registry, w.tag, w.candidate) == Ok(None);
    } else {
      assert run[j - 1].writers[id] == run[j].writers[id];
      i := LookedBefore(run, steps, j - 1, id);
    }
  }

  /** Since its look a writer has assigned nothing, so whoever did is another. */
  lemma OtherAssigner(run: seq<System>, steps: seq<nat>, i: nat, k: nat, j: nat, id: nat, tag: Tag)
    requires i <= k < j <= |steps| == |run| - 1 && steps[i] == id && id in run[i].writers
    requires run[i].writers[id].phase.Second? && id in run[j].writers
    requires forall l :: i < l <= j ==> id in run[l].writers && run[l].writers[id] == run[j].writers[id]
    requires forall l :: i < l < j ==> steps[l] != id
    requires Assigns(run, steps, k, tag)
    ensures i < k && steps[k] != id && id in run[k].writers && run[k].writers[id] == run[j].writers[id]
  {
  }

  /** Exactly when assigning replaces a published tag by something else: when, between
      the writer's own look at the tag and now, others assigned it too, the last of them
      with another candidate.  So nothing but taking turns protects the window. */
  lemma ReplacesIff(run: seq<System>, steps: seq<nat>, j: nat) returns (i: nat)
    requires Run(run, steps) && j < |steps|
    requires steps[j] in run[j].writers && run[j].writers[steps[j]].phase.Assigning?
    ensures var w := run[j].writers[steps[j]];
      && i < j && steps[i] == steps[j] && w.tag !in run[i].registry.tags
      && ((w.tag in run[j].registry.tags && run[j].registry.tags[w.tag] != w.candidate) <==>
          exists k: nat :: LastAssigns(run, steps, i, k, j, w.tag)
                      && steps[k] != steps[j] && run[k].writers[steps[k]].candidate != w.candidate)
  {
    var id := steps[j];
    var w := run[j].writers[id];
    i := LookedBefore(run, steps, j, id);
    TagSince(run, steps, i, j, w.tag);
    forall k: nat | LastAssigns(run, steps, i, k, j, w.tag) ensures steps[k] != id {
      OtherAssigner(run, steps, i, k, j, id, w.tag);
    }
  }

  /** Writers take turns at a tag: nobody else is between look and assignment. */
  ghost predicate TurnsAt(run: seq<System>, tag: Tag) {
    forall l, a, b :: 0 <= l < |run| && a in run[l].writers && b in run[l].writers && a != b
                      && run[l].writers[a].tag == tag && run[l].writers[b].tag == tag ==>
                        !(run[l].writers[a].phase.Assigning? && run[l].writers[b].phase.Assigning?)
  }

  /** While writers take turns at a tag, a published tag never changes. */
  lemma {:induction false} TurnsKeepTag(run: seq<System>, steps: seq<nat>, i: nat, j: nat, tag: Tag)
    requires Run(run, steps) && TurnsAt(run, tag) && i <= j < |run| && tag in run[i].registry.tags
    ensures tag in run[j].registry.tags && run[j].registry.tags[tag] == run[i].registry.tags[tag]
    decreases j
  {
    if i < j {
      TurnsKeepTag(run, steps, i, j - 1, tag);
      TagStep(run, steps, j - 1, tag);
      if Assigns(run, steps, j - 1, tag) {
        AssignmentAlone(run, steps, j - 1, tag);
      }
    }
  }

  /** Taking turns, nobody assigns a tag between another's look and assignment. */
  lemma AssignmentAlone(run: seq<System>, steps: seq<nat>, j: nat, tag: Tag)
    requires Run(run, steps) && TurnsAt(run, tag) && j < |steps|
    requires steps[j] in run[j].writers && run[j].writers[steps[j]].phase.Assigning?
    requires run[j].writers[steps[j]].tag == tag
    ensures tag !in run[j].registry.tags
  {
    var id := steps[j];
    var i := LookedBefore(run, steps, j, id);
    TagSince(run, steps, i, j, tag);
    if k: nat :| LastAssigns(run, steps, i, k, j, tag) {
      OtherAssigner(run, steps, i, k, j, id, tag);
      assert false;
    }
  }

  // ---------------------------------------------------------------- and it does happen

  /** Showing a system to be in every set that holds y and is closed under steps shows
      it to be reachable from y. */
  ghost predicate ClosedSet(R: System -> bool) {
    forall y, y', id :: R(y) && Step(y, y', id) ==> R(y')
  }

  function At(y: System, id: nat, phase: Phase): System
    requires id in y.writers
  {
    y.(writers := y.writers[id := y.writers[id].(phase := phase)])
  }

  lemma Moves(R: System -> bool, y: System, id: nat, s': State, phase: Phase)
    requires ClosedSet(R) && R(y) && id in y.writers && Request(y.registry, y.writers[id], s', phase)
    ensures R(At(y, id, phase).(registry := s'))
  {
    var y' := At(y, id, phase).(registry := s');
    assert Step(y, y', id);
  }

  /** A writer left alone finishes its uploads. */
  lemma {:induction false} FinishesSending(R: System -> bool, y: System, id: nat) returns (y': System)
    requires ClosedSet(R) && R(y) && id in y.writers && RuntimeOf(y.writers[id].candidate).Some?
    requires y.writers[id].phase.Sending?
    ensures R(y') && y'.writers == At(y, id, Second).writers && y'.registry.tags == y.registry.tags
    decreases Left(y.writers[id]), Rest(y.writers[id])
  {
    var w := y.writers[id];
    var e, k := w.phase.entry, w.phase.blob;
    if e >= |w.candidate.entries| {
      Moves(R, y, id, y.registry, Second);
      y' := At(y, id, Second);
    } else {
      var m := w.candidate.entries[e].manifest;
      var more := k < |m.Blobs()|;
      var s' := if more then y.registry.(blobs := y.registry.blobs + {m.Blobs()[k]})
                else y.registry.(manifests := y.registry.manifests + {m});
      var phase := if more then Sending(e, k + 1) else Sending(e + 1, 0);
      Moves(R, y, id, s', phase);
      var next := At(y, id, phase).(registry := s');
      y' := FinishesSending(R, next, id);
      assert At(next, id, Second).writers == At(y, id, Second).writers;
    }
  }

  function Left(w: Writer): nat
    requires w.phase.Sending?
  {
    if w.phase.entry < |w.candidate.entries| then |w.candidate.entries| - w.phase.entry else 0
  }

  function Rest(w: Writer): nat
    requires w.phase.Sending?
  {
    if w.phase.entry < |w.candidate.entries|
    then var n := |w.candidate.entries[w.phase.entry].manifest.Blobs()|; if w.phase.blob < n then n - w.phase.blob else 0
    else 0
  }

  /** A writer left alone at a free tag gets to the point of assigning it. */
  lemma GetsToAssign(R: System -> bool, y: System, id: nat) returns (y': System)
    requires ClosedSet(R) && R(y) && id in y.writers && RuntimeOf(y.writers[id].candidate).Some?
    requires y.writers[id].phase.First? && y.writers[id].tag !in y.registry.tags
    ensures R(y') && y'.writers == At(y, id, Assigning).writers && y'.registry.tags == y.registry.tags
  {
    Moves(R, y, id, y.registry, Sending(0, 0));
    var sending := At(y, id, Sending(0, 0));
    var looking := FinishesSending(R, sending, id);
    assert looking.writers == At(y, id, Second).writers;
    Moves(R, looking, id, looking.registry, Assigning);
    y' := At(looking, id, Assigning);
    assert y'.writers == At(y, id, Assigning).writers;
  }

  /** Whatever two different candidates are pushed to one free tag, some order of their
      requests publishes the one and then replaces it by the other. */
  lemma AnyTwoMayReplace(R: System -> bool, y: System, a: nat, b: nat) returns (before: System, after: System)
    requires ClosedSet(R) && R(y) && Init(y) && a in y.writers && b in y.writers && a != b
    requires y.writers[a].tag == y.writers[b].tag && y.writers[a].tag !in y.registry.tags
    requires y.writers[a].candidate != y.writers[b].candidate
    ensures R(before) && R(after) && Step(before, after, b)
    ensures var tag := y.writers[a].tag;
      && tag in before.registry.tags && before.registry.tags[tag] == y.writers[a].candidate
      && tag in after.registry.tags && after.registry.tags[tag] == y.writers[b].candidate
  {
    var tag := y.writers[a].tag;
    var first := GetsToAssign(R, y, a);
    var both := GetsToAssign(R, first, b);
    assert both.writers[a].phase.Assigning? && both.writers[a].candidate == y.writers[a].candidate;
    var s1 := both.registry.(tags := both.registry.tags[tag := y.writers[a].candidate]);
    Moves(R, both, a, s1, Confirming);
    before := At(both, a, Confirming).(registry := s1);
    var s2 := s1.(tags := s1.tags[tag := y.writers[b].candidate]);
    Moves(R, before, b, s2, Confirming);
    after := At(before, b, Confirming).(registry := s2);
    assert Request(s1, before.writers[b], s2, Confirming);
  }

  ghost predicate Reachable(y: System, z: System) {
    exists run, steps :: Run(run, steps) && run[0] == y && run[|run| - 1] == z
  }

  lemma ReachableIsClosed(y: System)
    ensures ClosedSet(z => Reachable(y, z))
  {
    forall z, z', id | Reachable(y, z) && Step(z, z', id) ensures Reachable(y, z') {
      var run, steps :| Run(run, steps) && run[0] == y && run[|run| - 1] == z;
      var run', steps' := run + [z'], steps + [id];
      forall i | 0 <= i < |steps'| ensures Linked(run', steps', i) {
        if i < |steps| {
          assert Linked(run, steps, i);
        }
      }
      assert Run(run', steps');
    }
  }

  lemma InterleavedWritersReplace(y: System, a: nat, b: nat) returns (before: System, after: System)
    requires Init(y) && a in y.writers && b in y.writers && a != b
    requires y.writers[a].tag == y.writers[b].tag && y.writers[a].tag !in y.registry.tags
    requires y.writers[a].candidate != y.writers[b].candidate
    ensures Reachable(y, before) && Step(before, after, b)
    ensures var tag := y.writers[a].tag;
      && tag in before.registry.tags && before.registry.tags[tag] == y.writers[a].candidate
      && tag in after.registry.tags && after.registry.tags[tag] == y.writers[b].candidate
  {
    ReachableIsClosed(y);
    assert Run([y], []);
    before, after := AnyTwoMayReplace(z => Reachable(y, z), y, a, b);
  }
}
