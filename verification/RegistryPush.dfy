/** Publishing a candidate image to a registry, request by request.

    Content is identified by value: a digest stands for exactly one content.  A push
    may stop at any request, and the request it stops at may still have taken effect
    with only its answer lost. */
module RegistryPush {
  import opened Options

  type Blob = nat
  type Tag = string

  datatype Manifest = Manifest(config: Blob, layers: seq<Blob>)
  {
    function Blobs(): seq<Blob> {
      [config] + layers
    }
  }

  /** One manifest of an index; `runtime` says that it is for the platform the program runs on. */
  datatype Entry = Entry(manifest: Manifest, runtime: bool)

  datatype Index = Index(entries: seq<Entry>)

  datatype State = State(blobs: set<Blob>, manifests: set<Manifest>, tags: map<Tag, Index>)

  datatype PushError = RequestFailed | AmbiguousRuntime | RuntimeDiffers | IndexDiffers | NoAttestations | NotPublished

  // ---------------------------------------------------------------- references

  /** Everything a manifest refers to is stored. */
  ghost predicate ManifestStored(s: State, m: Manifest) {
    m in s.manifests && forall b :: b in m.Blobs() ==> b in s.blobs
  }

  /** Everything reachable from an index is stored. */
  ghost predicate Stored(s: State, index: Index) {
    forall e :: e in index.entries ==> ManifestStored(s, e.manifest)
  }

  /** No tag leads to something that is not stored. */
  ghost predicate Closed(s: State) {
    forall t :: t in s.tags ==> Stored(s, s.tags[t])
  }

  /** The one runtime manifest of an index, if there is exactly one. */
  function Runtimes(entries: seq<Entry>): (r: seq<Manifest>)
    ensures |r| <= |entries|
    ensures forall m :: m in r <==> Entry(m, true) in entries
  {
    if entries == [] then []
    else
      var last := entries[|entries| - 1];
      Runtimes(entries[..|entries| - 1]) + if last.runtime then [last.manifest] else []
  }

  function RuntimeOf(index: Index): Option<Manifest> {
    if |Runtimes(index.entries)| == 1 then Some(Runtimes(index.entries)[0]) else None
  }

  /** What looking a tag up says about a candidate: absent, the candidate, or why not. */
  function Existing(s: State, tag: Tag, candidate: Index): Result<Option<Index>, PushError>
    requires RuntimeOf(candidate).Some?
  {
    if tag !in s.tags then Ok(None)
    else
      var index := s.tags[tag];
      if RuntimeOf(index).None? then Err(AmbiguousRuntime)
      else if RuntimeOf(index) != RuntimeOf(candidate) then Err(RuntimeDiffers)
      else if index != candidate then Err(IndexDiffers)
      else if |index.entries| < 2 then Err(NoAttestations)
      else Ok(Some(index))
  }

  /** A tag passes the look-up exactly when it is free or already the attested
      candidate itself. */
  lemma ExistingExact(s: State, tag: Tag, candidate: Index)
    requires RuntimeOf(candidate).Some?
    ensures Existing(s, tag, candidate).Ok? <==>
            tag !in s.tags || (s.tags[tag] == candidate && |candidate.entries| >= 2)
    ensures Existing(s, tag, candidate) == Ok(None) <==> tag !in s.tags
  {
  }

  // ---------------------------------------------------------------- one push, for every crash point

  /** How far a push may have got: only ever adding, manifests after their blobs, and
      the tag last.  `rival` is what another writer published under the tag before the
      second look, if anything: then that is what the tag stays. */
  ghost predicate Pushed(s: State, s': State, tag: Tag, candidate: Index, rival: Option<Index>) {
    var published := if rival.Some? then rival.value else candidate;
    && s.blobs <= s'.blobs && s.manifests <= s'.manifests
    && (forall m :: m in s'.manifests && m !in s.manifests ==> ManifestStored(s', m))
    && (s'.tags == s.tags || (tag !in s.tags && s'.tags == s.tags[tag := published] && Stored(s', published)))
    && (tag in s.tags ==> s' == s)
  }

  class Registry {
    var blobs: set<Blob>
    var manifests: set<Manifest>
    var tags: map<Tag, Index>
    /** Requests left before the connection fails, if it ever does. */
    var budget: Option<nat>
    /** Whether the failing request took effect all the same. */
    const lost: bool

    constructor (s: State, budget: Option<nat>, lost: bool)
      ensures View() == s && this.budget == budget && this.lost == lost
    {
      blobs, manifests, tags := s.blobs, s.manifests, s.tags;
      this.budget, this.lost := budget, lost;
    }

    function View(): State
      reads this
    {
      State(blobs, manifests, tags)
    }

    /** Sends one request: whether it takes effect, and whether it is answered. */
    method Send() returns (takes: bool, answered: bool)
      modifies this`budget
      ensures answered ==> takes
      ensures old(budget).None? ==> budget.None? && answered
    {
      if budget.None? {
        return true, true;
      }
      if budget.value == 0 {
        return lost, false;
      }
      budget := Some(budget.value - 1);
      return true, true;
    }

    method LookUp(tag: Tag, candidate: Index) returns (r: Result<Option<Index>, PushError>)
      requires RuntimeOf(candidate).Some?
      modifies this`budget
      ensures r == Existing(View(), tag, candidate) || (old(budget).Some? && r == Err(RequestFailed))
      ensures old(budget).None? ==> budget.None?
    {
      var _, answered := Send();
      if !answered {
        return Err(RequestFailed);
      }
      return Existing(View(), tag, candidate);
    }

    /** Uploads a blob unless the registry has it. */
    method UploadBlob(b: Blob) returns (ok: bool)
      modifies this`blobs, this`budget
      ensures ok ==> b in blobs
      ensures blobs == old(blobs) || blobs == old(blobs) + {b}
      ensures old(budget).None? ==> ok && budget.None?
    {
      var takes, answered := Send();
      if !answered {
        return false;
      }
      if b in blobs {
        return true;
      }
      takes, answered := Send();
      if !answered {
        return false;
      }
      takes, answered := Send();
      if takes {
        blobs := blobs + {b};
      }
      return answered;
    }

    /** A manifest's blobs first, then the manifest. */
    method UploadManifest(m: Manifest) returns (ok: bool)
      modifies this`blobs, this`manifests, this`budget
      ensures old(blobs) <= blobs && (manifests == old(manifests) || manifests == old(manifests) + {m})
      ensures ok || (m !in old(manifests) && m in manifests) ==> ManifestStored(View(), m)
      ensures old(budget).None? ==> ok && budget.None?
    {
      var todo := m.Blobs();
      for i := 0 to |todo|
        invariant old(blobs) <= blobs && manifests == old(manifests)
        invariant forall k :: 0 <= k < i ==> todo[k] in blobs
        invariant old(budget).None? ==> budget.None?
      {
        ok := UploadBlob(todo[i]);
        if !ok {
          return false;
        }
      }
      var takes, answered := Send();
      if takes {
        manifests := manifests + {m};
      }
      return answered;
    }

    /** The whole push, stopped after any number of requests.  A tag that exists is
        never replaced, and a different one stops the push before anything is
        uploaded; when the push succeeds the tag is the candidate, complete. */
    method Push(tag: Tag, candidate: Index, rival: Option<Index>) returns (r: Result<Index, PushError>)
      requires RuntimeOf(candidate).Some? && (rival.Some? ==> Stored(View(), rival.value))
      modifies this
      ensures Pushed(old(View()), View(), tag, candidate, rival)
      ensures tag in old(tags) && old(tags)[tag] != candidate ==> r.Err? && View() == old(View())
      ensures r.Ok? ==> r.value == candidate && tag in tags && tags[tag] == candidate
      ensures r.Ok? && Closed(old(View())) ==> Stored(View(), candidate)
      ensures old(budget).None? ==>
                (r.Ok? <==> |candidate.entries| >= 2
                            && (if tag in old(tags) then old(tags)[tag] == candidate
                                else rival.None? || rival.value == candidate))
    {
      ghost var before := View();
      var found := LookUp(tag, candidate);
      if found.Err? {
        return Err(found.error);
      }
      if found.value.Some? {
        return Ok(found.value.value);
      }
      for i := 0 to |candidate.entries|
        invariant tags == before.tags && before.blobs <= blobs && before.manifests <= manifests
        invariant forall m :: m in manifests && m !in before.manifests ==> ManifestStored(View(), m)
        invariant forall k :: 0 <= k < i ==> ManifestStored(View(), candidate.entries[k].manifest)
        invariant old(budget).None? ==> budget.None?
      {
        ghost var previous := View();
        var ok := UploadManifest(candidate.entries[i].manifest);
        StoredGrows(previous, View());
        if !ok {
          return Err(RequestFailed);
        }
      }
      if rival.Some? {
        StoredGrows(before, View());
        tags := tags[tag := rival.value];
        StoredGrows(before, View());
      }
      found := LookUp(tag, candidate);
      if found.Err? {
        return Err(found.error);
      }
      if found.value.Some? {
        return Ok(found.value.value);
      }
      var takes, answered := Send();
      ghost var uploaded := View();
      if takes {
        tags := tags[tag := candidate];
        StoredGrows(uploaded, View());
      }
      if !answered {
        return Err(RequestFailed);
      }
      found := LookUp(tag, candidate);
      if found.Err? {
        return Err(found.error);
      }
      if found.value != Some(candidate) {
        return Err(NotPublished);
      }
      return Ok(candidate);
    }
  }

  lemma StoredGrows(s: State, s': State)
    requires s.blobs <= s'.blobs && s.manifests <= s'.manifests
    ensures forall m :: ManifestStored(s, m) ==> ManifestStored(s', m)
    ensures forall index :: Stored(s, index) ==> Stored(s', index)
  {
  }

  // ---------------------------------------------------------------- any number of pushes, one after the other

  /** One push of a history, by whichever writer, to whichever tag, stopped anywhere. */
  ghost predicate Next(s: State, s': State) {
    exists tag, candidate, rival :: Pushed(s, s', tag, candidate, rival)
  }

  ghost predicate Linked(states: seq<State>, i: nat)
    requires i < |states| - 1
  {
    Next(states[i], states[i + 1])
  }

  ghost predicate History(states: seq<State>) {
    forall i :: 0 <= i < |states| - 1 ==> Linked(states, i)
  }

  lemma PushKeepsClosed(s: State, s': State)
    requires Closed(s) && Next(s, s')
    ensures Closed(s')
    ensures forall t :: t in s.tags ==> t in s'.tags && s'.tags[t] == s.tags[t]
  {
    var tag, candidate, rival :| Pushed(s, s', tag, candidate, rival);
    StoredGrows(s, s');
  }

  /** References stay closed at every crash point and after any retries: whatever a tag
      resolves to is completely stored. */
  lemma {:induction false} AlwaysClosed(states: seq<State>, i: nat)
    requires History(states) && i < |states| && Closed(states[0])
    ensures Closed(states[i])
  {
    if i > 0 {
      AlwaysClosed(states, i - 1);
      assert Linked(states, i - 1);
      PushKeepsClosed(states[i - 1], states[i]);
    }
  }

  /** A published tag never changes, as long as writers take turns. */
  lemma {:induction false} TagsAreImmutable(states: seq<State>, i: nat, j: nat, tag: Tag)
    requires History(states) && i <= j < |states| && Closed(states[0])
    requires tag in states[i].tags
    ensures tag in states[j].tags && states[j].tags[tag] == states[i].tags[tag]
  {
    if i < j {
      TagsAreImmutable(states, i, j - 1, tag);
      AlwaysClosed(states, j - 1);
      assert Linked(states, j - 1);
      PushKeepsClosed(states[j - 1], states[j]);
    }
  }
}
