/** The registry of conversion profiles, in presentation order. */
module ProfileRegistry {
  import opened Options
  import opened Profiles

  datatype MediaKind = ImageMedia | AudioMedia | VideoMedia

  datatype Engine = ImageEngine | MediaEngine

  datatype Spec = Spec(
    operation: Operation,
    engine: Engine,
    acceptedInputs: seq<MediaKind>,
    recommendedFor: seq<MediaKind>,
    container: string)

  /** Every profile, in presentation order. */
  const REGISTRY: seq<Spec> := [
    Spec(CompatiblePhoto, ImageEngine, [ImageMedia], [ImageMedia], "jpeg"),
    Spec(EmailPhoto, ImageEngine, [ImageMedia], [], "jpeg"),
    Spec(SmallerPhoto, ImageEngine, [ImageMedia], [], "webp"),
    Spec(LosslessImage, ImageEngine, [ImageMedia], [], "png"),
    Spec(CompatibleVideo, MediaEngine, [VideoMedia], [VideoMedia], "mp4"),
    Spec(SmallerVideo, MediaEngine, [VideoMedia], [], "mp4"),
    Spec(ExtractAudio, MediaEngine, [AudioMedia, VideoMedia], [], "mp4"),
    Spec(CompatibleAudio, MediaEngine, [AudioMedia], [AudioMedia], "mp3"),
    Spec(LosslessAudio, MediaEngine, [AudioMedia], [], "flac")
  ]

  function Lookup(operation: Operation): Option<Spec> {
    match operation
    case CompatiblePhoto => Some(REGISTRY[0])
    case EmailPhoto => Some(REGISTRY[1])
    case SmallerPhoto => Some(REGISTRY[2])
    case LosslessImage => Some(REGISTRY[3])
    case CompatibleVideo => Some(REGISTRY[4])
    case SmallerVideo => Some(REGISTRY[5])
    case ExtractAudio => Some(REGISTRY[6])
    case CompatibleAudio => Some(REGISTRY[7])
    case LosslessAudio => Some(REGISTRY[8])
    case _ => None
  }

  /** Looking up finds a profile exactly when the registry lists the operation, and
      finds the listed one: no operation is listed twice. */
  lemma LookupExact(operation: Operation)
    ensures Lookup(operation).Some? <==> exists i :: 0 <= i < |REGISTRY| && REGISTRY[i].operation == operation
    ensures forall i :: 0 <= i < |REGISTRY| && REGISTRY[i].operation == operation ==>
            Lookup(operation) == Some(REGISTRY[i])
  {
    if Lookup(operation).Some? {
      assert REGISTRY[0].operation == CompatiblePhoto && REGISTRY[1].operation == EmailPhoto;
      assert REGISTRY[2].operation == SmallerPhoto && REGISTRY[3].operation == LosslessImage;
      assert REGISTRY[4].operation == CompatibleVideo && REGISTRY[5].operation == SmallerVideo;
      assert REGISTRY[6].operation == ExtractAudio && REGISTRY[7].operation == CompatibleAudio;
      assert REGISTRY[8].operation == LosslessAudio;
    }
  }

  /** The profiles of a list that accept a kind, in the order of the list. */
  function Accepting(specs: seq<Spec>, kind: MediaKind): (r: seq<Spec>)
    ensures forall s :: s in r <==> s in specs && kind in s.acceptedInputs
  {
    if specs == [] then []
    else
      var last := specs[|specs| - 1];
      Accepting(specs[..|specs| - 1], kind) + if kind in last.acceptedInputs then [last] else []
  }

  method Compatible(kind: MediaKind) returns (specs: seq<Spec>)
    ensures specs == Accepting(REGISTRY, kind)
  {
    specs := [];
    for i := 0 to |REGISTRY|
      invariant specs == Accepting(REGISTRY[..i], kind)
    {
      assert REGISTRY[..i + 1][..i] == REGISTRY[..i];
      if kind in REGISTRY[i].acceptedInputs {
        specs := specs + [REGISTRY[i]];
      }
    }
    assert REGISTRY[..|REGISTRY|] == REGISTRY;
  }

  /** The one profile recommended for each kind accepts that kind. */
  function Recommended(kind: MediaKind): (r: Operation)
    ensures Lookup(r).Some? && kind in Lookup(r).value.recommendedFor && kind in Lookup(r).value.acceptedInputs
  {
    match kind
    case ImageMedia => CompatiblePhoto
    case VideoMedia => CompatibleVideo
    case AudioMedia => CompatibleAudio
  }

  /** The search for a recommendation never comes back empty. */
  method FindRecommended(kind: MediaKind) returns (found: Option<Operation>)
    ensures found == Some(Recommended(kind))
  {
    assert ImageMedia in REGISTRY[0].recommendedFor;
    assert VideoMedia in REGISTRY[4].recommendedFor;
    assert AudioMedia in REGISTRY[7].recommendedFor;
    for i := 0 to |REGISTRY|
      invariant forall k :: 0 <= k < i ==> kind !in REGISTRY[k].recommendedFor
    {
      if kind in REGISTRY[i].recommendedFor {
        return Some(REGISTRY[i].operation);
      }
    }
    return None;
  }
}
