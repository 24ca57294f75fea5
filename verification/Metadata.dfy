/** The search for sensitive metadata in the names of a probe's tags. */
module Metadata {
  import opened Streams
  import Texts

  /** The categories a report distinguishes. */
  datatype Sensitive = Sensitive(gps: bool, exif: bool, xmp: bool, gainMap: bool)

  const NOTHING := Sensitive(false, false, false, false)

  predicate Contains(s: string, part: string) {
    exists i :: 0 <= i <= |s| && Occurs(s, part, i)
  }

  predicate Occurs(s: string, part: string, i: nat) {
    i + |part| <= |s| && s[i..i + |part|] == part
  }

  /** Whether the name of a tag, in lower case, mentions some category. */
  predicate Mentions(tag: string, parts: set<string>) {
    exists part :: part in parts && Contains(Texts.Lowered(tag), part)
  }

  const GPS_PARTS := {"gps", "location", "iso6709"}
  const EXIF_PARTS := {"exif"}
  const XMP_PARTS := {"xmp"}
  const GAIN_MAP_PARTS := {"gainmap", "gain_map"}

  /** The tags of the container and of every stream. */
  ghost function Tags(input: Probe): set<string> {
    input.tags + StreamTags(input.streams)
  }

  ghost function StreamTags(streams: seq<Stream>): set<string> {
    set i, tag | 0 <= i < |streams| && tag in streams[i].tags :: tag
  }

  /** Some tag mentions a category. */
  ghost predicate Reveal(tags: set<string>, parts: set<string>) {
    exists tag :: tag in tags && Mentions(tag, parts)
  }

  lemma RevealEither(a: set<string>, b: set<string>, parts: set<string>)
    ensures Reveal(a + b, parts) <==> Reveal(a, parts) || Reveal(b, parts)
  {
    if tag :| tag in a && Mentions(tag, parts) {
      assert tag in a + b;
    }
    if tag :| tag in b && Mentions(tag, parts) {
      assert tag in a + b;
    }
  }

  lemma RevealAny(tags: set<string>, a: set<string>, b: set<string>)
    ensures Reveal(tags, a + b) <==> Reveal(tags, a) || Reveal(tags, b)
  {
    forall tag ensures Mentions(tag, a + b) <==> Mentions(tag, a) || Mentions(tag, b) {
      if part :| part in a && Contains(Texts.Lowered(tag), part) {
        assert part in a + b;
      }
      if part :| part in b && Contains(Texts.Lowered(tag), part) {
        assert part in a + b;
      }
    }
  }

  lemma RevealOne(tag: string, parts: set<string>)
    ensures Reveal({tag}, parts) <==> Mentions(tag, parts)
  {
    assert tag in {tag};
  }

  /** The categories that some tags mention. */
  ghost function Revealed(tags: set<string>): Sensitive {
    Sensitive(Reveal(tags, GPS_PARTS), Reveal(tags, EXIF_PARTS), Reveal(tags, XMP_PARTS), Reveal(tags, GAIN_MAP_PARTS))
  }

  function Either(a: Sensitive, b: Sensitive): Sensitive {
    Sensitive(a.gps || b.gps, a.exif || b.exif, a.xmp || b.xmp, a.gainMap || b.gainMap)
  }

  lemma RevealedEither(a: set<string>, b: set<string>)
    ensures Revealed(a + b) == Either(Revealed(a), Revealed(b))
  {
    RevealEither(a, b, GPS_PARTS);
    RevealEither(a, b, EXIF_PARTS);
    RevealEither(a, b, XMP_PARTS);
    RevealEither(a, b, GAIN_MAP_PARTS);
  }

  /** What one tag mentions. */
  function InTag(tag: string): (found: Sensitive)
    ensures found == Revealed({tag})
  {
    RevealOne(tag, GPS_PARTS);
    RevealOne(tag, EXIF_PARTS);
    RevealOne(tag, XMP_PARTS);
    RevealOne(tag, GAIN_MAP_PARTS);
    Sensitive(Mentions(tag, GPS_PARTS), Mentions(tag, EXIF_PARTS), Mentions(tag, XMP_PARTS),
              Mentions(tag, GAIN_MAP_PARTS))
  }

  lemma RevealedNext(tags: set<string>, rest: set<string>, tag: string)
    requires rest <= tags && tag in rest
    ensures Revealed(tags - (rest - {tag})) == Either(Revealed(tags - rest), Revealed({tag}))
  {
    RevealedEither(tags - rest, {tag});
    assert tags - (rest - {tag}) == tags - rest + {tag};
  }

  lemma RevealedNone()
    ensures Revealed({}) == NOTHING
  {
  }

  /** Goes through some tags in any order. */
  method Inspect(before: Sensitive, tags: set<string>) returns (found: Sensitive)
    ensures found == Either(before, Revealed(tags))
  {
    found := before;
    var rest := tags;
    RevealedNone();
    assert tags - rest == {};
    while rest != {}
      invariant rest <= tags && found == Either(before, Revealed(tags - rest))
      decreases |rest|
    {
      var tag :| tag in rest;
      RevealedNext(tags, rest, tag);
      found, rest := Either(found, InTag(tag)), rest - {tag};
    }
    assert tags - rest == tags;
  }

  /** Finds exactly the categories that the name of some tag mentions, wherever the tag
      is and however it is written. */
  method DetectSensitiveMetadata(input: Probe) returns (found: Sensitive)
    ensures found == Revealed(Tags(input))
  {
    found := Inspect(NOTHING, input.tags);
    assert input.tags + StreamTags(input.streams[..0]) == input.tags;
    for i := 0 to |input.streams|
      invariant found == Revealed(input.tags + StreamTags(input.streams[..i]))
    {
      ghost var before := input.tags + StreamTags(input.streams[..i]);
      assert before + input.streams[i].tags == input.tags + StreamTags(input.streams[..i + 1]);
      RevealedEither(before, input.streams[i].tags);
      found := Inspect(found, input.streams[i].tags);
    }
    assert input.streams[..|input.streams|] == input.streams;
  }
}
