/** The walk over the top-level boxes of an MP4 file (section 4.2 of ISO/IEC
    14496-12), against a declarative reading of the same bytes and against the
    serialization of a list of boxes. */
module Mp4 {
  import opened Options

  type byte = x: int | 0 <= x < 0x100

  const MOOV: seq<byte> := [0x6d, 0x6f, 0x6f, 0x76]
  const MDAT: seq<byte> := [0x6d, 0x64, 0x61, 0x74]

  datatype BoxError =
    | NegativeSize
    | TruncatedHeader
    | TruncatedExtendedHeader
    | ReadFailed
    | InvalidSize

  // ---------------------------------------------------------------- numbers

  function U32(b: seq<byte>): nat
    requires |b| == 4
  {
    b[0] as int * 0x100_0000 + b[1] as int * 0x1_0000 + b[2] as int * 0x100 + b[3] as int
  }

  function EncodeU32(n: nat): (b: seq<byte>)
    requires n < 0x1_0000_0000
    ensures |b| == 4 && U32(b) == n
  {
    var a := n / 0x100;
    var b := a / 0x100;
    var c := b / 0x100;
    [c, b % 0x100, a % 0x100, n % 0x100]
  }

  function U64(b: seq<byte>): nat
    requires |b| == 8
  {
    U32(b[..4]) * 0x1_0000_0000 + U32(b[4..])
  }

  function EncodeU64(n: nat): (b: seq<byte>)
    requires n < 0x1_0000_0000_0000_0000
    ensures |b| == 8 && U64(b) == n
  {
    var hi, lo := EncodeU32(n / 0x1_0000_0000), EncodeU32(n % 0x1_0000_0000);
    assert (hi + lo)[..4] == hi && (hi + lo)[4..] == lo;
    hi + lo
  }

  /** The conversion to a signed 64-bit number keeps the bits. */
  function ToInt64(n: nat): int {
    if n < 0x8000_0000_0000_0000 then n else n - 0x1_0000_0000_0000_0000
  }

  // ---------------------------------------------------------------- one box as the bytes say

  /** Where a box ends, and what it is. */
  datatype Found = Found(end: int, kind: seq<byte>)

  /** Reading a box header at an offset of a file said to be `size` bytes long. */
  function BoxAt(data: seq<byte>, size: int, offset: nat): (r: Result<Found, BoxError>)
    requires offset < size
    ensures r.Ok? ==> offset + 8 <= r.value.end <= size && |r.value.kind| == 4
  {
    if size - offset < 8 then Err(TruncatedHeader)
    else if |data| < offset + 8 then Err(ReadFailed)
    else
      var short := U32(data[offset..offset + 4]);
      var kind := data[offset + 4..offset + 8];
      if short == 1 then
        if size - offset < 16 then Err(TruncatedExtendedHeader)
        else if |data| < offset + 16 then Err(ReadFailed)
        else
          var long := ToInt64(U64(data[offset + 8..offset + 16]));
          if long < 16 || long > size - offset then Err(InvalidSize) else Ok(Found(offset + long, kind))
      else
        var length := if short == 0 then size - offset else short;
        if length < 8 || length > size - offset then Err(InvalidSize) else Ok(Found(offset + length, kind))
  }

  /** Offsets of consecutive well-formed boxes before any media data, from the start. */
  ghost predicate Chain(data: seq<byte>, size: int, at: seq<nat>) {
    && |at| > 0 && at[0] == 0 && at[|at| - 1] <= size
    && forall i :: 0 <= i < |at| - 1 ==> Follows(data, size, at, i)
  }

  ghost predicate Follows(data: seq<byte>, size: int, at: seq<nat>, i: nat)
    requires i < |at| - 1
  {
    && at[i] < size
    && var box := BoxAt(data, size, at[i]);
       box.Ok? && box.value.kind != MDAT && box.value.end == at[i + 1]
  }

  // ---------------------------------------------------------------- the walk

  function Walk(data: seq<byte>, size: int, offset: nat, sawMoov: bool): Result<bool, BoxError>
    requires offset <= size
    decreases size - offset
  {
    if offset == size then Ok(false)
    else
      match BoxAt(data, size, offset)
      case Err(e) => Err(e)
      case Ok(box) =>
        if box.kind == MDAT then Ok(sawMoov)
        else Walk(data, size, box.end, sawMoov || box.kind == MOOV)
  }

  /** What the header at an offset says of its box, once its sizes are read. */
  lemma HeaderMeans(data: seq<byte>, size: int, offset: nat, headerSize: nat, boxSize: int)
    requires offset + 8 <= size && offset + 8 <= |data|
    requires var short := U32(data[offset..offset + 4]);
      if short == 1 then offset + 16 <= size && offset + 16 <= |data| && headerSize == 16
                         && boxSize == ToInt64(U64(data[offset + 8..offset + 16]))
      else headerSize == 8 && boxSize == if short == 0 then size - offset else short
    ensures BoxAt(data, size, offset)
            == if boxSize < headerSize || boxSize > size - offset then Err(InvalidSize)
               else Ok(Found(offset + boxSize, data[offset + 4..offset + 8]))
  {
  }

  lemma WalkMoves(data: seq<byte>, size: int, offset: nat, sawMoov: bool, box: Found)
    requires offset < size && BoxAt(data, size, offset) == Ok(box)
    ensures box.kind == MDAT ==> box.kind != MOOV && Walk(data, size, offset, sawMoov) == Ok(sawMoov)
    ensures box.kind != MDAT ==>
              Walk(data, size, offset, sawMoov) == Walk(data, size, box.end, sawMoov || box.kind == MOOV)
  {
    assert MOOV[1] != MDAT[1];
  }

  /** Copies bytes of the file into the header buffer, as far as the file goes. */
  method ReadAt(data: seq<byte>, header: array<byte>, from: nat, count: nat, offset: nat) returns (ok: bool)
    requires from + count <= header.Length
    modifies header
    ensures ok <==> offset + count <= |data|
    ensures ok ==> header[from..from + count] == data[offset..offset + count]
    ensures header[..from] == old(header[..from])
  {
    if |data| < offset + count {
      return false;
    }
    forall i | 0 <= i < count {
      header[from + i] := data[offset + i];
    }
    return true;
  }

  /** Reads the header at an offset, and its extension if it has one; leaves the kind of
      the box in the buffer.  `extent` is one past the last byte asked for. */
  method ReadHeader(data: seq<byte>, size: int, offset: nat, header: array<byte>)
    returns (boxSize: Result<int, BoxError>, ghost extent: nat)
    requires offset < size && header.Length == 16
    modifies header
    ensures boxSize.Err? ==> BoxAt(data, size, offset) == Err(boxSize.error)
    ensures boxSize.Ok? ==> BoxAt(data, size, offset) == Ok(Found(offset + boxSize.value, header[4..8]))
    ensures extent <= size
  {
    extent := 0;
    if size - offset < 8 {
      return Err(TruncatedHeader), extent;
    }
    extent := offset + 8;
    var ok := ReadAt(data, header, 0, 8, offset);
    if !ok {
      return Err(ReadFailed), extent;
    }
    ghost var first := header[..8];
    assert header[..4] == first[..4] == data[offset..offset + 4];
    assert header[4..8] == first[4..8] == data[offset + 4..offset + 8];
    var length: int := U32(header[..4]);
    var headerSize := 8;
    if length == 1 {
      if size - offset < 16 {
        return Err(TruncatedExtendedHeader), extent;
      }
      extent := offset + 16;
      ok := ReadAt(data, header, 8, 8, offset + 8);
      if !ok {
        return Err(ReadFailed), extent;
      }
      assert header[4..8] == header[..8][4..8] == first[4..8];
      length := ToInt64(U64(header[8..16]));
      headerSize := 16;
    } else if length == 0 {
      length := size - offset;
    }
    assert header[4..8] == data[offset + 4..offset + 8];
    HeaderMeans(data, size, offset, headerSize, length);
    if length < headerSize || length > size - offset {
      return Err(InvalidSize), extent;
    }
    return Ok(length), extent;
  }

  /** Terminates on every input, reads nothing at or past `size`, and computes the walk. */
  method HasFastStart(data: seq<byte>, size: int) returns (r: Result<bool, BoxError>, ghost extent: nat)
    ensures size < 0 ==> r == Err(NegativeSize)
    ensures size >= 0 ==> r == Walk(data, size, 0, false)
    ensures extent == 0 || extent <= size
  {
    extent := 0;
    if size < 0 {
      return Err(NegativeSize), 0;
    }
    var offset, sawMoov := 0, false;
    var header := new byte[16](_ => 0);
    while offset < size
      invariant 0 <= offset <= size && fresh(header)
      invariant extent == 0 || extent <= size
      invariant Walk(data, size, 0, false) == Walk(data, size, offset, sawMoov)
      decreases size - offset
    {
      var boxSize;
      boxSize, extent := ReadHeader(data, size, offset, header);
      if boxSize.Err? {
        return Err(boxSize.error), extent;
      }
      WalkMoves(data, size, offset, sawMoov, Found(offset + boxSize.value, header[4..8]));
      if header[4..8] == MOOV {
        sawMoov := true;
      } else if header[4..8] == MDAT {
        return Ok(sawMoov), extent;
      }
      offset := offset + boxSize.value;
    }
    return Ok(false), extent;
  }

  // ---------------------------------------------------------------- the walk is the declarative reading

  ghost predicate IsMoov(data: seq<byte>, size: int, offset: nat) {
    offset < size && BoxAt(data, size, offset).Ok? && BoxAt(data, size, offset).value.kind == MOOV
  }

  ghost predicate MoovBefore(data: seq<byte>, size: int, at: seq<nat>, n: nat)
    requires n <= |at|
  {
    exists i :: 0 <= i < n && IsMoov(data, size, at[i])
  }

  ghost predicate MoovAmong(data: seq<byte>, size: int, at: seq<nat>)
    requires at != []
  {
    MoovBefore(data, size, at, |at| - 1)
  }

  lemma MoovGrows(data: seq<byte>, size: int, at: seq<nat>, n: nat)
    requires n < |at|
    ensures MoovBefore(data, size, at, n + 1) <==> MoovBefore(data, size, at, n) || IsMoov(data, size, at[n])
  {
  }

  lemma {:induction false} WalkTo(data: seq<byte>, size: int, at: seq<nat>, n: nat, offset: nat, sawMoov: bool)
    requires Chain(data, size, at) && n < |at| && offset == at[n] <= size && sawMoov == MoovBefore(data, size, at, n)
    ensures Walk(data, size, 0, false) == Walk(data, size, offset, sawMoov)
    decreases n
  {
    if n == 0 {
      assert !sawMoov;
    } else {
      var before := at[n - 1];
      assert Follows(data, size, at, n - 1);
      WalkTo(data, size, at, n - 1, before, MoovBefore(data, size, at, n - 1));
      MoovGrows(data, size, at, n - 1);
      WalkMoves(data, size, before, MoovBefore(data, size, at, n - 1), BoxAt(data, size, before).value);
    }
  }

  lemma WalkAlong(data: seq<byte>, size: int, at: seq<nat>)
    requires Chain(data, size, at)
    ensures Walk(data, size, 0, false) == Walk(data, size, at[|at| - 1], MoovAmong(data, size, at))
  {
    WalkTo(data, size, at, |at| - 1, at[|at| - 1], MoovAmong(data, size, at));
  }

  /** There is always a longest chain: it ends at the end of the file, at media data,
      or at a malformed box. */
  lemma {:induction false} LongestChain(data: seq<byte>, size: int, at: seq<nat>) returns (all: seq<nat>)
    requires Chain(data, size, at)
    ensures Chain(data, size, all)
    ensures var last := all[|all| - 1];
      last == size || BoxAt(data, size, last).Err? || BoxAt(data, size, last).value.kind == MDAT
    decreases size - at[|at| - 1]
  {
    var last := at[|at| - 1];
    if last == size || BoxAt(data, size, last).Err? || BoxAt(data, size, last).value.kind == MDAT {
      all := at;
    } else {
      var more := at + [BoxAt(data, size, last).value.end];
      forall i | 0 <= i < |more| - 1 ensures Follows(data, size, more, i) {
        if i < |at| - 1 {
          assert Follows(data, size, at, i);
        }
      }
      all := LongestChain(data, size, more);
    }
  }

  ghost predicate EndsAtMdat(data: seq<byte>, size: int, at: seq<nat>) {
    && Chain(data, size, at) && at[|at| - 1] < size
    && var box := BoxAt(data, size, at[|at| - 1]); box.Ok? && box.value.kind == MDAT
  }

  ghost predicate EndsMalformed(data: seq<byte>, size: int, at: seq<nat>) {
    Chain(data, size, at) && at[|at| - 1] < size && BoxAt(data, size, at[|at| - 1]).Err?
  }

  /** What the answer means, for every file: an error exactly when a malformed box
      comes before any media data, and true exactly when media data comes after a
      movie box. */
  lemma WalkExact(data: seq<byte>, size: nat)
    ensures Walk(data, size, 0, false).Err? <==> exists at :: EndsMalformed(data, size, at)
    ensures Walk(data, size, 0, false) == Ok(true) <==>
            exists at :: EndsAtMdat(data, size, at) && MoovAmong(data, size, at)
  {
    var all := LongestChain(data, size, [0]);
    WalkAlong(data, size, all);
    if all[|all| - 1] < size {
      assert EndsMalformed(data, size, all) || EndsAtMdat(data, size, all);
    }
    forall at | EndsMalformed(data, size, at) ensures Walk(data, size, 0, false).Err? {
      WalkAlong(data, size, at);
    }
    forall at | EndsAtMdat(data, size, at) ensures Walk(data, size, 0, false) == Ok(MoovAmong(data, size, at)) {
      WalkAlong(data, size, at);
    }
  }

  // ---------------------------------------------------------------- serialized boxes

  datatype Form = Short | Long | ToEnd

  datatype Box = Box(kind: seq<byte>, form: Form, payload: seq<byte>)

  /** A box of a size its form can express. */
  predicate Fits(box: Box) {
    && |box.kind| == 4
    && (box.form.Short? ==> |box.payload| + 8 < 0x1_0000_0000)
    && (box.form.Long? ==> |box.payload| + 16 < 0x8000_0000_0000_0000)
  }

  /** A box running to the end of the file must be last. */
  ghost predicate WellFormed(boxes: seq<Box>) {
    forall i :: 0 <= i < |boxes| ==> Fits(boxes[i]) && (boxes[i].form.ToEnd? ==> i == |boxes| - 1)
  }

  function HeaderOf(box: Box): (h: seq<byte>)
    requires Fits(box)
    ensures |h| == (if box.form.Long? then 16 else 8) && h[4..8] == box.kind
    ensures box.form.Short? ==> U32(h[..4]) == |box.payload| + 8
    ensures box.form.Long? ==> U32(h[..4]) == 1 && U64(h[8..16]) == |box.payload| + 16
    ensures box.form.ToEnd? ==> U32(h[..4]) == 0
  {
    var size := match box.form
      case Short => EncodeU32(|box.payload| + 8)
      case Long => EncodeU32(1)
      case ToEnd => EncodeU32(0);
    var extended := if box.form.Long? then EncodeU64(|box.payload| + 16) else [];
    HeaderSlices(size, box.kind, extended);
    size + box.kind + extended
  }

  lemma HeaderSlices(size: seq<byte>, kind: seq<byte>, extended: seq<byte>)
    requires |size| == 4 && |kind| == 4
    ensures var h := size + kind + extended;
      h[..4] == size && h[4..8] == kind && h[8..8 + |extended|] == extended
  {
  }

  function Serialize(boxes: seq<Box>): seq<byte>
    requires WellFormed(boxes)
  {
    if boxes == [] then [] else HeaderOf(boxes[0]) + boxes[0].payload + Serialize(boxes[1..])
  }

  /** A movie box before the first media data box. */
  ghost predicate FastStart(boxes: seq<Box>) {
    exists i, j :: 0 <= i < j < |boxes| && boxes[i].kind == MOOV && boxes[j].kind == MDAT
                   && forall k :: 0 <= k < j ==> boxes[k].kind != MDAT
  }

  lemma SliceMiddle(a: seq<byte>, h: seq<byte>, t: seq<byte>, i: nat, j: nat)
    requires i <= j <= |h|
    ensures (a + (h + t))[|a| + i..|a| + j] == h[i..j]
  {
  }

  lemma HeaderStands(before: seq<byte>, h: seq<byte>, rest: seq<byte>, at: nat)
    requires |h| >= 8 && at == |before|
    ensures var data := before + (h + rest);
      && data[at..at + 4] == h[..4] && data[at + 4..at + 8] == h[4..8]
      && (|h| >= 16 ==> data[at + 8..at + 16] == h[8..16])
  {
    SliceMiddle(before, h, rest, 0, 4);
    assert h[0..4] == h[..4];
    SliceMiddle(before, h, rest, 4, 8);
    if |h| >= 16 {
      SliceMiddle(before, h, rest, 8, 16);
    }
  }

  /** The header of a serialized box, wherever it stands in a file, reads back. */
  lemma BoxReadsBack(before: seq<byte>, box: Box, rest: seq<byte>)
    requires Fits(box) && |rest| >= |box.payload| && (box.form.ToEnd? ==> |rest| == |box.payload|)
    ensures var data := before + (HeaderOf(box) + rest);
      BoxAt(data, |data|, |before|) == Ok(Found(|before| + |HeaderOf(box)| + |box.payload|, box.kind))
  {
    var h := HeaderOf(box);
    var data := before + (h + rest);
    HeaderStands(before, h, rest, |before|);
    HeaderMeans(data, |data|, |before|, |h|, |h| + |box.payload|);
  }

  /** The answer from some box on, given what came before. */
  ghost predicate FastFrom(boxes: seq<Box>, sawMoov: bool) {
    if boxes == [] then false
    else if boxes[0].kind == MDAT then sawMoov
    else FastFrom(boxes[1..], sawMoov || boxes[0].kind == MOOV)
  }

  lemma {:induction false} WalkSerialized(before: seq<byte>, boxes: seq<Box>, sawMoov: bool)
    requires WellFormed(boxes)
    ensures var data := before + Serialize(boxes);
      Walk(data, |data|, |before|, sawMoov) == Ok(FastFrom(boxes, sawMoov))
    decreases |boxes|
  {
    if boxes != [] {
      var box, rest := boxes[0], boxes[1..];
      SerializedHead(before, boxes);
      if box.kind != MDAT {
        WalkSerialized(before + HeaderOf(box) + box.payload, rest, sawMoov || box.kind == MOOV);
      }
    }
  }

  lemma Regroup(a: seq<byte>, b: seq<byte>, c: seq<byte>, d: seq<byte>)
    ensures a + (b + (c + d)) == a + (b + c + d) == (a + b + c) + d
  {
  }

  /** The first of the boxes reads back, and the others follow it. */
  lemma SerializedHead(before: seq<byte>, boxes: seq<Box>)
    requires WellFormed(boxes) && boxes != []
    ensures var box := boxes[0]; var data := before + Serialize(boxes);
      var next := before + HeaderOf(box) + box.payload;
      && BoxAt(data, |data|, |before|) == Ok(Found(|next|, box.kind))
      && data == next + Serialize(boxes[1..])
  {
    var box, tail := boxes[0], Serialize(boxes[1..]);
    assert box.form.ToEnd? ==> boxes[1..] == [];
    BoxReadsFrom(before, box, tail, Serialize(boxes));
  }

  lemma BoxReadsFrom(before: seq<byte>, box: Box, tail: seq<byte>, all: seq<byte>)
    requires Fits(box) && (box.form.ToEnd? ==> tail == []) && all == HeaderOf(box) + box.payload + tail
    ensures var data := before + all; var next := before + HeaderOf(box) + box.payload;
      && BoxAt(data, |data|, |before|) == Ok(Found(|next|, box.kind))
      && data == next + tail
  {
    Regroup(before, HeaderOf(box), box.payload, tail);
    BoxReadsBack(before, box, box.payload + tail);
  }

  lemma {:induction false} FastFromMeans(boxes: seq<Box>, sawMoov: bool)
    ensures FastFrom(boxes, sawMoov) <==>
            FastStart(boxes) || (sawMoov && exists j :: 0 <= j < |boxes| && boxes[j].kind == MDAT)
  {
    if boxes != [] {
      var rest := boxes[1..];
      FastFromMeans(rest, sawMoov || boxes[0].kind == MOOV);
      if boxes[0].kind != MDAT {
        FastStartTail(boxes);
        MdatTail(boxes);
      }
    }
  }

  lemma MdatTail(boxes: seq<Box>)
    requires boxes != [] && boxes[0].kind != MDAT
    ensures (exists j :: 0 <= j < |boxes| && boxes[j].kind == MDAT) <==>
            (exists j :: 0 <= j < |boxes[1..]| && boxes[1..][j].kind == MDAT)
  {
    if j :| 0 <= j < |boxes| && boxes[j].kind == MDAT {
      assert boxes[1..][j - 1] == boxes[j];
    }
  }

  lemma FastStartRest(boxes: seq<Box>)
    requires boxes != [] && FastStart(boxes)
    ensures FastStart(boxes[1..]) ||
            (boxes[0].kind == MOOV && exists j :: 0 <= j < |boxes[1..]| && boxes[1..][j].kind == MDAT)
  {
    var rest := boxes[1..];
    var i, j :| 0 <= i < j < |boxes| && boxes[i].kind == MOOV && boxes[j].kind == MDAT
                && forall k :: 0 <= k < j ==> boxes[k].kind != MDAT;
    assert rest[j - 1] == boxes[j];
    if i > 0 {
      forall k | 0 <= k < j - 1 ensures rest[k].kind != MDAT {
        assert rest[k] == boxes[k + 1];
      }
      assert rest[i - 1] == boxes[i];
      FastStartAt(rest, i - 1, j - 1);
    }
  }

  lemma FastStartTail(boxes: seq<Box>)
    requires boxes != [] && boxes[0].kind != MDAT
    ensures FastStart(boxes) <==>
            FastStart(boxes[1..]) ||
            (boxes[0].kind == MOOV && exists j :: 0 <= j < |boxes[1..]| && boxes[1..][j].kind == MDAT)
  {
    var rest := boxes[1..];
    if FastStart(boxes) {
      FastStartRest(boxes);
    }
    if FastStart(rest) {
      var i, j :| 0 <= i < j < |rest| && rest[i].kind == MOOV && rest[j].kind == MDAT
                  && forall k :: 0 <= k < j ==> rest[k].kind != MDAT;
      FastStartAt(boxes, i + 1, j + 1);
    } else if boxes[0].kind == MOOV && exists j :: 0 <= j < |rest| && rest[j].kind == MDAT {
      var j := FirstMdat(rest);
      FastStartAt(boxes, 0, j + 1);
    }
  }

  lemma FirstMdat(boxes: seq<Box>) returns (j: nat)
    requires exists j :: 0 <= j < |boxes| && boxes[j].kind == MDAT
    ensures j < |boxes| && boxes[j].kind == MDAT && forall k :: 0 <= k < j ==> boxes[k].kind != MDAT
  {
    j := 0;
    while boxes[j].kind != MDAT
      invariant j < |boxes| && forall k :: 0 <= k < j ==> boxes[k].kind != MDAT
      invariant exists m :: j <= m < |boxes| && boxes[m].kind == MDAT
      decreases |boxes| - j
    {
      j := j + 1;
    }
  }

  lemma FastStartAt(boxes: seq<Box>, i: nat, j: nat)
    requires i < j < |boxes| && boxes[i].kind == MOOV && boxes[j].kind == MDAT
    requires boxes[0].kind != MDAT && forall k :: 0 <= k < j - 1 ==> boxes[1..][k].kind != MDAT
    ensures FastStart(boxes)
  {
    forall k | 0 <= k < j ensures boxes[k].kind != MDAT {
      if k > 0 {
        assert boxes[1..][k - 1] == boxes[k];
      }
    }
  }

  /** For every list of boxes, in any mix of the three size forms, the walk over the
      serialized file says whether a movie box precedes the first media data. */
  lemma SerializedFastStart(boxes: seq<Box>)
    requires WellFormed(boxes)
    ensures Walk(Serialize(boxes), |Serialize(boxes)|, 0, false) == Ok(FastStart(boxes))
  {
    assert [] + Serialize(boxes) == Serialize(boxes);
    WalkSerialized([], boxes, false);
    FastFromMeans(boxes, false);
  }
}
