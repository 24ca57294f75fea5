/** The byte account that concurrent uploads share, and why it protects the disk.

    `budget` holds what each live upload reserved, `left` what it may still write.
    Uploads write and abandon bytes at any time and in any interleaving; other
    requests only free space.  The account itself is one 64-bit number.  A request
    measures the free space and reserves under the manager's mutex, but uploads write
    without it, so what it measured may be out of date when it reserves. */
module UploadAccount {
  import opened Options

  type Tid = nat

  const MAX_INT64: int := 0x7FFF_FFFF_FFFF_FFFF
  newtype int64 = x: int | -MAX_INT64 - 1 <= x <= MAX_INT64

  /** `floor` is the free space to keep, `ceiling` the largest single upload. */
  datatype Limits = Limits(floor: nat, ceiling: nat)

  /** `measured` is what the request that holds the mutex has found free. */
  datatype Disk = Disk(free: int, uploads: int, budget: map<Tid, nat>, left: map<Tid, nat>, measured: Option<Measure>)

  datatype Measure = Measure(t: Tid, free: int)

  datatype Refusal = ShuttingDown | SpaceUnknown | InsufficientSpace | UploadTooLarge

  /** What a part that exceeds the grant is refused with. */
  datatype Grant = Grant(bytes: int, limitError: Refusal)

  /** Bytes to reserve, given the free space just measured. */
  function Reservation(l: Limits, free: int, uploads: int): Option<Grant> {
    if free <= l.floor || free - l.floor <= uploads then None
    else
      var usable := free - l.floor - uploads;
      if usable < l.ceiling then Some(Grant(usable, InsufficientSpace)) else Some(Grant(l.ceiling, UploadTooLarge))
  }

  // ---------------------------------------------------------------- sums over live uploads

  ghost function Sum(m: map<Tid, nat>): (n: nat)
    decreases |m|
  {
    if m == map[] then 0
    else
      var t :| t in m;
      m[t] + Sum(m - {t})
  }

  lemma {:induction false} SumRemove(m: map<Tid, nat>, t: Tid)
    requires t in m
    ensures Sum(m) == m[t] + Sum(m - {t})
    decreases |m|
  {
    var u :| u in m && Sum(m) == m[u] + Sum(m - {u});
    if u != t {
      SumRemove(m - {u}, t);
      SumRemove(m - {t}, u);
      assert m - {u} - {t} == m - {t} - {u};
    }
  }

  lemma SumSet(m: map<Tid, nat>, t: Tid, v: nat)
    ensures Sum(m[t := v]) == Sum(m - {t}) + v
  {
    SumRemove(m[t := v], t);
    assert m[t := v] - {t} == m - {t};
  }

  lemma SumSkip(m: map<Tid, nat>, t: Tid)
    requires t !in m
    ensures Sum(m - {t}) == Sum(m)
  {
    assert m - {t} == m;
  }

  // ---------------------------------------------------------------- interleavings

  datatype Action =
    | MeasureFree(t: Tid)
    | Reserve(t: Tid)
    | Write(t: Tid, bytes: nat)
    | Release(t: Tid)
    | Reclaim(bytes: nat)

  ghost predicate Step(l: Limits, d: Disk, d': Disk, a: Action) {
    match a
    case MeasureFree(t) =>
      t !in d.budget && d.measured.None? && d' == d.(measured := Some(Measure(t, d.free)))
    case Reserve(t) =>
      && t !in d.budget && d.measured.Some? && d.measured.value.t == t
      && var g := Reservation(l, d.measured.value.free, d.uploads);
         if g.None? then d' == d.(measured := None)
         else g.value.bytes >= 0 &&
              d' == d.(uploads := d.uploads + g.value.bytes, measured := None,
                       budget := d.budget[t := g.value.bytes], left := d.left[t := g.value.bytes])
    case Write(t, bytes) =>
      && t in d.left && bytes <= d.left[t]
      && d' == d.(free := d.free - bytes, left := d.left[t := d.left[t] - bytes])
    case Release(t) =>
      && t in d.budget && d.measured.None?
      && d' == d.(uploads := d.uploads - d.budget[t], budget := d.budget - {t}, left := d.left - {t})
    case Reclaim(bytes) =>
      d' == d.(free := d.free + bytes)
  }

  /** The account is the sum of the live budgets, and what may still be written
      fits above the floor.  Since a measurement, free space can only have shrunk by
      what the budgets had promised already. */
  ghost predicate Inv(l: Limits, d: Disk) {
    && d.uploads == Sum(d.budget)
    && d.left.Keys == d.budget.Keys
    && (forall t :: t in d.budget ==> 1 <= d.budget[t] <= l.ceiling && d.left[t] <= d.budget[t])
    && (Sum(d.left) == 0 || d.free - l.floor >= Sum(d.left))
    && (d.measured.Some? ==> d.free - Sum(d.left) >= d.measured.value.free - Sum(d.budget))
  }

  lemma {:induction false} LeftAtMostBudget(d: Disk)
    requires d.left.Keys == d.budget.Keys && forall t :: t in d.budget ==> d.left[t] <= d.budget[t]
    ensures Sum(d.left) <= Sum(d.budget)
    decreases |d.left|
  {
    if d.left != map[] {
      var t :| t in d.left;
      SumRemove(d.left, t);
      SumRemove(d.budget, t);
      LeftAtMostBudget(d.(left := d.left - {t}, budget := d.budget - {t}));
    } else {
      assert d.budget == map[];
    }
  }

  lemma ReserveKeeps(l: Limits, d: Disk, d': Disk, t: Tid)
    requires Inv(l, d) && Step(l, d, d', Reserve(t)) && l.ceiling >= 1
    ensures Inv(l, d') && d'.free == d.free
  {
    if Reservation(l, d.measured.value.free, d.uploads).Some? {
      SumSkip(d.budget, t);
      SumSkip(d.left, t);
      SumSet(d.budget, t, d'.budget[t]);
      SumSet(d.left, t, d'.left[t]);
    }
  }

  lemma WriteKeeps(l: Limits, d: Disk, d': Disk, t: Tid, bytes: nat)
    requires Inv(l, d) && Step(l, d, d', Write(t, bytes))
    ensures Inv(l, d') && (d.free >= l.floor ==> d'.free >= l.floor)
  {
    SumRemove(d.left, t);
    SumSet(d.left, t, d.left[t] - bytes);
  }

  lemma ReleaseKeeps(l: Limits, d: Disk, d': Disk, t: Tid)
    requires Inv(l, d) && Step(l, d, d', Release(t))
    ensures Inv(l, d') && d'.free == d.free
  {
    SumRemove(d.budget, t);
    SumRemove(d.left, t);
  }

  lemma StepKeeps(l: Limits, d: Disk, d': Disk, a: Action)
    requires Inv(l, d) && Step(l, d, d', a) && l.ceiling >= 1
    ensures Inv(l, d')
    ensures d.free >= l.floor ==> d'.free >= l.floor
  {
    match a
    case MeasureFree(t) => LeftAtMostBudget(d);
    case Reserve(t) => ReserveKeeps(l, d, d', t);
    case Write(t, bytes) => WriteKeeps(l, d, d', t, bytes);
    case Release(t) => ReleaseKeeps(l, d, d', t);
    case Reclaim(bytes) =>
  }

  ghost predicate Next(l: Limits, d: Disk, d': Disk) {
    exists a :: Step(l, d, d', a)
  }

  ghost predicate Linked(l: Limits, run: seq<Disk>, i: nat)
    requires i < |run| - 1
  {
    Next(l, run[i], run[i + 1])
  }

  ghost predicate Run(l: Limits, run: seq<Disk>) {
    && l.ceiling >= 1 && |run| > 0
    && run[0].uploads == 0 && run[0].budget == map[] && run[0].left == map[] && run[0].measured.None?
    && forall i :: 0 <= i < |run| - 1 ==> Linked(l, run, i)
  }

  lemma {:induction false} RunKeeps(l: Limits, run: seq<Disk>, i: nat)
    requires Run(l, run) && i < |run|
    ensures Inv(l, run[i])
  {
    if i > 0 {
      RunKeeps(l, run, i - 1);
      assert Linked(l, run, i - 1);
      var a :| Step(l, run[i - 1], run[i], a);
      StepKeeps(l, run[i - 1], run[i], a);
    }
  }

  /** The disk floor: once free space is at or above the floor, no interleaving of
      reservations, partial writes and releases ever takes it below. */
  lemma {:induction false} FloorHolds(l: Limits, run: seq<Disk>, i: nat, j: nat)
    requires Run(l, run) && i <= j < |run| && run[i].free >= l.floor
    ensures run[j].free >= l.floor
  {
    if i < j {
      FloorHolds(l, run, i, j - 1);
      RunKeeps(l, run, j - 1);
      assert Linked(l, run, j - 1);
      var a :| Step(l, run[j - 1], run[j], a);
      StepKeeps(l, run[j - 1], run[j], a);
    }
  }

  /** The account in every reachable state: the sum of the live budgets, each
      positive and at most the upload ceiling, and zero when no upload is live. */
  lemma AccountExact(l: Limits, run: seq<Disk>, i: nat)
    requires Run(l, run) && i < |run|
    ensures run[i].uploads == Sum(run[i].budget) >= 0
    ensures forall t :: t in run[i].budget ==> 1 <= run[i].budget[t] <= l.ceiling
    ensures run[i].uploads == 0 <==> run[i].budget == map[]
  {
    RunKeeps(l, run, i);
    if run[i].budget != map[] {
      var t :| t in run[i].budget;
      SumRemove(run[i].budget, t);
    }
  }

  /** What a request holds as measured was free at one moment since which no upload has
      joined or left. */
  lemma {:induction false} MeasuredBefore(l: Limits, run: seq<Disk>, i: nat) returns (j: nat)
    requires Run(l, run) && i < |run| && run[i].measured.Some?
    ensures j < i && Step(l, run[j], run[j + 1], MeasureFree(run[i].measured.value.t))
    ensures run[i].measured.value.free == run[j].free && run[i].budget == run[j].budget
  {
    assert i > 0 && Linked(l, run, i - 1);
    var a :| Step(l, run[i - 1], run[i], a);
    if a.MeasureFree? {
      j := i - 1;
    } else {
      j := MeasuredBefore(l, run, i - 1);
    }
  }

  /** In every run, a reservation is refused exactly when at the moment of the measurement
      not one byte more could be promised above the floor; otherwise it gets all that
      could be, up to the upload ceiling. */
  lemma RefusedIffNothingLeft(l: Limits, run: seq<Disk>, i: nat, t: Tid) returns (j: nat)
    requires Run(l, run) && i < |run| - 1 && Step(l, run[i], run[i + 1], Reserve(t))
    ensures j < i && Step(l, run[j], run[j + 1], MeasureFree(t))
    ensures var unpromised := run[j].free - l.floor - Sum(run[j].budget);
      && (t !in run[i + 1].budget <==> unpromised < 1)
      && (t in run[i + 1].budget ==>
            run[i + 1].budget[t] == if unpromised < l.ceiling then unpromised else l.ceiling)
  {
    RunKeeps(l, run, i);
    j := MeasuredBefore(l, run, i);
  }

  // ---------------------------------------------------------------- the account in place

  /** The manager's `uploads` field.  `budget` records who holds what; the code keeps
      it in the closures it hands out. */
  class Account {
    const floor: int64
    const ceiling: int64
    var accepting: bool
    var uploads: int64
    ghost var budget: map<Tid, nat>

    ghost predicate Valid()
      reads this
    {
      floor >= 0 && ceiling >= 1 && uploads as int == Sum(budget)
    }

    constructor (floor: int64, ceiling: int64)
      requires floor >= 0 && ceiling >= 1
      ensures Valid() && uploads == 0 && budget == map[] && accepting
      ensures this.floor == floor && this.ceiling == ceiling
    {
      this.floor, this.ceiling := floor, ceiling;
      accepting, uploads, budget := true, 0, map[];
    }

    /** No operation overflows, whatever free space is reported. */
    method Reserve(t: Tid, free: Option<int64>) returns (r: Result<Grant, Refusal>)
      requires Valid() && t !in budget
      modifies this`uploads, this`budget
      ensures Valid()
      ensures !accepting ==> r == Err(ShuttingDown)
      ensures accepting && free.None? ==> r == Err(SpaceUnknown)
      ensures accepting && free.Some? ==>
                var g := Reservation(Limits(floor as int, ceiling as int), free.value as int, old(uploads) as int);
                if g.Some? then r == Ok(g.value) else r == Err(InsufficientSpace)
      ensures r.Ok? ==> 1 <= r.value.bytes <= ceiling as int && budget == old(budget)[t := r.value.bytes]
      ensures r.Err? ==> budget == old(budget) && uploads == old(uploads)
    {
      if !accepting {
        return Err(ShuttingDown);
      }
      if free.None? {
        return Err(SpaceUnknown);
      }
      if free.value <= floor || free.value - floor <= uploads {
        return Err(InsufficientSpace);
      }
      var usable := free.value - floor - uploads;
      var bytes, limitError := ceiling, UploadTooLarge;
      if usable < ceiling {
        bytes, limitError := usable, InsufficientSpace;
      }
      SumSkip(budget, t);
      SumSet(budget, t, bytes as int);
      uploads := uploads + bytes;
      budget := budget[t := bytes as int];
      return Ok(Grant(bytes as int, limitError));
    }

    method Release(t: Tid, bytes: int64)
      requires Valid() && t in budget && budget[t] == bytes as int
      modifies this`uploads, this`budget
      ensures Valid() && budget == old(budget) - {t}
      ensures uploads as int == old(uploads) as int - bytes as int
    {
      SumRemove(budget, t);
      uploads := uploads - bytes;
      budget := budget - {t};
    }
  }
}
