/** The reference-counted table of per-job locks, step by step.

    A thread looks its lock object up, or makes one, and counts itself as a user
    under the manager's mutex; waits for the object; and on the way out unlocks it
    first and only then, under the mutex again, uncounts itself and drops the
    table entry when nobody is left.  `Engine` takes for granted that this amounts
    to one lock per job; here that is proved. */
module JobLocks {
  import opened Options

  type JobId = nat
  type Tid = nat
  type Handle = nat

  datatype Phase =
    | Out
    | Waiting(id: JobId, lock: Handle)
    | Inside(id: JobId, lock: Handle)
    | Leaving(id: JobId, lock: Handle)
  {
    predicate Uses(h: Handle) {
      !Out? && lock == h
    }
  }

  /** `table`, `users` and `holder` are the code's map, count and mutex; `made`
      numbers the lock objects made so far. */
  datatype State = State(
    table: map<JobId, Handle>,
    users: map<Handle, nat>,
    holder: map<Handle, Option<Tid>>,
    made: nat,
    threads: map<Tid, Phase>)

  datatype Action = Enter(id: JobId) | Lock | Unlock | Leave

  ghost predicate Init(s: State) {
    && s.table == map[] && s.users == map[] && s.holder == map[]
    && forall t :: t in s.threads ==> s.threads[t].Out?
  }

  ghost predicate Step(s: State, s': State, t: Tid, a: Action) {
    t in s.threads && var p := s.threads[t];
    match a
    case Enter(id) =>
      p.Out? &&
      if id in s.table then
        s.table[id] in s.users &&
        s' == s.(users := s.users[s.table[id] := s.users[s.table[id]] + 1],
                 threads := s.threads[t := Waiting(id, s.table[id])])
      else
        s' == s.(table := s.table[id := s.made], made := s.made + 1,
                 users := s.users[s.made := 1], holder := s.holder[s.made := None],
                 threads := s.threads[t := Waiting(id, s.made)])
    case Lock =>
      p.Waiting? && p.lock in s.holder && s.holder[p.lock].None? &&
      s' == s.(holder := s.holder[p.lock := Some(t)], threads := s.threads[t := Inside(p.id, p.lock)])
    case Unlock =>
      p.Inside? && p.lock in s.holder &&
      s' == s.(holder := s.holder[p.lock := None], threads := s.threads[t := Leaving(p.id, p.lock)])
    case Leave =>
      p.Leaving? && p.lock in s.users && s.users[p.lock] > 0 &&
      s' == s.(users := s.users[p.lock := s.users[p.lock] - 1],
               table := if s.users[p.lock] == 1 then s.table - {p.id} else s.table,
               threads := s.threads[t := Out])
  }

  // ---------------------------------------------------------------- the invariant

  ghost function Users(s: State, h: Handle): set<Tid> {
    set t | t in s.threads && s.threads[t].Uses(h)
  }

  /** Whoever uses a lock of a job uses the one in the table. */
  ghost predicate UsersListed(s: State) {
    forall t :: t in s.threads && !s.threads[t].Out? ==>
                  s.threads[t].id in s.table && s.table[s.threads[t].id] == s.threads[t].lock
  }

  ghost predicate TableOK(s: State) {
    && (forall id :: id in s.table ==> LiveLock(s, s.table[id]))
    && (forall i, j :: i in s.table && j in s.table && i != j ==> s.table[i] != s.table[j])
  }

  ghost predicate LiveLock(s: State, h: Handle) {
    h < s.made && h in s.users && h in s.holder && s.users[h] >= 1
  }

  ghost predicate CountsOK(s: State) {
    forall id :: id in s.table && s.table[id] in s.users ==> s.users[s.table[id]] == |Users(s, s.table[id])|
  }

  ghost predicate HoldersOK(s: State) {
    forall id :: id in s.table && s.table[id] in s.holder ==>
      forall t :: s.holder[s.table[id]] == Some(t) <==>
                  t in s.threads && s.threads[t].Inside? && s.threads[t].lock == s.table[id]
  }

  ghost predicate Inv(s: State) {
    UsersListed(s) && TableOK(s) && CountsOK(s) && HoldersOK(s)
  }

  lemma UsersMove(s: State, s': State, t: Tid, p: Phase, h: Handle)
    requires t in s.threads && s'.threads == s.threads[t := p]
    ensures Users(s', h) == if p.Uses(h) then Users(s, h) + {t} else Users(s, h) - {t}
  {
  }

  lemma CountsMove(s: State, s': State, t: Tid, h: Handle)
    requires t in s.threads && t in s'.threads && s'.threads == s.threads[t := s'.threads[t]]
    ensures |Users(s', h)| ==
            |Users(s, h)| + (if s'.threads[t].Uses(h) then 1 else 0) - if s.threads[t].Uses(h) then 1 else 0
  {
    UsersMove(s, s', t, s'.threads[t], h);
    var rest := Users(s, h) - {t};
    assert Users(s, h) == if s.threads[t].Uses(h) then rest + {t} else rest;
    assert Users(s', h) == if s'.threads[t].Uses(h) then rest + {t} else rest;
  }

  /** A new lock object has no users yet. */
  lemma FreshUnused(s: State, h: Handle)
    requires UsersListed(s) && TableOK(s) && h >= s.made
    ensures Users(s, h) == {}
  {
  }

  /** The last user out is the only one: nobody waits on the object it drops. */
  lemma LastUser(s: State, t: Tid, u: Tid)
    requires Inv(s) && t in s.threads && u in s.threads
    requires !s.threads[t].Out? && s.threads[t].lock in s.users && s.users[s.threads[t].lock] == 1
    requires !s.threads[u].Out? && s.threads[u].id == s.threads[t].id
    ensures u == t
  {
    var h := s.threads[t].lock;
    assert {t, u} <= Users(s, h);
    if u != t {
      assert |{t, u}| == 2;
      SubsetSize({t, u}, Users(s, h));
    }
  }

  lemma CountsKept(s: State, s': State, t: Tid, a: Action)
    requires Inv(s) && Step(s, s', t, a)
    ensures CountsOK(s')
  {
    forall id | id in s'.table && s'.table[id] in s'.users ensures s'.users[s'.table[id]] == |Users(s', s'.table[id])| {
      CountsMove(s, s', t, s'.table[id]);
      FreshUnused(s, s.made);
    }
  }

  lemma ListedKept(s: State, s': State, t: Tid, a: Action)
    requires Inv(s) && Step(s, s', t, a)
    ensures UsersListed(s')
  {
    forall u | u in s'.threads && !s'.threads[u].Out?
      ensures s'.threads[u].id in s'.table && s'.table[s'.threads[u].id] == s'.threads[u].lock
    {
      if u != t && a.Leave? && s.users[s.threads[t].lock] == 1 && s.threads[u].id == s.threads[t].id {
        LastUser(s, t, u);
      }
    }
  }

  lemma HoldersKept(s: State, s': State, t: Tid, a: Action)
    requires Inv(s) && Step(s, s', t, a)
    ensures HoldersOK(s')
  {
  }

  lemma TableKept(s: State, s': State, t: Tid, a: Action)
    requires UsersListed(s) && TableOK(s) && Step(s, s', t, a)
    ensures TableOK(s')
  {
    forall id | id in s'.table ensures LiveLock(s', s'.table[id]) {
      if id in s.table {
        assert LiveLock(s, s.table[id]);
      }
    }
  }

  lemma StepKeeps(s: State, s': State, t: Tid, a: Action)
    requires Inv(s) && Step(s, s', t, a)
    ensures Inv(s')
  {
    TableKept(s, s', t, a);
    ListedKept(s, s', t, a);
    CountsKept(s, s', t, a);
    HoldersKept(s, s', t, a);
  }

  ghost predicate Next(s: State, s': State) {
    exists t, a :: Step(s, s', t, a)
  }

  ghost predicate Linked(run: seq<State>, i: nat)
    requires i < |run| - 1
  {
    Next(run[i], run[i + 1])
  }

  ghost predicate Run(run: seq<State>) {
    && |run| > 0 && Init(run[0])
    && forall i :: 0 <= i < |run| - 1 ==> Linked(run, i)
  }

  lemma {:induction false} RunKeeps(run: seq<State>, i: nat)
    requires Run(run) && i < |run|
    ensures Inv(run[i])
  {
    if i > 0 {
      RunKeeps(run, i - 1);
      assert Linked(run, i - 1);
      var t, a :| Step(run[i - 1], run[i], t, a);
      StepKeeps(run[i - 1], run[i], t, a);
    }
  }

  // ---------------------------------------------------------------- what it guarantees

  /** At most one thread is inside a job's section, although the lock objects come
      and go; and two threads concerned with one job never hold different objects. */
  lemma MutualExclusion(run: seq<State>, i: nat, t: Tid, u: Tid)
    requires Run(run) && i < |run| && t in run[i].threads && u in run[i].threads
    requires !run[i].threads[t].Out? && !run[i].threads[u].Out?
    requires run[i].threads[t].id == run[i].threads[u].id
    ensures run[i].threads[t].lock == run[i].threads[u].lock
    ensures run[i].threads[t].Inside? && run[i].threads[u].Inside? ==> t == u
  {
    RunKeeps(run, i);
    var s := run[i];
    var h := s.table[s.threads[t].id];
    assert s.threads[t].Inside? ==> s.holder[h] == Some(t);
    assert s.threads[u].Inside? ==> s.holder[h] == Some(u);
  }

  /** The table holds an entry for a job exactly while someone uses its lock, and
      the entry counts those users. */
  lemma EntryIffUsed(run: seq<State>, i: nat, id: JobId)
    requires Run(run) && i < |run|
    ensures var s := run[i];
      && (id in s.table <==> exists t :: t in s.threads && !s.threads[t].Out? && s.threads[t].id == id)
      && (id in s.table ==>
            s.table[id] in s.users &&
            s.users[s.table[id]] == |set t | t in s.threads && !s.threads[t].Out? && s.threads[t].id == id|)
  {
    RunKeeps(run, i);
    var s := run[i];
    if id in s.table {
      var using := set t | t in s.threads && !s.threads[t].Out? && s.threads[t].id == id;
      assert Users(s, s.table[id]) == using;
      assert using != {};
      var t :| t in using;
    }
  }

  /** A waiting thread can go in exactly when nobody is inside: the protocol is one
      plain lock per job, with no lost wake-up. */
  lemma RefinesOneLock(run: seq<State>, i: nat, t: Tid)
    requires Run(run) && i < |run| && t in run[i].threads && run[i].threads[t].Waiting?
    ensures (exists s' :: Step(run[i], s', t, Lock)) <==>
            forall u :: u in run[i].threads && run[i].threads[u].Inside? ==>
                run[i].threads[u].id != run[i].threads[t].id
  {
    RunKeeps(run, i);
    var s := run[i];
    var p := s.threads[t];
    assert forall u :: u in s.threads && s.threads[u].Inside? ==> s.holder[s.table[s.threads[u].id]] == Some(u);
    if s.holder[p.lock].None? {
      var s' := s.(holder := s.holder[p.lock := Some(t)], threads := s.threads[t := Inside(p.id, p.lock)]);
      assert Step(s, s', t, Lock);
    } else {
      var u := s.holder[p.lock].value;
      assert s.threads[u].Inside? && s.threads[u].lock == s.table[p.id];
      assert s.threads[u].id == p.id;
    }
  }

  // ---------------------------------------------------------------- the two mutex sections in place

  class JobMutex {
    var users: nat

    constructor ()
      ensures users == 0
    {
      users := 0;
    }
  }

  /** The manager's `jobLocks` map of lock objects. */
  class LockTable {
    var locks: map<JobId, JobMutex>

    constructor ()
      ensures Valid() && locks == map[]
    {
      locks := map[];
    }

    /** Entries are distinct objects in use. */
    ghost predicate Valid()
      reads this, locks.Values
    {
      && (forall id :: id in locks ==> locks[id].users >= 1)
      && (forall i, j :: i in locks && j in locks && i != j ==> locks[i] != locks[j])
    }

    ghost function Counts(): map<JobId, nat>
      reads this, locks.Values
    {
      map id | id in locks :: locks[id].users
    }

    method Enter(id: JobId) returns (lock: JobMutex)
      requires Valid()
      modifies this, locks.Values
      ensures Valid()
      ensures id in locks && locks[id] == lock
      ensures if id in old(locks) then locks == old(locks) else locks == old(locks)[id := lock] && fresh(lock)
      ensures Counts() == old(Counts())[id := if id in old(locks) then old(Counts()[id]) + 1 else 1]
    {
      if id !in locks {
        var made := new JobMutex();
        assert made !in locks.Values;
        locks := locks[id := made];
      }
      lock := locks[id];
      lock.users := lock.users + 1;
    }

    /** Called by a thread that entered with this lock. */
    method Leave(id: JobId, lock: JobMutex)
      requires Valid() && id in locks && locks[id] == lock
      modifies this, lock
      ensures Valid()
      ensures lock.users == old(lock.users) - 1
      ensures locks == if old(lock.users) == 1 then old(locks) - {id} else old(locks)
      ensures Counts() == if old(lock.users) == 1 then old(Counts()) - {id}
                          else old(Counts())[id := old(lock.users) - 1]
    {
      lock.users := lock.users - 1;
      if lock.users == 0 {
        locks := locks - {id};
      }
    }
  }
}
