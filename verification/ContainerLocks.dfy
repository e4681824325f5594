/** The table of reference-counted container locks.  A thread that works on a container
    registers under the controller's own mutex, waits for the container's lock, works, and
    releases under the mutex again.  Registering and releasing are therefore atomic steps;
    between them any number of threads interleave. */
module ContainerLocks {

  type Id = string
  type Thread = nat
  type LockRef = nat   // the identity of a mutex object

  datatype Entry = Entry(refCount: int, lock: LockRef)
  datatype Phase = Waiting(id: Id, lock: LockRef) | Holding(id: Id, lock: LockRef)
  datatype Fault = NoFault | RefCountPanic | UnlockOfUnlocked

  datatype State = State(
    table: map<Id, Entry>,
    locked: map<LockRef, Thread>,  // the locked mutexes, and who locked them
    threads: map<Thread, Phase>,   // threads between the start of lock and the end of unlock
    nextLock: LockRef,             // the next mutex to be allocated
    fault: Fault)

  const Start := State(map[], map[], map[], 0, NoFault)

  datatype Op = Register(t: Thread, id: Id) | Acquire(t: Thread) | Release(t: Thread)

  predicate Enabled(s: State, op: Op) {
    && s.fault == NoFault
    && match op
       case Register(t, _) => t !in s.threads
       case Acquire(t) => t in s.threads && s.threads[t].Waiting? && s.threads[t].lock !in s.locked
       case Release(t) => t in s.threads && s.threads[t].Holding?
  }

  /** The first half of `lockContainer`: find or create the entry, count this thread. */
  function Registered(table: map<Id, Entry>, id: Id, newLock: LockRef): (map<Id, Entry>, LockRef) {
    if id in table then (table[id := table[id].(refCount := table[id].refCount + 1)], table[id].lock)
    else (table[id := Entry(1, newLock)], newLock)
  }

  /** `unlockContainer` on the table and the mutexes. */
  function Released(table: map<Id, Entry>, locked: map<LockRef, Thread>, id: Id): (map<Id, Entry>, map<LockRef, Thread>, Fault) {
    if id !in table then (table, locked, NoFault)
    else
      var e := table[id];
      if e.refCount <= 0 then (table, locked, RefCountPanic)
      else if e.lock !in locked then (table, locked, UnlockOfUnlocked)
      else (if e.refCount == 1 then table - {id} else table[id := e.(refCount := e.refCount - 1)], locked - {e.lock}, NoFault)
  }

  function Step(s: State, op: Op): State
    requires Enabled(s, op)
  {
    match op
    case Register(t, id) =>
      var (table, lock) := Registered(s.table, id, s.nextLock);
      s.(table := table, threads := s.threads[t := Waiting(id, lock)], nextLock := s.nextLock + 1)
    case Acquire(t) =>
      var p := s.threads[t];
      s.(locked := s.locked[p.lock := t], threads := s.threads[t := Holding(p.id, p.lock)])
    case Release(t) =>
      var (table, locked, fault) := Released(s.table, s.locked, s.threads[t].id);
      s.(table := table, locked := locked, fault := fault, threads := s.threads - {t})
  }

  // ---------------------------------------------------------------- the invariant

  /** The waiters and holders of a container. */
  function Users(threads: map<Thread, Phase>, id: Id): set<Thread> {
    set t | t in threads && threads[t].id == id
  }

  /** An entry exists exactly while someone uses the container, and counts its users. */
  predicate CountedAt(table: map<Id, Entry>, threads: map<Thread, Phase>, id: Id) {
    if id in table then table[id].refCount == |Users(threads, id)| && Users(threads, id) != {}
    else Users(threads, id) == {}
  }

  ghost predicate Counted(s: State) {
    forall id :: CountedAt(s.table, s.threads, id)
  }

  /** All users of a container share the entry's mutex, and no two containers share one. */
  ghost predicate Shared(s: State) {
    && (forall t :: t in s.threads ==> s.threads[t].id in s.table && s.threads[t].lock == s.table[s.threads[t].id].lock)
    && (forall a, b :: a in s.table && b in s.table && s.table[a].lock == s.table[b].lock ==> a == b)
    && (forall a :: a in s.table ==> s.table[a].lock < s.nextLock)
  }

  /** A mutex is locked exactly while a thread holds it. */
  ghost predicate Exclusive(s: State) {
    && (forall t :: t in s.threads && s.threads[t].Holding? ==>
          s.threads[t].lock in s.locked && s.locked[s.threads[t].lock] == t)
    && (forall l :: l in s.locked ==>
          s.locked[l] in s.threads && s.threads[s.locked[l]].Holding? && s.threads[s.locked[l]].lock == l)
  }

  ghost predicate Inv(s: State) {
    Counted(s) && Shared(s) && Exclusive(s) && s.fault == NoFault
  }

  lemma UsersAdd(threads: map<Thread, Phase>, t: Thread, p: Phase, id: Id)
    requires t !in threads
    ensures Users(threads[t := p], id) == if id == p.id then Users(threads, id) + {t} else Users(threads, id)
    ensures t !in Users(threads, id)
  {
  }

  lemma UsersRemove(threads: map<Thread, Phase>, t: Thread, id: Id)
    requires t in threads
    ensures Users(threads - {t}, id) == if id == threads[t].id then Users(threads, id) - {t} else Users(threads, id)
    ensures t in Users(threads, threads[t].id)
  {
  }

  lemma RegisterCounted(s: State, t: Thread, id: Id)
    requires Counted(s) && Enabled(s, Register(t, id))
    ensures Counted(Step(s, Register(t, id)))
  {
    var s' := Step(s, Register(t, id));
    forall other ensures CountedAt(s'.table, s'.threads, other) {
      assert CountedAt(s.table, s.threads, other);
      UsersAdd(s.threads, t, s'.threads[t], other);
    }
  }

  lemma ReleaseCounted(s: State, t: Thread)
    requires Inv(s) && Enabled(s, Release(t))
    ensures Counted(Step(s, Release(t))) && Step(s, Release(t)).fault == NoFault
  {
    var s' := Step(s, Release(t));
    var id := s.threads[t].id;
    assert CountedAt(s.table, s.threads, id);
    UsersRemove(s.threads, t, id);
    assert s'.fault == NoFault;
    forall other ensures CountedAt(s'.table, s'.threads, other) {
      assert CountedAt(s.table, s.threads, other);
      UsersRemove(s.threads, t, other);
    }
  }

  lemma AcquireCounted(s: State, t: Thread)
    requires Counted(s) && Enabled(s, Acquire(t))
    ensures Counted(Step(s, Acquire(t)))
  {
    var s' := Step(s, Acquire(t));
    forall id ensures CountedAt(s'.table, s'.threads, id) {
      assert CountedAt(s.table, s.threads, id);
      assert Users(s'.threads, id) == Users(s.threads, id);
    }
  }

  /** Releasing keeps the entry as long as another thread uses the container. */
  lemma ReleaseShared(s: State, t: Thread)
    requires Inv(s) && Enabled(s, Release(t))
    ensures Shared(Step(s, Release(t))) && Exclusive(Step(s, Release(t)))
  {
    var s' := Step(s, Release(t));
    ReleaseCounted(s, t);
    forall u | u in s'.threads ensures s'.threads[u].id in s'.table {
      assert u in Users(s'.threads, s'.threads[u].id);
      assert CountedAt(s'.table, s'.threads, s'.threads[u].id);
    }
  }

  lemma RegisterShared(s: State, t: Thread, id: Id)
    requires Inv(s) && Enabled(s, Register(t, id))
    ensures Shared(Step(s, Register(t, id))) && Exclusive(Step(s, Register(t, id)))
  {
  }

  lemma AcquireShared(s: State, t: Thread)
    requires Shared(s) && Exclusive(s) && Enabled(s, Acquire(t))
    ensures Shared(Step(s, Acquire(t))) && Exclusive(Step(s, Acquire(t)))
  {
  }

  lemma StepKeepsInv(s: State, op: Op)
    requires Inv(s) && Enabled(s, op)
    ensures Inv(Step(s, op))
  {
    match op
    case Register(t, id) => RegisterCounted(s, t, id); RegisterShared(s, t, id);
    case Acquire(t) => AcquireCounted(s, t); AcquireShared(s, t);
    case Release(t) => ReleaseCounted(s, t); ReleaseShared(s, t);
  }

  // ---------------------------------------------------------------- every run

  ghost predicate Runs(s: State, ops: seq<Op>, s': State)
    decreases |ops|
  {
    if ops == [] then s' == s else Enabled(s, ops[0]) && Runs(Step(s, ops[0]), ops[1..], s')
  }

  lemma {:induction false} RunKeepsInv(s: State, ops: seq<Op>, s': State)
    requires Inv(s) && Runs(s, ops, s')
    ensures Inv(s')
    decreases |ops|
  {
    if ops != [] {
      StepKeepsInv(s, ops[0]);
      RunKeepsInv(Step(s, ops[0]), ops[1..], s');
    }
  }

  /** In every run of any number of threads no count panics and no unlocked mutex is
      unlocked, an entry exists exactly while its container has users and counts them, all
      of them share its mutex, and no two threads hold the same container. */
  lemma EveryRunExcludes(ops: seq<Op>, s: State)
    requires Runs(Start, ops, s)
    ensures s.fault == NoFault
    ensures forall id :: CountedAt(s.table, s.threads, id)
    ensures forall t :: t in s.threads ==> s.threads[t].id in s.table && s.threads[t].lock == s.table[s.threads[t].id].lock
    ensures forall t, u :: (&& t in s.threads && u in s.threads && s.threads[t].Holding? && s.threads[u].Holding?
                            && s.threads[t].id == s.threads[u].id) ==> t == u
  {
    RunKeepsInv(Start, ops, s);
  }

  /** In every run a waiting thread can go on if and only if no thread holds its container:
      containers do not block each other, and a released lock is free. */
  lemma WaiterGoesOnIff(ops: seq<Op>, s: State, t: Thread)
    requires Runs(Start, ops, s) && t in s.threads && s.threads[t].Waiting?
    ensures Enabled(s, Acquire(t)) <==> forall u :: u in s.threads && s.threads[u].Holding? ==> s.threads[u].id != s.threads[t].id
  {
    RunKeepsInv(Start, ops, s);
    if s.threads[t].lock in s.locked {
      var u := s.locked[s.threads[t].lock];
      assert u in s.threads && s.threads[u].Holding? && s.threads[u].id == s.threads[t].id;
    }
  }

  // ---------------------------------------------------------------- the controller

  class RefCountedLock {
    var refCount: int
    const lock: LockRef

    constructor (lock: LockRef)
      ensures refCount == 1 && this.lock == lock
    {
      refCount, this.lock := 1, lock;
    }
  }

  class VMController {
    var containerLocks: map<Id, RefCountedLock>
    var locked: map<LockRef, Thread>
    var nextLock: LockRef

    // No two entries are the same object.
    ghost predicate Valid()
      reads this
    {
      forall a, b :: a in containerLocks && b in containerLocks && containerLocks[a] == containerLocks[b] ==> a == b
    }

    ghost function Table(): map<Id, Entry>
      reads this, containerLocks.Values
    {
      map id | id in containerLocks :: Entry(containerLocks[id].refCount, containerLocks[id].lock)
    }

    constructor ()
      ensures Valid() && Table() == map[] && locked == map[] && nextLock == 0
    {
      containerLocks, locked, nextLock := map[], map[], 0;
    }

    /** The part of `lockContainer` under the controller's mutex. */
    method Register(id: Id) returns (lock: LockRef)
      requires Valid()
      modifies this, containerLocks.Values
      ensures Valid() && (Table(), lock) == Registered(old(Table()), id, old(nextLock))
      ensures nextLock == old(nextLock) + 1 && locked == old(locked)
      ensures fresh(containerLocks.Values - old(containerLocks.Values))
    {
      if id in containerLocks {
        var refLck := containerLocks[id];
        refLck.refCount := refLck.refCount + 1;
        lock := refLck.lock;
      } else {
        var refLck := new RefCountedLock(nextLock);
        containerLocks := containerLocks[id := refLck];
        lock := nextLock;
      }
      nextLock := nextLock + 1;
      assert Table() == Registered(old(Table()), id, old(nextLock)).0;
    }

    method UnlockContainer(id: Id) returns (fault: Fault)
      requires Valid()
      modifies this, containerLocks.Values
      ensures Valid() && (Table(), locked, fault) == Released(old(Table()), old(locked), id)
      ensures nextLock == old(nextLock) && containerLocks.Values <= old(containerLocks.Values)
    {
      fault := NoFault;
      if id in containerLocks {
        var refLck := containerLocks[id];
        if refLck.refCount <= 0 {
          return RefCountPanic;
        }
        if refLck.lock !in locked {
          return UnlockOfUnlocked;
        }
        locked := locked - {refLck.lock};
        refLck.refCount := refLck.refCount - 1;
        if refLck.refCount == 0 {
          containerLocks := containerLocks - {id};
        }
        assert Table() == Released(old(Table()), old(locked), id).0;
      }
    }
  }
}
