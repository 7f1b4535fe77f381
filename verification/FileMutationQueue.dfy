/**
 The table of per-path write locks with lazy eviction (src/tools/file_mutation_queue.rs).

 A task that acquires a path clones a reference to the path's lock under the table mutex, then waits for
 the lock. An entry may be evicted only while the table holds the last reference to it.
 */
module FileMutationQueue {
  type Path = string
  type LockId = nat
  type TaskId = nat

  /** From this size on, an acquire first evicts. */
  const PRUNE_THRESHOLD := 1024

  /** The table, the number of references to each lock, and the id of the next lock to be made. */
  datatype Table = Table(locks: map<Path, LockId>, strong: map<LockId, nat>, nextLock: LockId)

  function StrongCount(strong: map<LockId, nat>, k: LockId): nat {
    if k in strong then strong[k] else 0
  }

  /** The entries somebody besides the table refers to; the other locks are gone with their last reference. */
  function Pruned(t: Table): Table {
    var evicted := set p | p in t.locks && StrongCount(t.strong, t.locks[p]) <= 1;
    t.(locks := t.locks - evicted, strong := t.strong - (set p | p in evicted :: t.locks[p]))
  }

  /** The table after get-or-insert and clone; the lock is the entry of the path. */
  function Cloned(t: Table, path: Path): (r: Table)
    ensures path in r.locks
  {
    if path in t.locks then
      t.(strong := t.strong[t.locks[path] := StrongCount(t.strong, t.locks[path]) + 1])
    else
      Table(t.locks[path := t.nextLock], t.strong[t.nextLock := 2], t.nextLock + 1)
  }

  function Acquired(t: Table, path: Path): (r: Table)
    ensures path in r.locks
  {
    Cloned(if |t.locks| >= PRUNE_THRESHOLD then Pruned(t) else t, path)
  }

  function Released(t: Table, k: LockId): Table {
    if StrongCount(t.strong, k) == 0 then t else t.(strong := t.strong[k := t.strong[k] - 1])
  }

  // ---------------------------------------------------------------------------------------
  // The step system
  // ---------------------------------------------------------------------------------------

  /** A task waits for its lock, holds it while the cross-process lock is taken, or has its guard. */
  datatype Phase = Waiting | TakingFileLock | Guarding
  datatype Task = Task(path: Path, lock: LockId, phase: Phase)

  /** `owner` is which task each lock admits. `peak` is history: the most distinct paths in use at once. */
  datatype State = State(table: Table, owner: map<LockId, TaskId>, tasks: map<TaskId, Task>, fileLock: bool, peak: nat)

  function Initial(fileLock: bool): State {
    State(Table(map[], map[], 0), map[], map[], fileLock, 0)
  }

  datatype Event =
    | Acquire(task: TaskId, path: Path)
    | Grant(task: TaskId)
    | FileLock(task: TaskId, ok: bool)
    | Cancel(task: TaskId)
    | DropGuard(task: TaskId)
    | Prune

  predicate Enabled(s: State, e: Event) {
    match e
    case Acquire(t, _) => t !in s.tasks
    case Grant(t) => t in s.tasks && s.tasks[t].phase.Waiting? && s.tasks[t].lock !in s.owner
    case FileLock(t, _) => t in s.tasks && s.tasks[t].phase.TakingFileLock?
    case Cancel(t) => t in s.tasks && !s.tasks[t].phase.Guarding?
    case DropGuard(t) => t in s.tasks && s.tasks[t].phase.Guarding?
    case Prune => true
  }

  function InUse(tasks: map<TaskId, Task>): set<Path> {
    set t | t in tasks :: tasks[t].path
  }

  function References(tasks: map<TaskId, Task>, k: LockId): set<TaskId> {
    set t | t in tasks && tasks[t].lock == k
  }

  function Max(a: nat, b: nat): nat {
    if a < b then b else a
  }

  function Next(s: State, e: Event): State
    requires Enabled(s, e)
  {
    match e
    case Acquire(t, path) =>
      var table := Acquired(s.table, path);
      var tasks := s.tasks[t := Task(path, table.locks[path], Waiting)];
      s.(table := table, tasks := tasks, peak := Max(s.peak, |InUse(tasks)|))
    case Grant(t) =>
      var task := s.tasks[t];
      s.(owner := s.owner[task.lock := t],
          tasks := s.tasks[t := task.(phase := if s.fileLock then TakingFileLock else Guarding)])
    case FileLock(t, ok) =>
      if ok then s.(tasks := s.tasks[t := s.tasks[t].(phase := Guarding)]) else Left(s, t)
    case Cancel(t) => Left(s, t)
    case DropGuard(t) => Left(s, t)
    case Prune => s.(table := Pruned(s.table))
  }

  /** A task gives up its lock, if it has it, and its reference. */
  function Left(s: State, t: TaskId): State
    requires t in s.tasks
  {
    var k := s.tasks[t].lock;
    s.(table := Released(s.table, k), owner := if k in s.owner && s.owner[k] == t then s.owner - {k} else s.owner,
       tasks := s.tasks - {t})
  }

  // ---------------------------------------------------------------------------------------
  // The invariant
  // ---------------------------------------------------------------------------------------

  /** The lock a task refers to is the one in the table for its path. */
  predicate TasksOk(table: Table, tasks: map<TaskId, Task>) {
    forall t :: t in tasks ==> tasks[t].path in table.locks && table.locks[tasks[t].path] == tasks[t].lock
  }

  /** Every lock in the table is referred to by the table and by the tasks counted, no path shares a lock. */
  predicate CountsOk(table: Table, tasks: map<TaskId, Task>) {
    && (forall p :: p in table.locks ==> CountOk(table, tasks, table.locks[p]))
    && (forall p, q :: p in table.locks && q in table.locks && table.locks[p] == table.locks[q] ==> p == q)
  }

  predicate CountOk(table: Table, tasks: map<TaskId, Task>, k: LockId) {
    k < table.nextLock && k in table.strong && table.strong[k] == 1 + |References(tasks, k)|
  }

  predicate OwnersOk(owner: map<LockId, TaskId>, tasks: map<TaskId, Task>) {
    && (forall k :: k in owner ==> owner[k] in tasks && tasks[owner[k]].lock == k && !tasks[owner[k]].phase.Waiting?)
    && (forall t :: t in tasks && !tasks[t].phase.Waiting? ==> tasks[t].lock in owner && owner[tasks[t].lock] == t)
  }

  predicate Inv(s: State) {
    && TasksOk(s.table, s.tasks)
    && CountsOk(s.table, s.tasks)
    && OwnersOk(s.owner, s.tasks)
    && |InUse(s.tasks)| <= s.peak
    && |s.table.locks| <= Max(PRUNE_THRESHOLD, s.peak)
  }

  // ---------------------------------------------------------------------------------------
  // Every step keeps it
  // ---------------------------------------------------------------------------------------

  /** Eviction leaves exactly the paths in use. */
  lemma PrunedIsInUse(table: Table, tasks: map<TaskId, Task>)
    requires TasksOk(table, tasks) && CountsOk(table, tasks)
    ensures Pruned(table).locks.Keys == InUse(tasks)
    ensures TasksOk(Pruned(table), tasks) && CountsOk(Pruned(table), tasks)
  {
    forall p | p in table.locks ensures p in InUse(tasks) <==> table.strong[table.locks[p]] > 1 {
      var refs := References(tasks, table.locks[p]);
      if p in InUse(tasks) {
        var t :| t in tasks && tasks[t].path == p;
        assert t in refs;
      }
      if |refs| > 0 {
        var t :| t in refs;
        assert tasks[t].path == p;
      }
    }
  }

  lemma InUseGrows(tasks: map<TaskId, Task>, t: TaskId, task: Task)
    requires t !in tasks
    ensures InUse(tasks[t := task]) == InUse(tasks) + {task.path}
    ensures forall k :: References(tasks[t := task], k) == if k == task.lock then References(tasks, k) + {t}
        else References(tasks, k)
  {
    var tasks' := tasks[t := task];
    assert forall x :: x in tasks ==> tasks'[x] == tasks[x];
    forall p | p in InUse(tasks) + {task.path} ensures p in InUse(tasks') {
      if p == task.path {
        assert tasks'[t].path == p;
      } else {
        var x :| x in tasks && tasks[x].path == p;
        assert x in tasks' && tasks'[x].path == p;
      }
    }
  }

  lemma InUseShrinks(tasks: map<TaskId, Task>, t: TaskId)
    requires t in tasks
    ensures |InUse(tasks - {t})| <= |InUse(tasks)|
    ensures forall k :: References(tasks - {t}, k) == References(tasks, k) - {t}
  {
    SubsetSize(InUse(tasks - {t}), InUse(tasks));
  }

  lemma {:induction false} SubsetSize(a: set<Path>, b: set<Path>)
    requires a <= b
    ensures |a| <= |b|
  {
    if a != {} {
      var x :| x in a;
      SubsetSize(a - {x}, b - {x});
    }
  }

  lemma ArrivalKeepsTasks(table: Table, tasks: map<TaskId, Task>, t: TaskId, path: Path)
    requires TasksOk(table, tasks) && t !in tasks
    ensures TasksOk(Cloned(table, path), tasks[t := Task(path, Cloned(table, path).locks[path], Waiting)])
  {
  }

  /** One more reference to a lock in the table. */
  lemma KnownPathOk(table: Table, tasks: map<TaskId, Task>, t: TaskId, path: Path)
    requires CountsOk(table, tasks) && t !in tasks && path in table.locks
    ensures CountsOk(Cloned(table, path), tasks[t := Task(path, table.locks[path], Waiting)])
  {
    var k := table.locks[path];
    var after, tasks' := Cloned(table, path), tasks[t := Task(path, k, Waiting)];
    InUseGrows(tasks, t, Task(path, k, Waiting));
    assert t !in References(tasks, k);
    forall p | p in after.locks ensures CountOk(after, tasks', after.locks[p]) {
      assert CountOk(table, tasks, table.locks[p]);
    }
  }

  /** A lock nobody refers to yet, with the table and the new task. */
  lemma NewPathOk(table: Table, tasks: map<TaskId, Task>, t: TaskId, path: Path)
    requires TasksOk(table, tasks) && CountsOk(table, tasks) && t !in tasks && path !in table.locks
    ensures CountsOk(Cloned(table, path), tasks[t := Task(path, table.nextLock, Waiting)])
  {
    var k := table.nextLock;
    var after, tasks' := Cloned(table, path), tasks[t := Task(path, k, Waiting)];
    InUseGrows(tasks, t, Task(path, k, Waiting));
    forall u | u in tasks ensures tasks[u].lock != k { assert CountOk(table, tasks, tasks[u].lock); }
    assert References(tasks, k) == {};
    assert References(tasks', k) == {t};
    hide References, TasksOk;
    forall p | p in after.locks ensures CountOk(after, tasks', after.locks[p]) {
      if p != path { assert CountOk(table, tasks, table.locks[p]); }
    }
  }

  lemma ClonedOk(table: Table, tasks: map<TaskId, Task>, t: TaskId, path: Path)
    requires TasksOk(table, tasks) && CountsOk(table, tasks) && t !in tasks
    ensures var after := Cloned(table, path);
      var tasks' := tasks[t := Task(path, after.locks[path], Waiting)];
      TasksOk(after, tasks') && CountsOk(after, tasks')
  {
    ArrivalKeepsTasks(table, tasks, t, path);
    hide TasksOk, CountsOk;
    if path in table.locks {
      KnownPathOk(table, tasks, t, path);
    } else {
      NewPathOk(table, tasks, t, path);
    }
  }

  lemma LocksSize(locks: map<Path, LockId>)
    ensures |locks| == |locks.Keys|
  {
  }

  lemma ClonedKeys(table: Table, path: Path)
    ensures Cloned(table, path).locks.Keys == table.locks.Keys + {path}
    ensures |Cloned(table, path).locks| <= |table.locks| + 1
  {
    var after := Cloned(table, path);
    assert after.locks.Keys == table.locks.Keys + {path};
    LocksSize(after.locks);
    LocksSize(table.locks);
  }

  lemma AcquiredOk(table: Table, tasks: map<TaskId, Task>, t: TaskId, path: Path)
    requires TasksOk(table, tasks) && CountsOk(table, tasks) && t !in tasks
    ensures var after := Acquired(table, path);
      var tasks' := tasks[t := Task(path, after.locks[path], Waiting)];
      TasksOk(after, tasks') && CountsOk(after, tasks')
  {
    hide TasksOk, CountsOk, Pruned, Cloned, InUse;
    PrunedIsInUse(table, tasks);
    if |table.locks| >= PRUNE_THRESHOLD {
      ClonedOk(Pruned(table), tasks, t, path);
    } else {
      ClonedOk(table, tasks, t, path);
    }
  }

  /** After an eviction only the paths in use are left, the new one included. */
  lemma AcquiredSize(table: Table, tasks: map<TaskId, Task>, t: TaskId, task: Task)
    requires TasksOk(table, tasks) && CountsOk(table, tasks) && t !in tasks
    ensures |Acquired(table, task.path).locks| <= Max(PRUNE_THRESHOLD, |InUse(tasks[t := task])|)
  {
    PrunedIsInUse(table, tasks);
    InUseGrows(tasks, t, task);
    ClonedKeys(table, task.path);
    ClonedKeys(Pruned(table), task.path);
    hide TasksOk, CountsOk, Pruned, Cloned, InUse, References;
    LocksSize(Acquired(table, task.path).locks);
  }

  lemma ArrivalKeepsOwners(owner: map<LockId, TaskId>, tasks: map<TaskId, Task>, t: TaskId, task: Task)
    requires OwnersOk(owner, tasks) && t !in tasks && task.phase.Waiting?
    ensures OwnersOk(owner, tasks[t := task])
  {
  }

  lemma AcquireKeepsInv(s: State, t: TaskId, path: Path)
    requires Inv(s) && Enabled(s, Acquire(t, path))
    ensures Inv(Next(s, Acquire(t, path)))
  {
    var task := Task(path, Acquired(s.table, path).locks[path], Waiting);
    AcquiredOk(s.table, s.tasks, t, path);
    AcquiredSize(s.table, s.tasks, t, task);
    ArrivalKeepsOwners(s.owner, s.tasks, t, task);
    hide Pruned, Cloned, Acquired, CountsOk, TasksOk, OwnersOk, InUse, References;
  }

  lemma LeaveKeepsCounts(table: Table, tasks: map<TaskId, Task>, t: TaskId)
    requires TasksOk(table, tasks) && CountsOk(table, tasks) && t in tasks
    ensures TasksOk(Released(table, tasks[t].lock), tasks - {t})
    ensures CountsOk(Released(table, tasks[t].lock), tasks - {t})
  {
    InUseShrinks(tasks, t);
    var k := tasks[t].lock;
    assert t in References(tasks, k);
    var after := Released(table, k);
    forall p | p in after.locks
      ensures after.locks[p] in after.strong
          && after.strong[after.locks[p]] == 1 + |References(tasks - {t}, after.locks[p])|
    {
      if after.locks[p] != k { assert t !in References(tasks, after.locks[p]); }
    }
  }

  lemma LeaveKeepsOwners(owner: map<LockId, TaskId>, tasks: map<TaskId, Task>, t: TaskId)
    requires OwnersOk(owner, tasks) && t in tasks
    ensures var k := tasks[t].lock;
      OwnersOk(if k in owner && owner[k] == t then owner - {k} else owner, tasks - {t})
  {
  }

  lemma LeftKeepsInv(s: State, t: TaskId)
    requires Inv(s) && t in s.tasks
    ensures Inv(Left(s, t))
  {
    LeaveKeepsCounts(s.table, s.tasks, t);
    LeaveKeepsOwners(s.owner, s.tasks, t);
    InUseShrinks(s.tasks, t);
    hide CountsOk, TasksOk, OwnersOk, InUse, References;
  }

  /** A change of phase changes neither the paths in use nor the references. */
  lemma PhaseMoves(table: Table, tasks: map<TaskId, Task>, t: TaskId, phase: Phase)
    requires TasksOk(table, tasks) && CountsOk(table, tasks) && t in tasks
    ensures var tasks' := tasks[t := tasks[t].(phase := phase)];
      && TasksOk(table, tasks') && CountsOk(table, tasks') && InUse(tasks') == InUse(tasks)
  {
    var tasks' := tasks[t := tasks[t].(phase := phase)];
    assert tasks'.Keys == tasks.Keys;
    assert forall x :: x in tasks ==> tasks'[x].path == tasks[x].path && tasks'[x].lock == tasks[x].lock;
    forall k ensures References(tasks', k) == References(tasks, k) {}
  }

  lemma GrantKeepsOwners(owner: map<LockId, TaskId>, tasks: map<TaskId, Task>, t: TaskId, phase: Phase)
    requires OwnersOk(owner, tasks) && t in tasks && tasks[t].phase.Waiting? && tasks[t].lock !in owner
        && !phase.Waiting?
    ensures OwnersOk(owner[tasks[t].lock := t], tasks[t := tasks[t].(phase := phase)])
  {
  }

  lemma FileLockKeepsOwners(owner: map<LockId, TaskId>, tasks: map<TaskId, Task>, t: TaskId)
    requires OwnersOk(owner, tasks) && t in tasks && tasks[t].phase.TakingFileLock?
    ensures OwnersOk(owner, tasks[t := tasks[t].(phase := Guarding)])
  {
  }

  lemma PruneKeepsInv(s: State)
    requires Inv(s)
    ensures Inv(s.(table := Pruned(s.table)))
  {
    PrunedIsInUse(s.table, s.tasks);
    LocksSize(Pruned(s.table).locks);
    hide CountsOk, TasksOk, OwnersOk, InUse, References, Pruned;
  }

  lemma NextKeepsInv(s: State, e: Event)
    requires Inv(s) && Enabled(s, e)
    ensures Inv(Next(s, e))
  {
    hide CountsOk, TasksOk, OwnersOk, InUse, References, Pruned, Cloned, Left;
    match e
    case Acquire(t, path) => AcquireKeepsInv(s, t, path);
    case Grant(t) =>
      PhaseMoves(s.table, s.tasks, t, if s.fileLock then TakingFileLock else Guarding);
      GrantKeepsOwners(s.owner, s.tasks, t, if s.fileLock then TakingFileLock else Guarding);
    case FileLock(t, ok) =>
      if ok {
        PhaseMoves(s.table, s.tasks, t, Guarding);
        FileLockKeepsOwners(s.owner, s.tasks, t);
      } else {
        LeftKeepsInv(s, t);
      }
    case Cancel(t) => LeftKeepsInv(s, t);
    case DropGuard(t) => LeftKeepsInv(s, t);
    case Prune => PruneKeepsInv(s);
  }

  // ---------------------------------------------------------------------------------------
  // Safety over whole runs
  // ---------------------------------------------------------------------------------------

  predicate RunEnabled(s: State, es: seq<Event>)
    decreases |es|
  {
    es == [] || (Enabled(s, es[0]) && RunEnabled(Next(s, es[0]), es[1..]))
  }

  function Run(s: State, es: seq<Event>): State
    requires RunEnabled(s, es)
    decreases |es|
  {
    if es == [] then s else Run(Next(s, es[0]), es[1..])
  }

  lemma {:induction false} RunKeepsInv(s: State, es: seq<Event>)
    requires Inv(s) && RunEnabled(s, es)
    ensures Inv(Run(s, es))
    decreases |es|
  {
    if es != [] {
      NextKeepsInv(s, es[0]);
      RunKeepsInv(Next(s, es[0]), es[1..]);
    }
  }

  lemma ReachableInv(fileLock: bool, es: seq<Event>)
    requires RunEnabled(Initial(fileLock), es)
    ensures Inv(Run(Initial(fileLock), es))
  {
    assert InUse(Initial(fileLock).tasks) == {};
    RunKeepsInv(Initial(fileLock), es);
  }

  /** However acquires, cancelled waits, failures, drops and evictions interleave, one path has at most one guard. */
  lemma OneGuardPerPath(fileLock: bool, es: seq<Event>, t: TaskId, u: TaskId)
    requires RunEnabled(Initial(fileLock), es)
    requires var tasks := Run(Initial(fileLock), es).tasks;
      t in tasks && u in tasks && tasks[t].path == tasks[u].path && !tasks[t].phase.Waiting? && !tasks[u].phase.Waiting?
    ensures t == u
  {
    ReachableInv(fileLock, es);
  }

  /** A waiting task can go on exactly when no task on its own path is past waiting: other paths never hold it up. */
  lemma OnlyOwnPathBlocks(fileLock: bool, es: seq<Event>, t: TaskId)
    requires RunEnabled(Initial(fileLock), es)
    requires var tasks := Run(Initial(fileLock), es).tasks; t in tasks && tasks[t].phase.Waiting?
    ensures var s := Run(Initial(fileLock), es);
      Enabled(s, Grant(t)) <==>
        forall u :: u in s.tasks && s.tasks[u].path == s.tasks[t].path ==> s.tasks[u].phase.Waiting?
  {
    ReachableInv(fileLock, es);
    var s := Run(Initial(fileLock), es);
    if !Enabled(s, Grant(t)) {
      var u := s.owner[s.tasks[t].lock];
      assert s.tasks[u].lock == s.tasks[t].lock && s.tasks[u].path == s.tasks[t].path;
    }
  }

  /**
   The table never outgrows the threshold and the most paths ever in use at once; a prune leaves exactly those in use.
   */
  lemma TableStaysSmall(fileLock: bool, es: seq<Event>)
    requires RunEnabled(Initial(fileLock), es)
    ensures var s := Run(Initial(fileLock), es);
      && |s.table.locks| <= Max(PRUNE_THRESHOLD, s.peak)
      && InUse(s.tasks) <= s.table.locks.Keys
      && Pruned(s.table).locks.Keys == InUse(s.tasks)
  {
    ReachableInv(fileLock, es);
    var s := Run(Initial(fileLock), es);
    PrunedIsInUse(s.table, s.tasks);
  }

  // ---------------------------------------------------------------------------------------
  // Getting and giving up a guard
  // ---------------------------------------------------------------------------------------

  lemma {:induction false} FileLockStays(s: State, es: seq<Event>)
    requires RunEnabled(s, es)
    ensures Run(s, es).fileLock == s.fileLock
    decreases |es|
  {
    if es != [] { FileLockStays(Next(s, es[0]), es[1..]); }
  }

  /**
   The only way to a guard: with the cross-process lock in use, taking it after the path's own lock, and without it the
   path's own lock alone. No other step gives or takes the guard of a task.
   */
  lemma GuardComesFrom(fileLock: bool, es: seq<Event>, e: Event, t: TaskId)
    requires RunEnabled(Initial(fileLock), es) && Enabled(Run(Initial(fileLock), es), e)
    ensures var s := Run(Initial(fileLock), es);
      var before, after := HasGuard(s, t), HasGuard(Next(s, e), t);
      && (!before && after <==> e == (if fileLock then FileLock(t, true) else Grant(t)))
      && (before && !after <==> e == DropGuard(t))
  {
    FileLockStays(Initial(fileLock), es);
    NeverTakesFileLock(fileLock, es, t);
    hide Run, RunEnabled, Next, Enabled, HasGuard;
    GuardStep(Run(Initial(fileLock), es), e, t);
  }

  lemma GuardStep(s: State, e: Event, t: TaskId)
    requires Enabled(s, e) && (!s.fileLock && t in s.tasks ==> !s.tasks[t].phase.TakingFileLock?)
    ensures !HasGuard(s, t) && HasGuard(Next(s, e), t) <==> e == (if s.fileLock then FileLock(t, true) else Grant(t))
    ensures HasGuard(s, t) && !HasGuard(Next(s, e), t) <==> e == DropGuard(t)
  {
    hide Acquired, Released, Pruned, InUse;
  }

  predicate HasGuard(s: State, t: TaskId) {
    t in s.tasks && s.tasks[t].phase.Guarding?
  }

  lemma {:induction false} NoFileLockPhase(s: State, es: seq<Event>)
    requires RunEnabled(s, es) && !s.fileLock && forall t :: t in s.tasks ==> !s.tasks[t].phase.TakingFileLock?
    ensures forall t :: t in Run(s, es).tasks ==> !Run(s, es).tasks[t].phase.TakingFileLock?
    decreases |es|
  {
    if es != [] {
      hide Acquired, Released, Pruned;
      NoFileLockPhase(Next(s, es[0]), es[1..]);
    }
  }

  lemma NeverTakesFileLock(fileLock: bool, es: seq<Event>, t: TaskId)
    requires RunEnabled(Initial(fileLock), es)
    ensures var s := Run(Initial(fileLock), es);
      !fileLock && t in s.tasks ==> !s.tasks[t].phase.TakingFileLock?
  {
    if !fileLock { NoFileLockPhase(Initial(fileLock), es); }
  }

  /** A task that comes waits for the lock of its path; its coming changes no other task and no lock's owner. */
  lemma ArrivalWaits(s: State, t: TaskId, path: Path)
    requires Enabled(s, Acquire(t, path))
    ensures var u := Next(s, Acquire(t, path));
      && path in u.table.locks && u.tasks == s.tasks[t := Task(path, u.table.locks[path], Waiting)]
      && u.owner == s.owner
  {
    hide Acquired;
  }

  /**
   Who gives up, fails or drops the guard is gone; the other tasks stay, and one that waited for that lock may go on.
   */
  lemma LeavingLetsNextGo(fileLock: bool, es: seq<Event>, e: Event, t: TaskId, u: TaskId)
    requires RunEnabled(Initial(fileLock), es) && Enabled(Run(Initial(fileLock), es), e)
    requires e == Cancel(t) || e == FileLock(t, false) || e == DropGuard(t)
    ensures var s := Run(Initial(fileLock), es);
      var after := Next(s, e);
      && after.tasks == s.tasks - {t} && after.table.locks == s.table.locks
      && (u in after.tasks && WaitsBehind(s, u, t) ==> Enabled(after, Grant(u)))
  {
    ReachableInv(fileLock, es);
    hide Run, RunEnabled, Inv;
    LeavingStep(Run(Initial(fileLock), es), e, t, u);
  }

  lemma LeavingStep(s: State, e: Event, t: TaskId, u: TaskId)
    requires Inv(s) && Enabled(s, e) && (e == Cancel(t) || e == FileLock(t, false) || e == DropGuard(t))
    ensures var after := Next(s, e);
      && after.tasks == s.tasks - {t} && after.table.locks == s.table.locks
      && (u in after.tasks && WaitsBehind(s, u, t) ==> Enabled(after, Grant(u)))
  {
    assert TasksOk(s.table, s.tasks) && OwnersOk(s.owner, s.tasks);
    hide Inv, StrongCount, CountsOk, Pruned, Cloned, InUse;
    assert Next(s, e) == Left(s, t);
  }

  /** The first task waits for the lock that the second one has. */
  predicate WaitsBehind(s: State, u: TaskId, t: TaskId) {
    && u in s.tasks && t in s.tasks && s.tasks[u].path == s.tasks[t].path
    && s.tasks[u].phase.Waiting? && !s.tasks[t].phase.Waiting?
  }

  /** When an acquire finds the table full it leaves the paths in use and its own, else it only adds its own. */
  lemma AcquireEvictsExactly(fileLock: bool, es: seq<Event>, t: TaskId, path: Path)
    requires RunEnabled(Initial(fileLock), es) && Enabled(Run(Initial(fileLock), es), Acquire(t, path))
    ensures var s := Run(Initial(fileLock), es);
      Next(s, Acquire(t, path)).table.locks.Keys
        == (if |s.table.locks| >= PRUNE_THRESHOLD then InUse(s.tasks) else s.table.locks.Keys) + {path}
    ensures var s := Run(Initial(fileLock), es);
      Next(s, Prune) == s.(table := Next(s, Prune).table) && Next(s, Prune).table.locks.Keys == InUse(s.tasks)
  {
    hide Run, RunEnabled, Pruned, Cloned, InUse, TasksOk, CountsOk, OwnersOk;
    ReachableInv(fileLock, es);
    var s := Run(Initial(fileLock), es);
    PrunedIsInUse(s.table, s.tasks);
    hide Inv;
    AcquiredKeys(s.table, path);
  }

  lemma AcquiredKeys(t: Table, path: Path)
    ensures Acquired(t, path).locks.Keys
         == (if |t.locks| >= PRUNE_THRESHOLD then Pruned(t).locks.Keys else t.locks.Keys) + {path}
  {
    hide Pruned, Cloned;
    ClonedKeys(t, path);
    ClonedKeys(Pruned(t), path);
  }

  // ---------------------------------------------------------------------------------------
  // The table object
  // ---------------------------------------------------------------------------------------

  /** A method is one hold of the table mutex, or the drop of one reference. */
  class LockTable {
    var locks: map<Path, LockId>
    var strong: map<LockId, nat>
    var nextLock: LockId

    constructor ()
      ensures AsTable() == Initial(false).table
    {
      locks := map[];
      strong := map[];
      nextLock := 0;
    }

    function AsTable(): Table
      reads this
    {
      Table(locks, strong, nextLock)
    }

    /** Retains the entries referred to from outside the table. */
    method PruneLocked()
      modifies this`locks, this`strong
      ensures AsTable() == Pruned(old(AsTable()))
    {
      var left := locks.Keys;
      ghost var evicted: set<Path> := {};
      while left != {}
        invariant left <= locks.Keys && left !! evicted
        invariant evicted == set p | p in old(locks) && p !in left && StrongCount(old(strong), old(locks)[p]) <= 1
        invariant locks == old(locks) - evicted
        invariant strong == old(strong) - (set p | p in evicted :: old(locks)[p])
      {
        var p :| p in left;
        left := left - {p};
        if StrongCount(strong, locks[p]) <= 1 {
          strong := strong - {locks[p]};
          locks := locks - {p};
          evicted := evicted + {p};
        }
      }
    }

    /** Finds or makes the path's lock and takes a reference to it, evicting first when the table is full. */
    method Acquire(path: Path) returns (lock: LockId)
      modifies this
      ensures AsTable() == Acquired(old(AsTable()), path) && lock == locks[path]
    {
      hide Pruned;
      if |locks| >= PRUNE_THRESHOLD {
        PruneLocked();
      }
      ghost var t := AsTable();
      if path !in locks {
        locks := locks[path := nextLock];
        strong := strong[nextLock := 1];
        nextLock := nextLock + 1;
      }
      lock := locks[path];
      strong := strong[lock := StrongCount(strong, lock) + 1];
      assert AsTable() == Cloned(t, path);
    }

    /** A waiter that goes away or a guard that is dropped gives back its reference. */
    method Release(lock: LockId)
      modifies this`strong
      ensures AsTable() == Released(old(AsTable()), lock)
    {
      if StrongCount(strong, lock) > 0 {
        strong := strong[lock := strong[lock] - 1];
      }
    }
  }
}
