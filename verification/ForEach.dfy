/**
 parallel_for_each. The caller cuts the range into chunks of two elements, submits
 one task for each chunk and then waits for them one by one; it does not help. The
 pool's workers take the tasks off the queue in order and walk their chunks. A walk
 takes one step to enter the function with an element and one to store what came
 out, so two tasks on one element would lose an update. The pool may have any
 number of workers, and none.

 A worker of the default pool that finds the queue empty goes to sleep on a
 condition variable. It holds the head mutex from the test until it sleeps, but
 push holds neither that mutex when it appends nor any when it notifies; so a
 notify can come between the test and the sleep, and then it wakes nobody. A
 worker of the controlled pool never sleeps but looks again.
 */
module ForEach {
  import opened Prelude

  const ULONG := 0x1_0000_0000_0000_0000
  const UINT := 0x1_0000_0000
  const MIN_ELEMENTS := 2

  // Queued: no worker has taken the task. Ended: it has returned, and its future is ready.
  datatype Place = Queued | Running(w: Tid) | Ended

  // A task's chunk is what lies between its cursor and last; held is what the function made of
  // the element at the cursor.
  datatype Task<T> = Task(cursor: nat, last: nat, held: Option<T>, place: Place) {
    predicate Walked() { cursor == last && held.None? }
  }

  datatype Caller =
    | Submitting(i: nat, chunkFirst: nat)  // about to make chunk i and push its task
    | Notifying(i: nat, chunkFirst: nat)   // has pushed the task before chunk i, about to notify one worker
    | Waiting(i: nat)                      // about to get future i
    | Returned

  datatype Worker =
    | Awake         // about to take the head mutex and test the queue
    | Tested        // found it empty, about to sleep; has the head mutex
    | Asleep        // until a notify
    | Busy(k: nat)  // runs task k

  // The queue is tasks[next..]. lock is the owner of the head mutex between two of its steps.
  // polls: the workers are those of the controlled pool.
  // fault: an iterator has been moved or used past the end of the range.
  // applied: history; the elements in the order in which the function's results were stored.
  datatype State<T> = State(
    cells: seq<T>,
    caller: Caller,
    tasks: seq<Task<T>>,
    next: nat,
    workers: seq<Worker>,
    lock: Option<Tid>,
    polls: bool,
    applied: seq<nat>,
    fault: bool)

  // The caller's step names the sleeper that its notify wakes, if it is about to notify.
  datatype Action = CallerStep(wake: Tid) | WorkerStep(w: Tid)

  // The chunk count, in the source's 64-bit arithmetic and narrowed to its 32-bit variable.
  function Chunks(length: nat): (c: nat)
    ensures c < UINT && MIN_ELEMENTS * c <= length + 1
  {
    (length + MIN_ELEMENTS - 1) % ULONG / MIN_ELEMENTS % UINT
  }

  function Init<T>(xs: seq<T>, pool: nat, polls: bool): State<T> {
    State(xs, if |xs| == 0 then Returned else Submitting(0, 0), [], 0, seq(pool, _ => Awake), None, polls, [], false)
  }

  // One round of the loop that makes the chunks, up to the push of the task.
  function MakeChunk<T>(s: State<T>, i: nat, chunkFirst: nat): State<T> {
    var chunkLast := if i == Chunks(|s.cells|) - 1 then |s.cells| else chunkFirst + MIN_ELEMENTS;
    if chunkLast > |s.cells| then s.(fault := true)
    else s.(tasks := s.tasks + [Task(chunkFirst, chunkLast, None, Queued)], caller := Notifying(i + 1, chunkLast))
  }

  predicate SomeAsleep(workers: seq<Worker>) {
    exists w :: 0 <= w < |workers| && workers[w].Asleep?
  }

  // notify_one wakes one sleeper, whichever, if there is one. A choice that is none changes nothing.
  function Notify<T>(s: State<T>, i: nat, chunkFirst: nat, wake: Tid): State<T> {
    var on := s.(caller := Submitting(i, chunkFirst));
    if wake < |s.workers| && s.workers[wake].Asleep? then on.(workers := s.workers[wake := Awake])
    else if SomeAsleep(s.workers) then s
    else on
  }

  function CallerMoves<T>(s: State<T>, wake: Tid): State<T> {
    match s.caller
    case Submitting(i, chunkFirst) =>
      if i < Chunks(|s.cells|) then MakeChunk(s, i, chunkFirst) else s.(caller := Waiting(0))
    case Notifying(i, chunkFirst) => Notify(s, i, chunkFirst, wake)
    case Waiting(i) =>
      if i >= |s.tasks| then s.(caller := Returned)
      else if s.tasks[i].place.Ended? then s.(caller := Waiting(i + 1))
      else s
    case Returned => s
  }

  // One step of the walk.
  function TaskMoves<T>(f: T -> T, s: State<T>, k: nat): State<T>
    requires k < |s.tasks|
  {
    var task := s.tasks[k];
    if task.Walked() then s
    else if task.cursor >= |s.cells| then s.(fault := true)
    else match task.held
      case None => s.(tasks := s.tasks[k := task.(held := Some(f(s.cells[task.cursor])))])
      case Some(v) => s.(cells := s.cells[task.cursor := v],
                         tasks := s.tasks[k := task.(cursor := task.cursor + 1, held := None)],
                         applied := s.applied + [task.cursor])
  }

  function Pull<T>(s: State<T>, w: Tid): State<T>
    requires s.next < |s.tasks| && w < |s.workers|
  {
    s.(tasks := s.tasks[s.next := s.tasks[s.next].(place := Running(w))],
       next := s.next + 1,
       workers := s.workers[w := Busy(s.next)])
  }

  function End<T>(s: State<T>, w: Tid, k: nat): State<T>
    requires k < |s.tasks| && w < |s.workers|
  {
    s.(tasks := s.tasks[k := s.tasks[k].(place := Ended)], workers := s.workers[w := Awake])
  }

  // The wait condition: a task is taken at once; an empty queue sends the worker to sleep.
  function TestQueue<T>(s: State<T>, w: Tid): State<T>
    requires w < |s.workers|
  {
    if s.lock.Some? then s
    else if s.next < |s.tasks| then Pull(s, w)
    else if s.polls then s
    else s.(workers := s.workers[w := Tested], lock := Some(w))
  }

  function Sleep<T>(s: State<T>, w: Tid): State<T>
    requires w < |s.workers|
  {
    s.(workers := s.workers[w := Asleep], lock := None)
  }

  function WorkerMoves<T>(f: T -> T, s: State<T>, w: Tid): State<T>
    requires w < |s.workers|
  {
    match s.workers[w]
    case Awake => TestQueue(s, w)
    case Tested => Sleep(s, w)
    case Asleep => s
    case Busy(k) =>
      if k >= |s.tasks| then s
      else if s.tasks[k].Walked() then End(s, w, k)
      else TaskMoves(f, s, k)
  }

  // A thread that has to wait stays where it is.
  function Step<T>(f: T -> T, s: State<T>, a: Action): State<T> {
    match a
    case CallerStep(wake) => CallerMoves(s, wake)
    case WorkerStep(w) => if w < |s.workers| then WorkerMoves(f, s, w) else s
  }

  function Exec<T>(f: T -> T, s: State<T>, run: seq<Action>): State<T>
    decreases |run|
  {
    if run == [] then s else Exec(f, Step(f, s, run[0]), run[1..])
  }

  // ----- The chunks -----

  // Where chunk k begins, and chunk k - 1 ends.
  function Bound(length: nat, k: nat): nat {
    if 0 < k == Chunks(length) then length else MIN_ELEMENTS * k
  }

  function ChunkOf(length: nat, j: nat): int {
    if j / MIN_ELEMENTS < Chunks(length) then j / MIN_ELEMENTS else Chunks(length) - 1
  }

  predicate InChunk(length: nat, k: nat, j: nat) {
    Bound(length, k) <= j < Bound(length, k + 1)
  }

  // No chunk is empty, none runs past the end, and together they go from the first element to the end.
  lemma ChunkFits(length: nat, k: nat)
    requires k < Chunks(length)
    ensures Bound(length, 0) == 0 && Bound(length, Chunks(length)) == length
    ensures Bound(length, k) < Bound(length, k + 1) <= length
  {
    hide Chunks;
  }

  // Each element is in one chunk and in no other.
  lemma ChunksTile(length: nat, j: nat)
    requires Chunks(length) > 0 && j < length
    ensures 0 <= ChunkOf(length, j) < Chunks(length) && InChunk(length, ChunkOf(length, j), j)
    ensures forall k: nat :: k < Chunks(length) && InChunk(length, k, j) ==> k == ChunkOf(length, j)
  {
    hide Chunks;
  }

  // Every chunk but the last has two elements; the last one has one or two if and only if the count
  // has not lost a digit when it was narrowed, and all the rest of the range otherwise.
  lemma ChunkSizes(length: nat, k: nat)
    requires length < ULONG && k < Chunks(length)
    ensures k < Chunks(length) - 1 ==> Bound(length, k + 1) - Bound(length, k) == MIN_ELEMENTS
    ensures k == Chunks(length) - 1 ==>
              (Bound(length, k + 1) - Bound(length, k) <= MIN_ELEMENTS <==> length < 2 * UINT - 1)
    ensures length < 2 * UINT - 1 ==> Chunks(length) == (length + 1) / 2
  {
    assert length + 1 < ULONG;
    var q := (length + 1) / 2;
    assert q == q / UINT * UINT + q % UINT && Chunks(length) == q % UINT;
    hide Chunks;
    if q < UINT {
      assert q / UINT == 0;
    } else {
      assert q / UINT >= 1;
      assert q / UINT * UINT >= UINT;
    }
  }

  // The narrowed count is zero exactly for these lengths.
  lemma NoChunks(length: nat)
    requires length < ULONG
    ensures Chunks(length) == 0 <==> length % (2 * UINT) == 0 || length % (2 * UINT) == 2 * UINT - 1
  {
    var q, r := length / (2 * UINT), length % (2 * UINT);
    assert length == q * (2 * UINT) + r;
    if length + 1 < ULONG {
      assert (length + 1) / 2 == q * UINT + (r + 1) / 2;
      assert (q * UINT + (r + 1) / 2) % UINT == ((r + 1) / 2) % UINT;
    }
  }

  // ----- The invariant -----

  function Count(log: seq<nat>, j: nat): nat {
    if log == [] then 0 else Count(log[..|log| - 1], j) + if log[|log| - 1] == j then 1 else 0
  }

  // The task that element j belongs to has stored its result.
  predicate Stored<T>(s: State<T>, j: nat) {
    0 <= ChunkOf(|s.cells|, j) < |s.tasks| && j < s.tasks[ChunkOf(|s.cells|, j)].cursor
  }

  ghost predicate CallerOk<T>(s: State<T>) {
    match s.caller
    case Submitting(i, chunkFirst) =>
      |s.cells| > 0 && i == |s.tasks| <= Chunks(|s.cells|) && chunkFirst == Bound(|s.cells|, i)
    case Notifying(i, chunkFirst) =>
      |s.cells| > 0 && 0 < i == |s.tasks| <= Chunks(|s.cells|) && chunkFirst == Bound(|s.cells|, i)
    case Waiting(i) =>
      && |s.cells| > 0 && i <= |s.tasks| == Chunks(|s.cells|)
      && forall k :: 0 <= k < i ==> s.tasks[k].place.Ended?
    case Returned =>
      |s.tasks| == Chunks(|s.cells|) && forall k :: 0 <= k < |s.tasks| ==> s.tasks[k].place.Ended?
  }

  ghost predicate TaskOk<T>(f: T -> T, xs: seq<T>, s: State<T>, k: nat)
    requires k < |s.tasks|
  {
    var task := s.tasks[k];
    && Bound(|xs|, k) <= task.cursor <= task.last == Bound(|xs|, k + 1) <= |xs|
    && (task.held.Some? ==> task.cursor < task.last && task.held.value == f(xs[task.cursor]))
    && (task.place.Ended? ==> task.Walked())
    && (task.place.Queued? ==> task.cursor == Bound(|xs|, k) && task.held.None?)
  }

  ghost predicate CellOk<T>(f: T -> T, xs: seq<T>, s: State<T>, j: nat)
    requires j < |xs| == |s.cells|
  {
    && s.cells[j] == (if Stored(s, j) then f(xs[j]) else xs[j])
    && Count(s.applied, j) == (if Stored(s, j) then 1 else 0)
  }

  // The queue holds the tasks that nobody has taken; a running task and its worker know each other.
  ghost predicate PoolOk<T>(s: State<T>) {
    && s.next <= |s.tasks| && (s.workers == [] ==> s.next == 0)
    && (forall k :: 0 <= k < |s.tasks| ==> (s.tasks[k].place.Queued? <==> k >= s.next))
    && (forall k :: 0 <= k < |s.tasks| && s.tasks[k].place.Running? ==>
          var w := s.tasks[k].place.w; w < |s.workers| && s.workers[w] == Busy(k))
    && (forall w :: 0 <= w < |s.workers| && s.workers[w].Busy? ==>
          s.workers[w].k < |s.tasks| && s.tasks[s.workers[w].k].place == Running(w))
  }

  // The head mutex is with the one worker that has found the queue empty, if any; a worker of the
  // controlled pool neither keeps it nor sleeps.
  ghost predicate LockOk<T>(s: State<T>) {
    && (s.lock.Some? ==> s.lock.value < |s.workers| && s.workers[s.lock.value].Tested?)
    && (forall w :: 0 <= w < |s.workers| && s.workers[w].Tested? ==> s.lock == Some(w))
    && (s.polls ==> forall w :: 0 <= w < |s.workers| ==> s.workers[w].Awake? || s.workers[w].Busy?)
  }

  ghost predicate Inv<T>(f: T -> T, xs: seq<T>, s: State<T>) {
    && !s.fault && |s.cells| == |xs| && |s.tasks| <= Chunks(|xs|) && CallerOk(s) && PoolOk(s) && LockOk(s)
    && (forall k :: 0 <= k < |s.tasks| ==> TaskOk(f, xs, s, k))
    && (forall j :: 0 <= j < |xs| ==> CellOk(f, xs, s, j))
  }

  // A step that leaves the elements alone and every old task where it is.
  lemma CellsStay<T>(f: T -> T, xs: seq<T>, s: State<T>, s': State<T>)
    requires Inv(f, xs, s)
    requires s'.cells == s.cells && s'.applied == s.applied && |s.tasks| <= |s'.tasks| <= Chunks(|xs|)
    requires forall k :: 0 <= k < |s.tasks| ==> s'.tasks[k].cursor == s.tasks[k].cursor
    requires forall k :: |s.tasks| <= k < |s'.tasks| ==> s'.tasks[k].cursor == Bound(|xs|, k)
    ensures forall j :: 0 <= j < |xs| ==> CellOk(f, xs, s', j)
  {
    hide Chunks, Bound, ChunkOf;
    forall j: nat | j < |xs| ensures CellOk(f, xs, s', j) {
      assert CellOk(f, xs, s, j);
      if Chunks(|xs|) > 0 { ChunksTile(|xs|, j); }
    }
  }

  lemma MakeChunkKeeps<T>(f: T -> T, xs: seq<T>, s: State<T>, i: nat, chunkFirst: nat)
    requires Inv(f, xs, s) && s.caller == Submitting(i, chunkFirst) && i < Chunks(|xs|)
    ensures Inv(f, xs, MakeChunk(s, i, chunkFirst))
  {
    hide Chunks, CellOk;
    var s' := MakeChunk(s, i, chunkFirst);
    ChunkFits(|xs|, i);
    assert s'.tasks[i] == Task(Bound(|xs|, i), Bound(|xs|, i + 1), None, Queued);
    hide Bound;
    CellsStay(f, xs, s, s');
    forall k: nat | k < |s'.tasks| ensures TaskOk(f, xs, s', k) {
      assert k < |s.tasks| ==> TaskOk(f, xs, s, k);
    }
  }

  lemma NotifyKeeps<T>(f: T -> T, xs: seq<T>, s: State<T>, i: nat, chunkFirst: nat, wake: Tid)
    requires Inv(f, xs, s) && s.caller == Notifying(i, chunkFirst)
    ensures Inv(f, xs, Notify(s, i, chunkFirst, wake))
  {
    hide Chunks, Bound, ChunkOf, CellOk;
    var s' := Notify(s, i, chunkFirst, wake);
    CellsStay(f, xs, s, s');
    forall k: nat | k < |s'.tasks| ensures TaskOk(f, xs, s', k) {
      assert TaskOk(f, xs, s, k);
    }
  }

  lemma CallerKeeps<T>(f: T -> T, xs: seq<T>, s: State<T>, wake: Tid)
    requires Inv(f, xs, s)
    ensures Inv(f, xs, CallerMoves(s, wake))
  {
    hide Chunks, Bound, ChunkOf, CellOk;
    if s.caller.Submitting? && s.caller.i < Chunks(|xs|) {
      MakeChunkKeeps(f, xs, s, s.caller.i, s.caller.chunkFirst);
    } else if s.caller.Notifying? {
      NotifyKeeps(f, xs, s, s.caller.i, s.caller.chunkFirst, wake);
    } else {
      var s' := CallerMoves(s, wake);
      CellsStay(f, xs, s, s');
      forall k: nat | k < |s'.tasks| ensures TaskOk(f, xs, s', k) {
        assert TaskOk(f, xs, s, k);
      }
    }
  }

  // A task that has not walked all its chunk is at an element of it that has its first value.
  lemma AtOwnElement<T>(f: T -> T, xs: seq<T>, s: State<T>, k: nat)
    requires Inv(f, xs, s) && k < |s.tasks| && !s.tasks[k].Walked()
    ensures var c := s.tasks[k].cursor;
            && Bound(|xs|, k) <= c < s.tasks[k].last == Bound(|xs|, k + 1) <= |xs|
            && k == ChunkOf(|xs|, c) && s.cells[c] == xs[c] && Count(s.applied, c) == 0
    ensures !s.tasks[k].place.Ended?
  {
    hide Chunks, Bound, ChunkOf;
    assert TaskOk(f, xs, s, k);
    assert InChunk(|xs|, k, s.tasks[k].cursor);
    ChunksTile(|xs|, s.tasks[k].cursor);
    assert CellOk(f, xs, s, s.tasks[k].cursor);
  }

  lemma EnterKeeps<T>(f: T -> T, xs: seq<T>, s: State<T>, k: nat)
    requires Inv(f, xs, s) && k < |s.tasks| && s.tasks[k].place.Running?
    requires !s.tasks[k].Walked() && s.tasks[k].held.None?
    ensures Inv(f, xs, TaskMoves(f, s, k))
  {
    hide Chunks, Bound, ChunkOf, CellOk;
    var s' := TaskMoves(f, s, k);
    AtOwnElement(f, xs, s, k);
    CellsStay(f, xs, s, s');
    forall i: nat | i < |s'.tasks| ensures TaskOk(f, xs, s', i) {
      assert TaskOk(f, xs, s, i);
    }
  }

  lemma StoreCells<T>(f: T -> T, xs: seq<T>, s: State<T>, k: nat, j: nat)
    requires Inv(f, xs, s) && k < |s.tasks| && !s.tasks[k].Walked() && s.tasks[k].held.Some?
    requires j < |xs| == |TaskMoves(f, s, k).cells|
    ensures CellOk(f, xs, TaskMoves(f, s, k), j)
  {
    var s' := TaskMoves(f, s, k);
    AtOwnElement(f, xs, s, k);
    assert TaskOk(f, xs, s, k);
    assert CellOk(f, xs, s, j);
    assert s'.applied[..|s'.applied| - 1] == s.applied;
    hide Chunks, Bound, ChunkOf, CallerOk, PoolOk;
  }

  lemma StoreKeeps<T>(f: T -> T, xs: seq<T>, s: State<T>, k: nat)
    requires Inv(f, xs, s) && k < |s.tasks| && s.tasks[k].place.Running?
    requires !s.tasks[k].Walked() && s.tasks[k].held.Some?
    ensures Inv(f, xs, TaskMoves(f, s, k))
  {
    hide Chunks, Bound, ChunkOf, CellOk;
    var s' := TaskMoves(f, s, k);
    AtOwnElement(f, xs, s, k);
    forall j: nat | j < |xs| ensures CellOk(f, xs, s', j) { StoreCells(f, xs, s, k, j); }
    forall i: nat | i < |s'.tasks| ensures TaskOk(f, xs, s', i) {
      assert TaskOk(f, xs, s, i);
    }
  }

  lemma TaskKeeps<T>(f: T -> T, xs: seq<T>, s: State<T>, k: nat)
    requires Inv(f, xs, s) && k < |s.tasks| && s.tasks[k].place.Running?
    ensures Inv(f, xs, TaskMoves(f, s, k))
  {
    hide Inv;
    if !s.tasks[k].Walked() {
      if s.tasks[k].held.None? { EnterKeeps(f, xs, s, k); } else { StoreKeeps(f, xs, s, k); }
    }
  }

  lemma PullPool<T>(s: State<T>, w: Tid)
    requires PoolOk(s) && LockOk(s) && w < |s.workers| && s.workers[w].Awake? && s.next < |s.tasks|
    ensures PoolOk(Pull(s, w)) && LockOk(Pull(s, w)) && s.tasks[s.next].place.Queued?
  {
    assert s.tasks[s.next].place.Queued?;
  }

  lemma EndPool<T>(s: State<T>, w: Tid, k: nat)
    requires PoolOk(s) && LockOk(s) && w < |s.workers| && s.workers[w] == Busy(k) && k < |s.tasks|
    ensures PoolOk(End(s, w, k)) && LockOk(End(s, w, k)) && s.tasks[k].place == Running(w)
  {
    assert s.tasks[k].place.Queued? <==> k >= s.next;
  }

  lemma PullKeeps<T>(f: T -> T, xs: seq<T>, s: State<T>, w: Tid)
    requires Inv(f, xs, s) && w < |s.workers| && s.workers[w].Awake? && s.next < |s.tasks|
    ensures Inv(f, xs, Pull(s, w))
  {
    hide Chunks, Bound, ChunkOf, CellOk, PoolOk, LockOk;
    var s' := Pull(s, w);
    PullPool(s, w);
    CellsStay(f, xs, s, s');
    forall i: nat | i < |s'.tasks| ensures TaskOk(f, xs, s', i) {
      assert TaskOk(f, xs, s, i);
    }
  }

  lemma EndKeeps<T>(f: T -> T, xs: seq<T>, s: State<T>, w: Tid, k: nat)
    requires Inv(f, xs, s) && w < |s.workers| && s.workers[w] == Busy(k) && k < |s.tasks| && s.tasks[k].Walked()
    ensures Inv(f, xs, End(s, w, k))
  {
    hide Chunks, Bound, ChunkOf, CellOk, PoolOk, LockOk;
    var s' := End(s, w, k);
    EndPool(s, w, k);
    CellsStay(f, xs, s, s');
    forall i: nat | i < |s'.tasks| ensures TaskOk(f, xs, s', i) {
      assert TaskOk(f, xs, s, i);
    }
  }

  // A worker that goes on towards its sleep, and not to a task.
  lemma RestKeeps<T>(f: T -> T, xs: seq<T>, s: State<T>, w: Tid)
    requires Inv(f, xs, s) && w < |s.workers| && (s.workers[w].Awake? || s.workers[w].Tested?)
    requires s.workers[w].Awake? ==> s.lock.Some? || s.next >= |s.tasks|
    ensures Inv(f, xs, WorkerMoves(f, s, w))
  {
    hide Chunks, Bound, ChunkOf, CellOk;
    var s' := WorkerMoves(f, s, w);
    CellsStay(f, xs, s, s');
    forall i: nat | i < |s'.tasks| ensures TaskOk(f, xs, s', i) {
      assert TaskOk(f, xs, s, i);
    }
  }

  lemma StepKeeps<T>(f: T -> T, xs: seq<T>, s: State<T>, a: Action)
    requires Inv(f, xs, s)
    ensures Inv(f, xs, Step(f, s, a))
    ensures |Step(f, s, a).workers| == |s.workers| && Step(f, s, a).polls == s.polls
  {
    hide Inv;
    match a
    case CallerStep(wake) => CallerKeeps(f, xs, s, wake);
    case WorkerStep(w) => if w < |s.workers| { WorkerKeeps(f, xs, s, w); }
  }

  lemma WorkerKeeps<T>(f: T -> T, xs: seq<T>, s: State<T>, w: Tid)
    requires Inv(f, xs, s) && w < |s.workers|
    ensures Inv(f, xs, WorkerMoves(f, s, w))
  {
    assert s.workers[w].Busy? ==> s.workers[w].k < |s.tasks| && s.tasks[s.workers[w].k].place.Running?;
    hide Inv;
    match s.workers[w]
    case Awake =>
      if s.lock.None? && s.next < |s.tasks| { PullKeeps(f, xs, s, w); } else { RestKeeps(f, xs, s, w); }
    case Tested => RestKeeps(f, xs, s, w);
    case Asleep =>
    case Busy(k) => if s.tasks[k].Walked() { EndKeeps(f, xs, s, w, k); } else { TaskKeeps(f, xs, s, k); }
  }

  lemma InitOk<T>(f: T -> T, xs: seq<T>, pool: nat, polls: bool)
    ensures Inv(f, xs, Init(xs, pool, polls))
    ensures |Init(xs, pool, polls).workers| == pool && Init(xs, pool, polls).polls == polls
  {
    assert Chunks(0) == 0;
  }

  lemma {:induction false} RunKeeps<T>(f: T -> T, xs: seq<T>, s: State<T>, run: seq<Action>)
    requires Inv(f, xs, s)
    ensures Inv(f, xs, Exec(f, s, run))
    ensures |Exec(f, s, run).workers| == |s.workers| && Exec(f, s, run).polls == s.polls
    decreases |run|
  {
    if run != [] {
      StepKeeps(f, xs, s, run[0]);
      RunKeeps(f, xs, Step(f, s, run[0]), run[1..]);
    }
  }
}
