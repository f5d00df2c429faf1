/**
 What holds in every run of parallel_for_each: each element is done exactly once, no
 two tasks meet at one, every run comes to a rest, and the call then has returned
 unless every worker has missed its wake-up or there is none.
 */
module ForEachRuns {
  import opened Prelude
  import opened ForEach

  // ----- What every run does -----

  ghost predicate Reachable<T>(f: T -> T, xs: seq<T>, pool: nat, polls: bool, s: State<T>) {
    exists run :: s == Exec(f, Init(xs, pool, polls), run)
  }

  ghost predicate StepTo<T>(f: T -> T, s: State<T>, s': State<T>) {
    exists a :: Step(f, s, a) == s'
  }

  // In past, a step leads from place i to the next one.
  ghost predicate StepAt<T>(f: T -> T, past: seq<State<T>>, i: nat)
    requires i < |past| - 1
  {
    StepTo(f, past[i], past[i + 1])
  }

  // The states of a run, one after another.
  ghost predicate IsRun<T>(f: T -> T, past: seq<State<T>>, xs: seq<T>, pool: nat, polls: bool) {
    past != [] && past[0] == Init(xs, pool, polls) && forall i :: 0 <= i < |past| - 1 ==> StepAt(f, past, i)
  }

  lemma {:induction false} ExecSnoc<T>(f: T -> T, s: State<T>, run: seq<Action>, a: Action)
    ensures Exec(f, s, run + [a]) == Step(f, Exec(f, s, run), a)
    decreases |run|
  {
    if run == [] {
      assert (run + [a])[1..] == [];
    } else {
      assert (run + [a])[1..] == run[1..] + [a];
      ExecSnoc(f, Step(f, s, run[0]), run[1..], a);
    }
  }

  lemma {:induction false} RunReaches<T>(f: T -> T, past: seq<State<T>>, xs: seq<T>, pool: nat, polls: bool, i: nat)
    requires IsRun(f, past, xs, pool, polls) && i < |past|
    ensures Reachable(f, xs, pool, polls, past[i])
  {
    if i == 0 {
      assert Exec(f, Init(xs, pool, polls), []) == past[0];
    } else {
      RunReaches(f, past, xs, pool, polls, i - 1);
      assert StepAt(f, past, i - 1);
      var a :| Step(f, past[i - 1], a) == past[i];
      var run :| Exec(f, Init(xs, pool, polls), run) == past[i - 1];
      ExecSnoc(f, Init(xs, pool, polls), run, a);
    }
  }

  lemma ReachableOk<T>(f: T -> T, xs: seq<T>, pool: nat, polls: bool, s: State<T>)
    requires Reachable(f, xs, pool, polls, s)
    ensures Inv(f, xs, s) && |s.workers| == pool && s.polls == polls
    ensures forall j: nat :: j >= |xs| ==> Count(s.applied, j) == 0
  {
    var run :| s == Exec(f, Init(xs, pool, polls), run);
    InitOk(f, xs, pool, polls);
    RunKeeps(f, xs, Init(xs, pool, polls), run);
    forall j: nat | j >= |xs| ensures Count(s.applied, j) == 0 {
      InsideFrom(f, Init(xs, pool, polls), run, j);
    }
  }

  lemma {:induction false} InsideFrom<T>(f: T -> T, s: State<T>, run: seq<Action>, j: nat)
    requires j >= |s.cells| && Count(s.applied, j) == 0
    ensures Count(Exec(f, s, run).applied, j) == 0
    decreases |run|
  {
    hide Step, Chunks, Count;
    if run != [] {
      StepInside(f, s, run[0], j);
      InsideFrom(f, Step(f, s, run[0]), run[1..], j);
    }
  }

  // No step touches anything beyond the range.
  lemma StepInside<T>(f: T -> T, s: State<T>, a: Action, j: nat)
    requires j >= |s.cells|
    ensures |Step(f, s, a).cells| == |s.cells| && Count(Step(f, s, a).applied, j) == Count(s.applied, j)
  {
    hide Chunks;
    var s' := Step(f, s, a);
    if s'.applied != s.applied {
      assert s'.applied[..|s'.applied| - 1] == s.applied && s'.applied[|s'.applied| - 1] != j;
    }
  }

  // No iterator leaves the range, no two tasks work on the same element, and no element has had
  // the function's result stored twice.
  lemma NoElementShared<T>(f: T -> T, xs: seq<T>, pool: nat, polls: bool, s: State<T>, k: nat, l: nat, j: nat)
    requires Reachable(f, xs, pool, polls, s)
    ensures !s.fault && Count(s.applied, j) <= 1
    ensures k < l < |s.tasks| && !s.tasks[k].Walked() && !s.tasks[l].Walked() ==>
              s.tasks[k].cursor != s.tasks[l].cursor
  {
    ReachableOk(f, xs, pool, polls, s);
    hide Chunks, Bound, ChunkOf;
    if j < |xs| { assert CellOk(f, xs, s, j); }
    if k < l < |s.tasks| && !s.tasks[k].Walked() && !s.tasks[l].Walked() {
      AtOwnElement(f, xs, s, k);
      AtOwnElement(f, xs, s, l);
    }
  }

  function Mapped<T>(f: T -> T, xs: seq<T>): (r: seq<T>)
    ensures |r| == |xs| && forall j :: 0 <= j < |xs| ==> r[j] == f(xs[j])
  {
    if xs == [] then [] else [f(xs[0])] + Mapped(f, xs[1..])
  }

  // What a caller can see beforehand: the length is zero or does not narrow to zero chunks.
  predicate Covered(length: nat) {
    length == 0 || (length % (2 * UINT) != 0 && length % (2 * UINT) != 2 * UINT - 1)
  }

  // Each of the first n elements has had the function's result stored exactly once.
  ghost predicate OnceEach(log: seq<nat>, n: nat) {
    forall j: nat :: j < n ==> Count(log, j) == 1
  }

  lemma ReturnedInv<T>(f: T -> T, xs: seq<T>, s: State<T>)
    requires |xs| < ULONG && Inv(f, xs, s) && s.caller.Returned?
    ensures Covered(|xs|) ==> s.cells == Mapped(f, xs) && OnceEach(s.applied, |xs|)
    ensures !Covered(|xs|) ==> |xs| > 0 && s.cells == xs && forall j: nat :: j < |xs| ==> Count(s.applied, j) == 0
  {
    NoChunks(|xs|);
    hide Chunks, PoolOk;
    forall j: nat | j < |xs|
      ensures s.cells[j] == (if Covered(|xs|) then f(xs[j]) else xs[j])
      ensures Count(s.applied, j) == (if Covered(|xs|) then 1 else 0)
    {
      assert CellOk(f, xs, s, j);
      if Covered(|xs|) {
        ChunksTile(|xs|, j);
        assert TaskOk(f, xs, s, ChunkOf(|xs|, j));
      }
    }
  }

  // When the call returns, whatever the order in which the tasks ran, the function has been applied
  // to every element exactly once, and the range holds the results, if and only if the length is
  // covered; otherwise it has not been applied at all.
  lemma EveryElementOnce<T>(f: T -> T, xs: seq<T>, pool: nat, polls: bool, s: State<T>)
    requires |xs| < ULONG && Reachable(f, xs, pool, polls, s) && s.caller.Returned?
    ensures OnceEach(s.applied, |xs|) <==> Covered(|xs|)
    ensures s.cells == if Covered(|xs|) then Mapped(f, xs) else xs
    ensures !Covered(|xs|) ==> s.applied == []
  {
    ReachableOk(f, xs, pool, polls, s);
    ReturnedInv(f, xs, s);
    hide Inv, Exec, Covered, Mapped;
    if !Covered(|xs|) {
      assert !OnceEach(s.applied, |xs|) by { assert Count(s.applied, 0) == 0; }
      NoneCounted(s.applied);
    }
  }

  lemma NoneCounted(log: seq<nat>)
    requires forall j: nat :: Count(log, j) == 0
    ensures log == []
  {
    if log != [] { CountPositive(log, 0); }
  }

  lemma {:induction false} CountPositive(log: seq<nat>, i: nat)
    requires i < |log|
    ensures Count(log, log[i]) > 0
  {
    if i < |log| - 1 { CountPositive(log[..|log| - 1], i); }
  }

  // A range of 2^33 elements: the call makes no task and returns with the range untouched.
  lemma {:induction false} HugeRangeSkipped<T>(f: T -> T, x: T, pool: nat, polls: bool)
    ensures var xs := seq(2 * UINT, _ => x);
            var s := Exec(f, Init(xs, pool, polls), [CallerStep(0), CallerStep(0)]);
            s.caller.Returned? && s.applied == [] && s.cells == xs
  {
    var xs := seq(2 * UINT, _ => x);
    assert Chunks(|xs|) == 0;
    var s1 := Step(f, Init(xs, pool, polls), CallerStep(0));
    assert [CallerStep(0), CallerStep(0)][1..] == [CallerStep(0)];
    assert [CallerStep(0)][1..] == [];
    assert Exec(f, s1, [CallerStep(0)]) == Step(f, s1, CallerStep(0));
  }

  // ----- Termination -----

  // Steps that one task still has to take: to be taken, two for each element, and to end.
  function Left<T>(task: Task<T>): int {
    2 * (task.last - task.cursor) - (if task.held.Some? then 1 else 0)
    + match task.place case Queued => 2 case Running(_) => 1 case Ended => 0
  }

  function Remaining<T>(tasks: seq<Task<T>>): int {
    if tasks == [] then 0 else Remaining(tasks[..|tasks| - 1]) + Left(tasks[|tasks| - 1])
  }

  // Steps that the caller still has to take, with those of the tasks it has not made yet.
  function CallerLeft(length: nat, caller: Caller): int {
    var c := Chunks(length);
    match caller
    case Submitting(i, chunkFirst) => 4 * (c - i) + 1 + c + 1 + if c > 0 then 2 * (length - chunkFirst) else 0
    case Notifying(i, chunkFirst) => 4 * (c - i) + 2 + c + 1 + if c > 0 then 2 * (length - chunkFirst) else 0
    case Waiting(i) => c - i + 1
    case Returned => 0
  }

  // Steps that the whole call still has to take.
  function Work<T>(s: State<T>): int {
    Remaining(s.tasks) + CallerLeft(|s.cells|, s.caller)
  }

  // Steps that the workers can take towards their sleep.
  function Rest(workers: seq<Worker>): nat {
    if workers == [] then 0
    else Rest(workers[..|workers| - 1]) + RestOf(workers[|workers| - 1])
  }

  function RestOf(worker: Worker): nat {
    match worker case Awake => 2 case Tested => 1 case Asleep => 0 case Busy(_) => 2
  }

  // A bound for the steps of both kinds: a notify gives one worker two steps of rest back.
  function Measure<T>(s: State<T>): int {
    3 * Work(s) + Rest(s.workers)
  }

  lemma {:induction false} RemainingUpdate<T>(tasks: seq<Task<T>>, k: nat, task: Task<T>)
    requires k < |tasks|
    ensures Remaining(tasks[k := task]) == Remaining(tasks) - Left(tasks[k]) + Left(task)
    decreases |tasks|
  {
    var n := |tasks| - 1;
    if k < n {
      RemainingUpdate(tasks[..n], k, task);
      assert tasks[k := task][..n] == tasks[..n][k := task];
    } else {
      assert tasks[k := task][..n] == tasks[..n];
    }
  }

  lemma {:induction false} RestUpdate(workers: seq<Worker>, w: nat, worker: Worker)
    requires w < |workers|
    ensures Rest(workers[w := worker]) == Rest(workers) - RestOf(workers[w]) + RestOf(worker)
    decreases |workers|
  {
    var n := |workers| - 1;
    if w < n {
      RestUpdate(workers[..n], w, worker);
      assert workers[w := worker][..n] == workers[..n][w := worker];
    } else {
      assert workers[w := worker][..n] == workers[..n];
    }
  }

  lemma {:induction false} RestAtFirst(pool: nat)
    ensures Rest(seq(pool, _ => Awake)) == 2 * pool
  {
    if pool > 0 {
      RestAtFirst(pool - 1);
      assert seq(pool, _ => Awake)[..pool - 1] == seq(pool - 1, _ => Awake);
    }
  }

  // A step by which a worker only goes to sleep.
  predicate Resting<T>(s: State<T>, a: Action) {
    a.WorkerStep? && a.w < |s.workers| && (s.workers[a.w].Tested? || (s.workers[a.w].Awake? && s.next >= |s.tasks|))
  }

  // Every step that changes anything is one of the steps that were left to do, or takes a worker
  // nearer to its sleep.
  lemma StepWork<T>(f: T -> T, xs: seq<T>, s: State<T>, a: Action)
    requires Inv(f, xs, s) && Step(f, s, a) != s
    ensures Work(Step(f, s, a)) == Work(s) - if Resting(s, a) then 0 else 1
    ensures Measure(Step(f, s, a)) < Measure(s)
  {
    match a
    case CallerStep(wake) => CallerWork(f, xs, s, wake);
    case WorkerStep(w) => WorkerWork(f, xs, s, w);
  }

  lemma WorkerWork<T>(f: T -> T, xs: seq<T>, s: State<T>, w: Tid)
    requires Inv(f, xs, s) && w < |s.workers| && WorkerMoves(f, s, w) != s
    ensures Work(WorkerMoves(f, s, w)) == Work(s) - if Resting(s, WorkerStep(w)) then 0 else 1
    ensures Measure(WorkerMoves(f, s, w)) < Measure(s)
  {
    hide Chunks, Bound, ChunkOf, CellOk, CallerOk, TaskOk, Remaining, Rest, CallerLeft;
    var s' := WorkerMoves(f, s, w);
    RestUpdate(s.workers, w, s'.workers[w]);
    match s.workers[w]
    case Awake => if s.next < |s.tasks| { RemainingUpdate(s.tasks, s.next, Pull(s, w).tasks[s.next]); }
    case Tested =>
    case Asleep =>
    case Busy(k) =>
      if s.tasks[k].Walked() { RemainingUpdate(s.tasks, k, End(s, w, k).tasks[k]); }
      else { WalkWork(f, xs, s, k); }
  }

  lemma WalkWork<T>(f: T -> T, xs: seq<T>, s: State<T>, k: nat)
    requires Inv(f, xs, s) && k < |s.tasks| && !s.tasks[k].Walked()
    ensures Work(TaskMoves(f, s, k)) == Work(s) - 1 && TaskMoves(f, s, k).workers == s.workers
  {
    hide Chunks, Bound, ChunkOf, CellOk, CallerOk, PoolOk, LockOk, Remaining;
    AtOwnElement(f, xs, s, k);
    assert s.tasks[k].held.Some? ==> s.tasks[k].cursor < s.tasks[k].last by { assert TaskOk(f, xs, s, k); }
    RemainingUpdate(s.tasks, k, TaskMoves(f, s, k).tasks[k]);
  }

  lemma CallerWork<T>(f: T -> T, xs: seq<T>, s: State<T>, wake: Tid)
    requires Inv(f, xs, s) && CallerMoves(s, wake) != s
    ensures Work(CallerMoves(s, wake)) == Work(s) - 1
    ensures Measure(CallerMoves(s, wake)) < Measure(s)
  {
    hide Chunks, CellOk, TaskOk, PoolOk, LockOk, Rest;
    var s' := CallerMoves(s, wake);
    match s.caller
    case Submitting(i, chunkFirst) =>
      if i < Chunks(|xs|) {
        ChunkFits(|xs|, i);
        assert s'.tasks[..|s'.tasks| - 1] == s.tasks;
      }
    case Notifying(_, _) =>
      if wake < |s.workers| { RestUpdate(s.workers, wake, Awake); }
    case Waiting(i) =>
    case Returned =>
  }

  // Steps of a run that change something, and those of them that are not on the way to a sleep.
  ghost function Changes<T>(f: T -> T, s: State<T>, run: seq<Action>): nat
    decreases |run|
  {
    if run == [] then 0
    else (if Step(f, s, run[0]) != s then 1 else 0) + Changes(f, Step(f, s, run[0]), run[1..])
  }

  ghost function Productive<T>(f: T -> T, s: State<T>, run: seq<Action>): nat
    decreases |run|
  {
    if run == [] then 0
    else (if Step(f, s, run[0]) != s && !Resting(s, run[0]) then 1 else 0)
         + Productive(f, Step(f, s, run[0]), run[1..])
  }

  lemma {:induction false} RunWork<T>(f: T -> T, xs: seq<T>, s: State<T>, run: seq<Action>)
    requires Inv(f, xs, s)
    ensures Productive(f, s, run) == Work(s) - Work(Exec(f, s, run))
    ensures Changes(f, s, run) <= Measure(s) - Measure(Exec(f, s, run))
    decreases |run|
  {
    hide Inv, Step, Work, Measure, Resting;
    if run != [] {
      StepKeeps(f, xs, s, run[0]);
      if Step(f, s, run[0]) != s { StepWork(f, xs, s, run[0]); }
      RunWork(f, xs, Step(f, s, run[0]), run[1..]);
    }
  }

  lemma {:induction false} NoneRemaining<T>(tasks: seq<Task<T>>)
    requires forall k :: 0 <= k < |tasks| ==> tasks[k].place.Ended? && tasks[k].Walked()
    ensures Remaining(tasks) == 0
  {
    if tasks != [] { NoneRemaining(tasks[..|tasks| - 1]); }
  }

  lemma {:induction false} SomeRemaining<T>(f: T -> T, xs: seq<T>, s: State<T>, n: nat)
    requires Inv(f, xs, s) && n <= |s.tasks|
    ensures Remaining(s.tasks[..n]) >= 0
  {
    if n > 0 {
      SomeRemaining(f, xs, s, n - 1);
      assert TaskOk(f, xs, s, n - 1);
      assert s.tasks[..n][..n - 1] == s.tasks[..n - 1];
    }
  }

  // Work is never negative, and there is none left after the return.
  lemma WorkLeft<T>(f: T -> T, xs: seq<T>, s: State<T>)
    requires Inv(f, xs, s)
    ensures Work(s) >= 0 && (s.caller.Returned? ==> Work(s) == 0)
    ensures Measure(s) >= 0
  {
    hide Chunks, PoolOk, LockOk, CellOk;
    SomeRemaining(f, xs, s, |s.tasks|);
    assert s.tasks[..|s.tasks|] == s.tasks;
    if s.caller.Returned? {
      forall k | 0 <= k < |s.tasks| ensures s.tasks[k].place.Ended? && s.tasks[k].Walked() {
        assert TaskOk(f, xs, s, k);
      }
      NoneRemaining(s.tasks);
    }
  }

  // How many steps a call on n elements takes, those by which workers go to sleep not counted: two for
  // each element, five for each chunk, and two more.
  function Steps(length: nat): nat {
    if length == 0 then 0 else 5 * Chunks(length) + 2 + if Chunks(length) > 0 then 2 * length else 0
  }

  // No schedule takes more of them, and a call that has returned has taken them all. With the steps
  // towards sleep, no schedule changes anything more than three times as often and twice for each worker.
  lemma ExactWork<T>(f: T -> T, xs: seq<T>, pool: nat, polls: bool, run: seq<Action>)
    ensures var s := Init(xs, pool, polls);
            && Productive(f, s, run) <= Steps(|xs|)
            && (Exec(f, s, run).caller.Returned? ==> Productive(f, s, run) == Steps(|xs|))
            && Changes(f, s, run) <= 3 * Steps(|xs|) + 2 * pool
  {
    var s := Init(xs, pool, polls);
    InitOk(f, xs, pool, polls);
    RunKeeps(f, xs, s, run);
    RunWork(f, xs, s, run);
    WorkLeft(f, xs, Exec(f, s, run));
    RestAtFirst(pool);
    hide Chunks;
    assert Work(s) == Steps(|xs|);
  }

  // ----- Progress -----

  ghost predicate AllEnded<T>(s: State<T>) {
    |s.tasks| == Chunks(|s.cells|) && forall k :: 0 <= k < |s.tasks| ==> s.tasks[k].place.Ended?
  }

  // A worker that runs a task or will still test the queue.
  predicate Up<T>(s: State<T>, w: nat) {
    w < |s.workers| && (s.workers[w].Awake? || s.workers[w].Busy?)
  }

  predicate NotifyToCome<T>(s: State<T>) {
    s.caller.Notifying? || (s.caller.Submitting? && s.caller.i < Chunks(|s.cells|))
  }

  // The call can go on to return: all its tasks have ended, or some worker is up, or a notify that can
  // wake one is still to come.
  ghost predicate CanStill<T>(s: State<T>) {
    AllEnded(s) || (exists w :: Up(s, w)) || (NotifyToCome(s) && s.workers != [])
  }

  // Without that nothing brings it back.
  lemma StrandedStays<T>(f: T -> T, xs: seq<T>, s: State<T>, a: Action)
    requires Inv(f, xs, s) && !CanStill(s)
    ensures !CanStill(Step(f, s, a)) && !s.caller.Returned?
  {
    StepKeeps(f, xs, s, a);
    if s.workers == [] {
      NoWorkerStays(f, xs, s, a);
    } else {
      SleepersStay(f, xs, s, a);
    }
  }

  lemma NoWorkerStays<T>(f: T -> T, xs: seq<T>, s: State<T>, a: Action)
    requires Inv(f, xs, s) && s.workers == [] && !AllEnded(s) && Inv(f, xs, Step(f, s, a))
    ensures Step(f, s, a).workers == [] && !AllEnded(Step(f, s, a)) && !s.caller.Returned?
  {
    hide Chunks, CellOk, TaskOk;
    var s' := Step(f, s, a);
    assert forall k :: 0 <= k < |s'.tasks| ==> (s'.tasks[k].place.Queued? <==> k >= s'.next);
    assert s'.workers == [] && s'.next == 0;
    assert |s.tasks| <= |s'.tasks| && |s'.cells| == |s.cells|;
    assert s'.tasks == [] ==> s.tasks == [];
    if s'.tasks != [] { assert s'.tasks[0].place.Queued?; }
  }

  lemma SleepersStay<T>(f: T -> T, xs: seq<T>, s: State<T>, a: Action)
    requires Inv(f, xs, s) && !AllEnded(s) && !NotifyToCome(s) && forall w :: !Up(s, w)
    ensures var s' := Step(f, s, a);
            !AllEnded(s') && !NotifyToCome(s') && (forall w :: !Up(s', w)) && !s.caller.Returned?
  {
    hide Chunks, CellOk, TaskOk;
    var s' := Step(f, s, a);
    if a.WorkerStep? {
      assert !Up(s, a.w);
    }
    forall w ensures !Up(s', w) { assert !Up(s, w); }
  }

  lemma {:induction false} RunStranded<T>(f: T -> T, xs: seq<T>, s: State<T>, run: seq<Action>)
    requires Inv(f, xs, s) && !CanStill(s)
    ensures !Exec(f, s, run).caller.Returned?
    decreases |run|
  {
    StrandedStays(f, xs, s, if run == [] then CallerStep(0) else run[0]);
    if run != [] {
      StepKeeps(f, xs, s, run[0]);
      RunStranded(f, xs, Step(f, s, run[0]), run[1..]);
    }
  }

  // The action that takes the call further, if it can: the caller's own step or, if it waits for a
  // task, a step of a worker.
  lemma CanGoOn<T>(f: T -> T, xs: seq<T>, s: State<T>) returns (a: Action)
    requires Inv(f, xs, s) && CanStill(s) && !s.caller.Returned?
    ensures Step(f, s, a) != s && CanStill(Step(f, s, a))
  {
    hide Inv, CanStill, Step;
    if AllEnded(s) {
      a := CallerEnds(f, xs, s);
    } else if exists w :: Up(s, w) {
      var w :| Up(s, w);
      if s.caller.Waiting? { a := PoolGoesOn(f, xs, s, w); } else { a := CallerGoesOn(f, xs, s, w); }
    } else {
      a := NotifyGoesOn(f, xs, s);
    }
  }

  lemma CallerEnds<T>(f: T -> T, xs: seq<T>, s: State<T>) returns (a: Action)
    requires Inv(f, xs, s) && AllEnded(s) && !s.caller.Returned?
    ensures Step(f, s, a) != s && CanStill(Step(f, s, a))
  {
    hide Chunks, CellOk, TaskOk;
    a := if exists w :: 0 <= w < |s.workers| && s.workers[w].Asleep?
         then var w :| 0 <= w < |s.workers| && s.workers[w].Asleep?; CallerStep(w) else CallerStep(0);
    assert Step(f, s, a).caller != s.caller;
    assert AllEnded(Step(f, s, a));
  }

  lemma CallerGoesOn<T>(f: T -> T, xs: seq<T>, s: State<T>, up: nat) returns (a: Action)
    requires Inv(f, xs, s) && Up(s, up) && !s.caller.Waiting? && !s.caller.Returned?
    ensures Step(f, s, a) != s && CanStill(Step(f, s, a))
  {
    hide Chunks, CellOk, TaskOk;
    a := if exists w :: 0 <= w < |s.workers| && s.workers[w].Asleep?
         then var w :| 0 <= w < |s.workers| && s.workers[w].Asleep?; CallerStep(w) else CallerStep(0);
    if s.caller.Submitting? && s.caller.i < Chunks(|xs|) { ChunkFits(|xs|, s.caller.i); }
    assert Step(f, s, a).caller != s.caller;
    assert Up(Step(f, s, a), up);
  }

  // A step of a worker that runs a task, of the owner of the head mutex, or of one that takes a task.
  lemma PoolGoesOn<T>(f: T -> T, xs: seq<T>, s: State<T>, up: nat) returns (a: Action)
    requires Inv(f, xs, s) && Up(s, up) && s.caller.Waiting? && !AllEnded(s)
    ensures Step(f, s, a) != s && CanStill(Step(f, s, a))
  {
    hide Chunks, CellOk, Step, CanStill, AllEnded;
    if s.workers[up].Busy? {
      a := WorkerStep(up);
      BusyGoesOn(f, xs, s, up);
    } else if s.lock.Some? || s.next < |s.tasks| {
      a := WorkerStep(if s.lock.Some? then s.lock.value else up);
      AwakeGoesOn(f, xs, s, up);
    } else {
      var k := SomeRunning(f, xs, s);
      a := WorkerStep(s.tasks[k].place.w);
      BusyGoesOn(f, xs, s, s.tasks[k].place.w);
    }
  }

  lemma BusyGoesOn<T>(f: T -> T, xs: seq<T>, s: State<T>, w: nat)
    requires Inv(f, xs, s) && w < |s.workers| && s.workers[w].Busy?
    ensures Step(f, s, WorkerStep(w)) != s && CanStill(Step(f, s, WorkerStep(w)))
  {
    hide Chunks, Bound, CellOk, TaskOk, CallerOk;
    var k, s' := s.workers[w].k, Step(f, s, WorkerStep(w));
    if s.tasks[k].Walked() {
      assert s'.workers[w] != s.workers[w];
    } else {
      AtOwnElement(f, xs, s, k);
      assert s'.tasks[k] != s.tasks[k];
    }
    assert Up(s', w);
  }

  lemma AwakeGoesOn<T>(f: T -> T, xs: seq<T>, s: State<T>, w: nat)
    requires Inv(f, xs, s) && w < |s.workers| && s.workers[w].Awake? && (s.lock.Some? || s.next < |s.tasks|)
    ensures var a := WorkerStep(if s.lock.Some? then s.lock.value else w);
            Step(f, s, a) != s && CanStill(Step(f, s, a))
  {
    hide Chunks, CellOk, TaskOk, CallerOk;
    var u := if s.lock.Some? then s.lock.value else w;
    var s' := Step(f, s, WorkerStep(u));
    assert s'.workers[u] != s.workers[u];
    assert Up(s', w);
  }

  // With an empty queue, a task that has not ended is running.
  lemma SomeRunning<T>(f: T -> T, xs: seq<T>, s: State<T>) returns (k: nat)
    requires Inv(f, xs, s) && s.caller.Waiting? && !AllEnded(s) && s.next >= |s.tasks|
    ensures k < |s.tasks| && s.tasks[k].place.Running?
    ensures s.tasks[k].place.w < |s.workers| && s.workers[s.tasks[k].place.w].Busy?
  {
    hide Chunks, CellOk, TaskOk;
    k :| 0 <= k < |s.tasks| && !s.tasks[k].place.Ended?;
  }

  // Nobody is up: the owner of the head mutex goes to sleep, the caller pushes, and its notify wakes one.
  lemma NotifyGoesOn<T>(f: T -> T, xs: seq<T>, s: State<T>) returns (a: Action)
    requires Inv(f, xs, s) && CanStill(s) && !AllEnded(s) && forall w :: !Up(s, w)
    ensures Step(f, s, a) != s && CanStill(Step(f, s, a))
  {
    hide Chunks, CellOk, TaskOk;
    if s.lock.Some? {
      a := WorkerStep(s.lock.value);
      assert Step(f, s, a).workers[s.lock.value] != s.workers[s.lock.value];
    } else {
      assert !Up(s, 0) && s.workers[0].Asleep?;
      a := CallerStep(0);
      if s.caller.Submitting? { ChunkFits(|xs|, s.caller.i); }
      assert Step(f, s, a).caller != s.caller;
      assert s.caller.Notifying? ==> Up(Step(f, s, a), 0);
    }
  }

  lemma {:induction false} Completes<T>(f: T -> T, xs: seq<T>, s: State<T>) returns (run: seq<Action>)
    requires Inv(f, xs, s) && CanStill(s)
    ensures Exec(f, s, run).caller.Returned?
    decreases Measure(s)
  {
    hide Inv, CanStill, Step, Measure;
    run := [];
    if !s.caller.Returned? {
      var a := CanGoOn(f, xs, s);
      StepKeeps(f, xs, s, a);
      StepWork(f, xs, s, a);
      WorkLeft(f, xs, Step(f, s, a));
      var rest := Completes(f, xs, Step(f, s, a));
      run := [a] + rest;
      assert run[1..] == rest;
    }
  }

  // From every reachable state the call can go on to return if and only if all its tasks have ended,
  // some worker runs a task or will still test the queue, or a notify that can wake one is to come.
  lemma CanReturn<T>(f: T -> T, xs: seq<T>, pool: nat, polls: bool, s: State<T>)
    requires Reachable(f, xs, pool, polls, s)
    ensures (exists run :: Exec(f, s, run).caller.Returned?) <==> CanStill(s)
  {
    ReachableOk(f, xs, pool, polls, s);
    if CanStill(s) {
      var run := Completes(f, xs, s);
    } else {
      forall run ensures !Exec(f, s, run).caller.Returned? { RunStranded(f, xs, s, run); }
    }
  }

  // ----- Who can be stranded -----

  // The notify does not fall between a worker's test and its sleep.
  predicate Punctual<T>(s: State<T>, a: Action) {
    a.CallerStep? && s.caller.Notifying? ==> s.lock.None?
  }

  ghost predicate RunPunctual<T>(f: T -> T, s: State<T>, run: seq<Action>)
    decreases |run|
  {
    run == [] || (Punctual(s, run[0]) && RunPunctual(f, Step(f, s, run[0]), run[1..]))
  }

  // While a task is queued somebody is up, or a notify is about to come.
  ghost predicate Attended<T>(s: State<T>) {
    s.next < |s.tasks| ==> s.caller.Notifying? || exists w :: Up(s, w)
  }

  lemma AttendedStays<T>(f: T -> T, xs: seq<T>, s: State<T>, a: Action)
    requires Inv(f, xs, s) && Attended(s) && s.workers != [] && (Punctual(s, a) || s.polls)
    ensures Attended(Step(f, s, a))
  {
    hide Chunks, CellOk, TaskOk;
    var s' := Step(f, s, a);
    if s'.next < |s'.tasks| && !s'.caller.Notifying? {
      if s.next < |s.tasks| && !s.caller.Notifying? {
        var w :| Up(s, w);
        UpStays(f, s, a, w);
      } else if s.caller.Notifying? {
        NotifyAttends(f, xs, s, a);
      }
    }
  }

  lemma UpStays<T>(f: T -> T, s: State<T>, a: Action, w: Tid)
    requires Up(s, w) && s.next < |s.tasks|
    ensures Up(Step(f, s, a), w)
  {
    hide Chunks;
  }

  lemma NotifyAttends<T>(f: T -> T, xs: seq<T>, s: State<T>, a: Action)
    requires Inv(f, xs, s) && s.caller.Notifying? && s.workers != [] && (Punctual(s, a) || s.polls)
    requires !Step(f, s, a).caller.Notifying?
    ensures exists w :: Up(Step(f, s, a), w)
  {
    hide Chunks, CellOk, TaskOk;
    var s' := Step(f, s, a);
    if SomeAsleep(s.workers) {
      assert Up(s', a.wake);
    } else {
      assert !s.workers[0].Tested? && !s.workers[0].Asleep?;
      assert Up(s', 0);
    }
  }

  lemma AttendedCan<T>(f: T -> T, xs: seq<T>, s: State<T>)
    requires Inv(f, xs, s) && Attended(s) && s.workers != []
    ensures CanStill(s)
  {
    hide Chunks, CellOk, TaskOk;
    if !AllEnded(s) && !NotifyToCome(s) && s.next >= |s.tasks| {
      assert |s.tasks| == Chunks(|s.cells|);
      var k :| 0 <= k < |s.tasks| && !s.tasks[k].place.Ended?;
      assert Up(s, s.tasks[k].place.w);
    }
  }

  lemma {:induction false} RunAttended<T>(f: T -> T, xs: seq<T>, s: State<T>, run: seq<Action>)
    requires Inv(f, xs, s) && Attended(s) && s.workers != [] && (s.polls || RunPunctual(f, s, run))
    ensures CanStill(Exec(f, s, run))
    decreases |run|
  {
    hide Inv, Attended, CanStill, Step, Punctual;
    if run == [] {
      AttendedCan(f, xs, s);
    } else {
      StepKeeps(f, xs, s, run[0]);
      AttendedStays(f, xs, s, run[0]);
      RunAttended(f, xs, Step(f, s, run[0]), run[1..]);
    }
  }

  // A call is stranded only without workers, or on the default pool by a notify that fell between a
  // worker's test and its sleep.
  lemma NeverStranded<T>(f: T -> T, xs: seq<T>, pool: nat, polls: bool, run: seq<Action>)
    requires pool > 0 && (polls || RunPunctual(f, Init(xs, pool, polls), run))
    ensures CanStill(Exec(f, Init(xs, pool, polls), run))
  {
    InitOk(f, xs, pool, polls);
    RunAttended(f, xs, Init(xs, pool, polls), run);
  }

  // With chunks to run and no worker, the call never returns; once the caller waits, nobody can take
  // any step.
  lemma NoWorkerBlocks<T>(f: T -> T, xs: seq<T>, s: State<T>, a: Action)
    requires Inv(f, xs, s) && Chunks(|xs|) > 0 && s.workers == []
    ensures !CanStill(s) && !s.caller.Returned?
    ensures s.caller.Waiting? ==> Step(f, s, a) == s
  {
    hide Chunks, CellOk, TaskOk;
    assert s.tasks != [] ==> s.tasks[0].place.Queued?;
    assert forall k :: 0 <= k < |s.tasks| ==> !s.tasks[k].place.Ended?;
  }

  // Once the caller waits, nobody is up and nobody is about to sleep, every step is in vain.
  lemma {:induction false} StaysStranded<T>(f: T -> T, xs: seq<T>, s: State<T>, run: seq<Action>)
    requires Inv(f, xs, s) && !CanStill(s) && s.caller.Waiting? && s.lock.None?
    requires s.caller.i < |s.tasks| && !s.tasks[s.caller.i].place.Ended?
    ensures Exec(f, s, run) == s
    decreases |run|
  {
    if run != [] {
      if run[0].WorkerStep? { assert !Up(s, run[0].w); }
      assert Step(f, s, run[0]) == s;
      StaysStranded(f, xs, s, run[1..]);
    }
  }

  // A call on one element, with its task not taken, and at most one worker.
  function OnOne<T>(x: T, caller: Caller, pushed: bool, workers: seq<Worker>, lock: Option<Tid>, polls: bool)
    : State<T>
  {
    State([x], caller, if pushed then [Task(0, 1, None, Queued)] else [], 0, workers, lock, polls, [], false)
  }

  lemma OneChunk<T>(f: T -> T, x: T, workers: seq<Worker>, lock: Option<Tid>, polls: bool)
    ensures Step(f, OnOne(x, Submitting(0, 0), false, workers, lock, polls), CallerStep(0)) ==
            OnOne(x, Notifying(1, 1), true, workers, lock, polls)
    ensures Step(f, OnOne(x, Submitting(1, 1), true, workers, lock, polls), CallerStep(0)) ==
            OnOne(x, Waiting(0), true, workers, lock, polls)
  {
    assert Chunks(1) == 1;
  }

  lemma NobodyNotified<T>(f: T -> T, x: T, workers: seq<Worker>, lock: Option<Tid>, polls: bool)
    requires forall w :: 0 <= w < |workers| ==> !workers[w].Asleep?
    ensures Step(f, OnOne(x, Notifying(1, 1), true, workers, lock, polls), CallerStep(0)) ==
            OnOne(x, Submitting(1, 1), true, workers, lock, polls)
  {
  }

  // The one worker tests the empty queue, or goes to sleep.
  lemma OneRests<T>(f: T -> T, x: T, caller: Caller, pushed: bool)
    ensures !pushed ==> Step(f, OnOne(x, caller, pushed, [Awake], None, false), WorkerStep(0)) ==
                        OnOne(x, caller, pushed, [Tested], Some(0), false)
    ensures Step(f, OnOne(x, caller, pushed, [Tested], Some(0), false), WorkerStep(0)) ==
            OnOne(x, caller, pushed, [Asleep], None, false)
  {
  }

  lemma ExecCons<T>(f: T -> T, s: State<T>, a: Action, run: seq<Action>)
    ensures Exec(f, s, [a] + run) == Exec(f, Step(f, s, a), run)
  {
    assert ([a] + run)[1..] == run;
  }

  // The shortest such run: one element and no worker.
  lemma {:induction false} BlockedOnOne<T>(f: T -> T, x: T, polls: bool, run: seq<Action>)
    ensures var s := Exec(f, Init([x], 0, polls), [CallerStep(0), CallerStep(0), CallerStep(0)]);
            && s == OnOne(x, Waiting(0), true, [], None, polls) && Exec(f, s, run) == s
  {
    var c := CallerStep(0);
    var s0, s := Init([x], 0, polls), OnOne(x, Waiting(0), true, [], None, polls);
    InitOk(f, [x], 0, polls);
    RunKeeps(f, [x], s0, [c, c, c]);
    assert s0 == OnOne(x, Submitting(0, 0), false, [], None, polls);
    OneChunk(f, x, [], None, polls);
    NobodyNotified(f, x, [], None, polls);
    assert [c, c, c] == [c] + ([c] + ([c] + []));
    ExecCons(f, s0, c, [c] + ([c] + []));
    ExecCons(f, OnOne(x, Notifying(1, 1), true, [], None, polls), c, [c] + []);
    ExecCons(f, OnOne(x, Submitting(1, 1), true, [], None, polls), c, []);
    assert Exec(f, s0, [c, c, c]) == s;
    assert !s.tasks[0].place.Ended? && Chunks(1) == 1;
    hide Inv, Step;
    StaysStranded(f, [x], s, run);
  }

  // A lost wake-up: one element, one worker of the default pool. The worker tests the empty queue, the
  // caller pushes and notifies nobody, the worker goes to sleep, and the call never returns.
  lemma {:induction false} LostWakeUp<T>(f: T -> T, x: T, run: seq<Action>)
    ensures var s := Exec(f, Init([x], 1, false),
                          [WorkerStep(0), CallerStep(0), CallerStep(0), WorkerStep(0), CallerStep(0)]);
            && s == OnOne(x, Waiting(0), true, [Asleep], None, false) && Exec(f, s, run) == s
  {
    var c, w := CallerStep(0), WorkerStep(0);
    var s0, s := Init([x], 1, false), OnOne(x, Waiting(0), true, [Asleep], None, false);
    InitOk(f, [x], 1, false);
    RunKeeps(f, [x], s0, [w, c, c, w, c]);
    assert s0.workers == [Awake];
    assert s0 == OnOne(x, Submitting(0, 0), false, [Awake], None, false);
    assert !s.tasks[0].place.Ended? && Chunks(1) == 1;
    assert !CanStill(s);
    hide Inv, Step, Exec, CanStill;
    OneRests(f, x, Submitting(0, 0), false);
    OneChunk(f, x, [Tested], Some(0), false);
    NobodyNotified(f, x, [Tested], Some(0), false);
    OneRests(f, x, Submitting(1, 1), true);
    OneChunk(f, x, [Asleep], None, false);
    assert [w, c, c, w, c] == [w] + ([c] + ([c] + ([w] + ([c] + []))));
    ExecCons(f, s0, w, [c] + ([c] + ([w] + ([c] + []))));
    ExecCons(f, OnOne(x, Submitting(0, 0), false, [Tested], Some(0), false), c, [c] + ([w] + ([c] + [])));
    ExecCons(f, OnOne(x, Notifying(1, 1), true, [Tested], Some(0), false), c, [w] + ([c] + []));
    ExecCons(f, OnOne(x, Submitting(1, 1), true, [Tested], Some(0), false), w, [c] + []);
    ExecCons(f, OnOne(x, Submitting(1, 1), true, [Asleep], None, false), c, []);
    ExecNone(f, s);
    StaysStranded(f, [x], s, run);
  }

  lemma ExecNone<T>(f: T -> T, s: State<T>)
    ensures Exec(f, s, []) == s
  {
  }

  // ----- Fair schedules -----

  type Schedule = nat -> Action

  function At<T>(f: T -> T, s: State<T>, schedule: Schedule, n: nat): State<T> {
    if n == 0 then s else Step(f, At(f, s, schedule, n - 1), schedule(n - 1))
  }

  ghost predicate CallerSoon(schedule: Schedule, n: nat) {
    exists m :: m >= n && schedule(m).CallerStep?
  }

  ghost predicate WorkerSoon(schedule: Schedule, w: Tid, n: nat) {
    exists m :: m >= n && schedule(m) == WorkerStep(w)
  }

  // If the action is a notify and somebody sleeps, it wakes one.
  ghost predicate Wakes<T>(s: State<T>, a: Action) {
    a.CallerStep? && s.caller.Notifying? && SomeAsleep(s.workers) ==>
      a.wake < |s.workers| && s.workers[a.wake].Asleep?
  }

  // The caller and every worker get their turn again and again.
  ghost predicate Fair<T>(f: T -> T, s: State<T>, schedule: Schedule) {
    && (forall n: nat :: CallerSoon(schedule, n))
    && (forall n: nat, w: Tid :: w < |s.workers| ==> WorkerSoon(schedule, w, n))
    && (forall n: nat :: Wakes(At(f, s, schedule, n), schedule(n)))
  }

  lemma {:induction false} AtKeeps<T>(f: T -> T, xs: seq<T>, s: State<T>, schedule: Schedule, n: nat)
    requires Inv(f, xs, s)
    ensures Inv(f, xs, At(f, s, schedule, n))
    ensures |At(f, s, schedule, n).workers| == |s.workers| && At(f, s, schedule, n).polls == s.polls
  {
    hide Inv, Step;
    if n > 0 {
      AtKeeps(f, xs, s, schedule, n - 1);
      StepKeeps(f, xs, At(f, s, schedule, n - 1), schedule(n - 1));
    }
  }

  // Nothing happens between n and m, or the measure has dropped.
  lemma {:induction false} IdleOrWork<T>(f: T -> T, xs: seq<T>, s: State<T>, schedule: Schedule, n: nat, m: nat)
    requires Inv(f, xs, s) && n <= m
    ensures || At(f, s, schedule, m) == At(f, s, schedule, n)
            || Measure(At(f, s, schedule, m)) < Measure(At(f, s, schedule, n))
    decreases m
  {
    hide Inv, Measure, Step;
    if n < m {
      IdleOrWork(f, xs, s, schedule, n, m - 1);
      AtKeeps(f, xs, s, schedule, m - 1);
      var before := At(f, s, schedule, m - 1);
      if Step(f, before, schedule(m - 1)) != before { StepWork(f, xs, before, schedule(m - 1)); }
    }
  }

  // Whatever sleeper its notify wakes, the caller moves if it can.
  lemma AnyWake<T>(f: T -> T, xs: seq<T>, s: State<T>, a: Action, b: Action)
    requires Inv(f, xs, s) && a.CallerStep? && b.CallerStep? && Step(f, s, a) != s && Wakes(s, b)
    ensures Step(f, s, b) != s
  {
    hide Chunks, CellOk, TaskOk;
    if s.caller.Notifying? { assert Step(f, s, b).caller != s.caller; }
  }

  lemma FairTurn<T>(f: T -> T, s: State<T>, schedule: Schedule, n: nat, a: Action) returns (m: nat)
    requires Fair(f, s, schedule) && (a.WorkerStep? ==> a.w < |s.workers|)
    ensures m >= n && (if a.CallerStep? then schedule(m).CallerStep? else schedule(m) == a)
    ensures Wakes(At(f, s, schedule, m), schedule(m))
  {
    if a.CallerStep? {
      assert CallerSoon(schedule, n);
      m :| m >= n && schedule(m).CallerStep?;
    } else {
      assert WorkerSoon(schedule, a.w, n);
      m :| m >= n && schedule(m) == a;
    }
  }

  // The turn at which something happens, if something can.
  lemma NextChange<T>(f: T -> T, xs: seq<T>, s: State<T>, schedule: Schedule, n: nat, a: Action) returns (k: nat)
    requires Inv(f, xs, s) && Fair(f, s, schedule) && Step(f, At(f, s, schedule, n), a) != At(f, s, schedule, n)
    ensures k > n && Measure(At(f, s, schedule, k)) < Measure(At(f, s, schedule, n))
  {
    hide Inv, Measure, Step, Wakes, Fair, At;
    var now := At(f, s, schedule, n);
    AtKeeps(f, xs, s, schedule, n);
    if a.WorkerStep? { IdleWorker(f, now, a); }
    var m := FairTurn(f, s, schedule, n, a);
    k := m + 1;
    IdleOrWork(f, xs, s, schedule, n, m);
    IdleOrWork(f, xs, s, schedule, m, k);
    AtNext(f, s, schedule, m);
    if At(f, s, schedule, m) == now && a.CallerStep? { AnyWake(f, xs, now, a, schedule(m)); }
  }

  lemma AtNext<T>(f: T -> T, s: State<T>, schedule: Schedule, n: nat)
    ensures At(f, s, schedule, n + 1) == Step(f, At(f, s, schedule, n), schedule(n))
  {
  }

  lemma AtStart<T>(f: T -> T, s: State<T>, schedule: Schedule)
    ensures At(f, s, schedule, 0) == s
  {
  }

  lemma IdleWorker<T>(f: T -> T, s: State<T>, a: Action)
    requires a.WorkerStep? && Step(f, s, a) != s
    ensures a.w < |s.workers|
  {
  }

  lemma {:induction false} ReturnsFrom<T>(f: T -> T, xs: seq<T>, s: State<T>, schedule: Schedule, n: nat)
    returns (m: nat)
    requires Inv(f, xs, s) && Fair(f, s, schedule)
    ensures n <= m && (At(f, s, schedule, m).caller.Returned? || !CanStill(At(f, s, schedule, m)))
    decreases Measure(At(f, s, schedule, n))
  {
    hide Inv, Measure, Step, CanStill, Fair;
    var now := At(f, s, schedule, n);
    AtKeeps(f, xs, s, schedule, n);
    m := n;
    if !now.caller.Returned? && CanStill(now) {
      var a := CanGoOn(f, xs, now);
      var k := NextChange(f, xs, s, schedule, n, a);
      AtKeeps(f, xs, s, schedule, k);
      WorkLeft(f, xs, At(f, s, schedule, k));
      m := ReturnsFrom(f, xs, s, schedule, k);
    }
  }

  // What is stranded stays stranded.
  lemma {:induction false} StrandedFrom<T>(f: T -> T, xs: seq<T>, s: State<T>, schedule: Schedule, n: nat, m: nat)
    requires Inv(f, xs, s) && !CanStill(At(f, s, schedule, n))
    ensures n <= m ==> !CanStill(At(f, s, schedule, m)) && !At(f, s, schedule, m).caller.Returned?
    ensures m <= n ==> !At(f, s, schedule, m).caller.Returned?
    decreases m
  {
    hide Inv, Step, CanStill;
    if m > n {
      StrandedFrom(f, xs, s, schedule, n, m - 1);
      AtKeeps(f, xs, s, schedule, m - 1);
      StrandedStays(f, xs, At(f, s, schedule, m - 1), schedule(m - 1));
      AtKeeps(f, xs, s, schedule, m);
      StrandedStays(f, xs, At(f, s, schedule, m), CallerStep(0));
    } else {
      ReturnedStays(f, xs, s, schedule, m, n);
    }
  }

  lemma {:induction false} ReturnedStays<T>(f: T -> T, xs: seq<T>, s: State<T>, schedule: Schedule, m: nat, n: nat)
    requires Inv(f, xs, s) && m <= n
    ensures At(f, s, schedule, m).caller.Returned? ==> CanStill(At(f, s, schedule, n))
    decreases n
  {
    hide Inv, Step;
    if At(f, s, schedule, m).caller.Returned? {
      AtReturned(f, s, schedule, m, n);
      AtKeeps(f, xs, s, schedule, n);
      ReturnedCan(f, xs, At(f, s, schedule, n));
    }
  }

  lemma {:induction false} AtReturned<T>(f: T -> T, s: State<T>, schedule: Schedule, m: nat, n: nat)
    requires m <= n && At(f, s, schedule, m).caller.Returned?
    ensures At(f, s, schedule, n).caller.Returned?
    decreases n
  {
    hide Step, At;
    if m < n {
      AtReturned(f, s, schedule, m, n - 1);
      AtNext(f, s, schedule, n - 1);
      StepReturned(f, At(f, s, schedule, n - 1), schedule(n - 1));
    }
  }

  lemma StepReturned<T>(f: T -> T, s: State<T>, a: Action)
    requires s.caller.Returned?
    ensures Step(f, s, a).caller.Returned?
  {
    hide Chunks;
  }

  lemma ReturnedCan<T>(f: T -> T, xs: seq<T>, s: State<T>)
    requires Inv(f, xs, s) && s.caller.Returned?
    ensures CanStill(s)
  {
    assert AllEnded(s);
  }

  // Under every fair infinite schedule the call returns, if and only if it is at no moment stranded.
  lemma FairReturn<T>(f: T -> T, xs: seq<T>, pool: nat, polls: bool, schedule: Schedule)
    requires Fair(f, Init(xs, pool, polls), schedule)
    ensures (exists n: nat :: At(f, Init(xs, pool, polls), schedule, n).caller.Returned?) <==>
            (forall n: nat :: CanStill(At(f, Init(xs, pool, polls), schedule, n)))
  {
    var s := Init(xs, pool, polls);
    InitOk(f, xs, pool, polls);
    var m := ReturnsFrom(f, xs, s, schedule, 0);
    hide CanStill, Fair;
    if n: nat :| !CanStill(At(f, s, schedule, n)) {
      forall k: nat ensures !At(f, s, schedule, k).caller.Returned? { StrandedFrom(f, xs, s, schedule, n, k); }
    }
  }

  // On the controlled pool, whose workers do not sleep, it returns if and only if there is nothing to
  // submit or the pool has a worker.
  lemma PollingReturn<T>(f: T -> T, xs: seq<T>, pool: nat, schedule: Schedule)
    requires Fair(f, Init(xs, pool, true), schedule)
    ensures (exists n: nat :: At(f, Init(xs, pool, true), schedule, n).caller.Returned?) <==>
            (Chunks(|xs|) == 0 || pool > 0)
  {
    var s := Init(xs, pool, true);
    InitOk(f, xs, pool, true);
    FairReturn(f, xs, pool, true, schedule);
    forall n: nat ensures CanStill(At(f, s, schedule, n)) <==> (Chunks(|xs|) == 0 || pool > 0) {
      PollingCan(f, xs, s, schedule, n);
    }
  }

  lemma {:induction false} PollingCan<T>(f: T -> T, xs: seq<T>, s: State<T>, schedule: Schedule, n: nat)
    requires Inv(f, xs, s) && Attended(s) && s.polls
    ensures CanStill(At(f, s, schedule, n)) <==> (Chunks(|xs|) == 0 || s.workers != [])
  {
    var now := At(f, s, schedule, n);
    AtKeeps(f, xs, s, schedule, n);
    hide Chunks;
    if s.workers != [] {
      assert Up(now, 0);
    } else if Chunks(|xs|) > 0 {
      NoWorkerBlocks(f, xs, now, CallerStep(0));
    }
  }

  // On the default pool too, when no notify falls between a worker's test and its sleep.
  lemma PunctualReturn<T>(f: T -> T, xs: seq<T>, pool: nat, schedule: Schedule)
    requires Fair(f, Init(xs, pool, false), schedule)
    requires forall n: nat :: Punctual(At(f, Init(xs, pool, false), schedule, n), schedule(n))
    ensures (exists n: nat :: At(f, Init(xs, pool, false), schedule, n).caller.Returned?) <==>
            (Chunks(|xs|) == 0 || pool > 0)
  {
    var s := Init(xs, pool, false);
    InitOk(f, xs, pool, false);
    FairReturn(f, xs, pool, false, schedule);
    hide Fair, Punctual;
    forall n: nat ensures CanStill(At(f, s, schedule, n)) <==> (Chunks(|xs|) == 0 || pool > 0) {
      PunctualCan(f, xs, s, schedule, n);
    }
  }

  lemma PunctualCan<T>(f: T -> T, xs: seq<T>, s: State<T>, schedule: Schedule, n: nat)
    requires Inv(f, xs, s) && Attended(s)
    requires forall m: nat :: Punctual(At(f, s, schedule, m), schedule(m))
    ensures CanStill(At(f, s, schedule, n)) <==> (Chunks(|xs|) == 0 || s.workers != [])
  {
    hide Inv, Attended, Punctual, CanStill, Step, Chunks;
    AtKeeps(f, xs, s, schedule, n);
    var now := At(f, s, schedule, n);
    if s.workers != [] {
      AttendedAt(f, xs, s, schedule, n);
      AttendedCan(f, xs, now);
    } else if Chunks(|xs|) > 0 {
      NoWorkerBlocks(f, xs, now, CallerStep(0));
    } else {
      NothingToDo(f, xs, now);
    }
  }

  lemma NothingToDo<T>(f: T -> T, xs: seq<T>, s: State<T>)
    requires Inv(f, xs, s) && Chunks(|xs|) == 0
    ensures CanStill(s)
  {
    hide Chunks;
    assert AllEnded(s);
  }

  lemma {:induction false} AttendedAt<T>(f: T -> T, xs: seq<T>, s: State<T>, schedule: Schedule, n: nat)
    requires Inv(f, xs, s) && Attended(s) && s.workers != []
    requires forall m: nat :: Punctual(At(f, s, schedule, m), schedule(m))
    ensures Attended(At(f, s, schedule, n))
  {
    hide Inv, Attended, Punctual, Step, At;
    if n == 0 {
      AtStart(f, s, schedule);
    } else {
      AttendedAt(f, xs, s, schedule, n - 1);
      AtKeeps(f, xs, s, schedule, n - 1);
      AtNext(f, s, schedule, n - 1);
      AttendedStays(f, xs, At(f, s, schedule, n - 1), schedule(n - 1));
    }
  }

  // --- There are fair schedules ---

  // The caller has seat 0, worker w seat w + 1; a notify wakes any sleeper.
  function NextAction<T>(s: State<T>, seat: nat): Action {
    if seat > 0 then WorkerStep(seat - 1) else CallerStep(FirstAsleep(s.workers))
  }

  function FirstAsleep(workers: seq<Worker>): (w: nat)
    ensures SomeAsleep(workers) ==> w < |workers| && workers[w].Asleep?
  {
    if workers == [] || workers[0].Asleep? then 0 else 1 + FirstAsleep(workers[1..])
  }

  function TurnsState<T>(f: T -> T, s: State<T>, n: nat): State<T> {
    if n == 0 then s
    else Step(f, TurnsState(f, s, n - 1), NextAction(TurnsState(f, s, n - 1), Seat(|s.workers| + 1, n - 1)))
  }

  function Turns<T>(f: T -> T, s: State<T>): Schedule {
    (n: nat) => NextAction(TurnsState(f, s, n), Seat(|s.workers| + 1, n))
  }

  lemma {:induction false} TurnsAt<T>(f: T -> T, s: State<T>, n: nat)
    ensures At(f, s, Turns(f, s), n) == TurnsState(f, s, n)
  {
    hide Step, NextAction, Seat;
    if n > 0 { TurnsAt(f, s, n - 1); }
  }

  // Every range and every pool have a fair schedule.
  lemma FairScheduleExists<T>(f: T -> T, xs: seq<T>, pool: nat, polls: bool) returns (schedule: Schedule)
    ensures Fair(f, Init(xs, pool, polls), schedule)
  {
    var s := Init(xs, pool, polls);
    schedule := Turns(f, s);
    hide Step, At, TurnsState;
    forall n: nat ensures CallerSoon(schedule, n) {
      var m := SeatComes(|s.workers| + 1, 0, n);
      assert schedule(m).CallerStep?;
    }
    forall n: nat, w: Tid | w < |s.workers| ensures WorkerSoon(schedule, w, n) {
      var m := SeatComes(|s.workers| + 1, w + 1, n);
      assert schedule(m) == WorkerStep(w);
    }
    forall n: nat ensures Wakes(At(f, s, schedule, n), schedule(n)) { TurnsAt(f, s, n); }
  }
}
