/**
 parallel_for_each as the source writes it: the loop that cuts the chunks, the
 worker that waits for a task, takes it and walks it, and the caller that gets one
 future after another, over one array changed in place. The pool's workers run a
 burst of steps between any two steps; when the bursts are used up, they go on as
 long as one of them can.
 */
module ForEachObject {
  import opened Prelude
  import opened ForEach
  import opened ForEachRuns

  class ForEachCall<T> {
    const f: T -> T
    const cells: array<T>
    var caller: Caller
    var tasks: seq<Task<T>>
    var next: nat
    var workers: seq<Worker>
    var lock: Option<Tid>
    const polls: bool
    // history
    var applied: seq<nat>
    // the workers that take the next steps, burst by burst
    var env: seq<seq<Tid>>
    // history: the size of the pool, and every state so far, the present one last
    ghost const pool: nat
    ghost var past: seq<State<T>>

    function View(): State<T>
      reads this, cells
    {
      State(cells[..], caller, tasks, next, workers, lock, polls, applied, false)
    }

    ghost predicate Valid(xs: seq<T>)
      reads this, cells
    {
      Inv(f, xs, View()) && IsRun(f, past, xs, pool, polls) && past != [] && past[|past| - 1] == View()
    }

    constructor (f: T -> T, cells: array<T>, pool: nat, polls: bool, env: seq<seq<Tid>>)
      ensures Valid(cells[..]) && View() == Init(cells[..], pool, polls)
      ensures this.f == f && this.cells == cells && this.env == env && this.pool == pool
    {
      this.f, this.cells, this.polls, this.env := f, cells, polls, env;
      caller := if cells.Length == 0 then Returned else Submitting(0, 0);
      tasks, next, lock, applied := [], 0, None, [];
      workers := seq(pool, _ => Awake);
      this.pool, past := pool, [Init(cells[..], pool, polls)];
      new;
      InitOk(f, cells[..], pool, polls);
    }

    // The step a has just led from the last recorded state to the present one.
    ghost method Record(a: Action, xs: seq<T>)
      requires IsRun(f, past, xs, pool, polls) && past != [] && Step(f, past[|past| - 1], a) == View()
      modifies this`past
      ensures past == old(past) + [View()] && IsRun(f, past, xs, pool, polls)
    {
      hide Step, Init;
      assert StepTo(f, past[|past| - 1], View());
      ghost var was := past;
      past := past + [View()];
      forall i | 0 <= i < |past| - 1 ensures StepAt(f, past, i) {
        if i < |was| - 1 { assert StepAt(f, was, i); }
      }
    }

    // ----- The workers -----

    // The worker tests the queue; it takes the task at its front, or goes on towards its sleep.
    method Test(w: Tid, ghost xs: seq<T>)
      requires Valid(xs) && w < |workers| && workers[w].Awake?
      modifies this`past, this`tasks, this`next, this`workers, this`lock
      ensures Valid(xs) && old(past) <= past && View() == TestQueue(old(View()), w)
    {
      WorkerKeeps(f, xs, View(), w);
      hide IsRun, Inv;
      if lock.None? {
        if next < |tasks| {
          tasks := tasks[next := tasks[next].(place := Running(w))];
          workers := workers[w := Busy(next)];
          next := next + 1;
        } else if !polls {
          workers := workers[w := Tested];
          lock := Some(w);
        }
      }
      Record(WorkerStep(w), xs);
    }

    // condi.wait gives the head mutex up and sleeps.
    method FallAsleep(w: Tid, ghost xs: seq<T>)
      requires Valid(xs) && w < |workers| && workers[w].Tested?
      modifies this`past, this`workers, this`lock
      ensures Valid(xs) && old(past) <= past && View() == Sleep(old(View()), w)
    {
      WorkerKeeps(f, xs, View(), w);
      hide IsRun, Inv;
      workers := workers[w := Asleep];
      lock := None;
      Record(WorkerStep(w), xs);
    }

    // The task returns true, and its future is ready.
    method EndTask(w: Tid, k: nat, ghost xs: seq<T>)
      requires Valid(xs) && w < |workers| && workers[w] == Busy(k) && k < |tasks| && tasks[k].Walked()
      modifies this`past, this`tasks, this`workers
      ensures Valid(xs) && old(past) <= past && View() == End(old(View()), w, k)
    {
      EndKeeps(f, xs, View(), w, k);
      hide IsRun, Inv;
      tasks := tasks[k := tasks[k].(place := Ended)];
      workers := workers[w := Awake];
      Record(WorkerStep(w), xs);
    }

    // One step of the walk: enter the function with *chunk_first, or store its result and advance.
    method TaskOnce(w: Tid, k: nat, ghost xs: seq<T>)
      requires Valid(xs) && w < |workers| && workers[w] == Busy(k)
      requires k < |tasks| && tasks[k].place.Running? && !tasks[k].Walked()
      modifies this`past, this`tasks, this`applied, cells
      ensures Valid(xs) && old(past) <= past && View() == TaskMoves(f, old(View()), k)
    {
      TaskKeeps(f, xs, View(), k);
      AtOwnElement(f, xs, View(), k);
      hide IsRun, Inv;
      var task := tasks[k];
      match task.held {
        case None =>
          tasks := tasks[k := task.(held := Some(f(cells[task.cursor])))];
        case Some(v) =>
          cells[task.cursor] := v;
          applied := applied + [task.cursor];
          tasks := tasks[k := task.(cursor := task.cursor + 1, held := None)];
      }
      Record(WorkerStep(w), xs);
    }

    // The loop of the task, from wherever its worker stands in it.
    method RunTask(w: Tid, k: nat, ghost xs: seq<T>)
      requires Valid(xs) && w < |workers| && workers[w] == Busy(k)
      modifies this`past, this`tasks, this`applied, cells
      ensures Valid(xs) && old(past) <= past
      ensures |tasks| == |old(tasks)| && workers == old(workers) && k < |tasks| && tasks[k].Walked()
      ensures Measure(View()) <= old(Measure(View()))
    {
      TaskFacts(f, xs, View(), w, k);
      hide IsRun, Inv, Measure;
      while !tasks[k].Walked()
        invariant Valid(xs) && old(past) <= past && |tasks| == |old(tasks)| && tasks[k].cursor <= tasks[k].last
        invariant tasks[k].place.Running? && Measure(View()) <= old(Measure(View()))
        decreases tasks[k].last - tasks[k].cursor, tasks[k].held.None?
      {
        ghost var before := View();
        TaskOnce(w, k, xs);
        WorkerEffect(f, xs, before, w);
        TaskFacts(f, xs, View(), w, k);
      }
    }

    // Whatever worker w does next.
    method WorkerOnce(w: Tid, ghost xs: seq<T>)
      requires Valid(xs) && w < |workers|
      modifies this`past, this`tasks, this`next, this`workers, this`lock, this`applied, cells
      ensures Valid(xs) && old(past) <= past && View() == WorkerMoves(f, old(View()), w)
    {
      if workers[w].Busy? { TaskFacts(f, xs, View(), w, workers[w].k); }
      hide IsRun, Inv;
      match workers[w]
      case Awake => Test(w, xs);
      case Tested => FallAsleep(w, xs);
      case Asleep =>
      case Busy(k) => if tasks[k].Walked() { EndTask(w, k, xs); } else { TaskOnce(w, k, xs); }
    }

    // The workers run for one burst.
    method Interfere(ghost xs: seq<T>)
      requires Valid(xs)
      modifies this`past, this`tasks, this`next, this`workers, this`lock, this`applied, this`env, cells
      ensures Valid(xs) && old(past) <= past && |tasks| == |old(tasks)| && |workers| == |old(workers)|
      ensures Measure(View()) <= old(Measure(View()))
      ensures if old(env) == [] then env == [] && View() == old(View()) else |env| < |old(env)|
    {
      hide IsRun, Inv, Measure;
      if env != [] {
        var burst := env[0];
        env := env[1..];
        for i := 0 to |burst|
          invariant Valid(xs) && old(past) <= past && |tasks| == |old(tasks)| && env == old(env)[1..]
          invariant |workers| == |old(workers)| && Measure(View()) <= old(Measure(View()))
        {
          if burst[i] < |workers| {
            ghost var before := View();
            WorkerOnce(burst[i], xs);
            WorkerEffect(f, xs, before, burst[i]);
          }
        }
      }
    }

    // A worker that can take the waiting caller further: one that runs a task, the owner of the head
    // mutex if somebody waits for that, or one that can take a task.
    method FindWorker(ghost xs: seq<T>) returns (w: Option<Tid>)
      requires Valid(xs) && caller.Waiting? && caller.i < |tasks| && !tasks[caller.i].place.Ended?
      ensures w.Some? ==> w.value < |workers| && WorkerMoves(f, View(), w.value) != View()
      ensures w.None? <==> !CanStill(View())
    {
      var awake: Option<Tid> := None;
      for u := 0 to |workers|
        invariant forall v :: 0 <= v < u && Up(View(), v) ==> workers[v].Awake? && awake.Some?
        invariant awake.Some? ==> awake.value < |workers| && workers[awake.value].Awake?
      {
        if workers[u].Busy? {
          BusyGoesOn(f, xs, View(), u);
          assert Up(View(), u);
          return Some(u);
        }
        if workers[u].Awake? { awake := Some(u); }
      }
      if awake.Some? {
        assert Up(View(), awake.value);
        w := if lock.Some? then lock else awake;
        NoneBusy(f, xs, View());
        AwakeGoesOn(f, xs, View(), awake.value);
      } else {
        w := None;
        assert forall v :: !Up(View(), v);
        assert !AllEnded(View());
      }
    }

    // A worker that can go on does: it runs its task to the end, or takes its next step.
    method PoolGoesOn(w: Tid, ghost xs: seq<T>)
      requires Valid(xs) && w < |workers| && WorkerMoves(f, View(), w) != View()
      modifies this`past, this`tasks, this`next, this`workers, this`lock, this`applied, cells
      ensures Valid(xs) && old(past) <= past && |tasks| == |old(tasks)| && |workers| == |old(workers)|
      ensures 0 <= Measure(View()) < old(Measure(View()))
    {
      hide IsRun, Inv, Measure;
      ghost var before := View();
      if workers[w].Busy? {
        var k := workers[w].k;
        RunTask(w, k, xs);
        before := View();
        EndTask(w, k, xs);
        assert View().workers[w] != before.workers[w];
      } else {
        WorkerOnce(w, xs);
      }
      WorkerEffect(f, xs, before, w);
      WorkLeft(f, xs, View());
    }

    // ----- The caller -----

    // One round of the loop that makes the chunks, up to the push.
    method PushChunk(i: nat, chunkFirst: nat, chunks: nat, ghost xs: seq<T>) returns (chunkLast: nat)
      requires Valid(xs) && caller == Submitting(i, chunkFirst) && i < chunks == Chunks(cells.Length)
      modifies this`past, this`tasks, this`caller
      ensures Valid(xs) && old(past) <= past && View() == MakeChunk(old(View()), i, chunkFirst)
      ensures caller == Notifying(i + 1, chunkLast) && chunkFirst < chunkLast <= cells.Length
    {
      MakeChunkKeeps(f, xs, View(), i, chunkFirst);
      ChunkFits(|xs|, i);
      hide IsRun, Inv, Chunks;
      chunkLast := chunkFirst;
      if i == chunks - 1 { chunkLast := cells.Length; } else { chunkLast := chunkLast + MIN_ELEMENTS; }
      tasks := tasks + [Task(chunkFirst, chunkLast, None, Queued)];
      caller := Notifying(i + 1, chunkLast);
      Record(CallerStep(0), xs);
    }

    // notify_one: some sleeper wakes, if there is one.
    method NotifyOne(i: nat, chunkFirst: nat, ghost xs: seq<T>)
      requires Valid(xs) && caller == Notifying(i, chunkFirst)
      modifies this`past, this`workers, this`caller
      ensures Valid(xs) && old(past) <= past && caller == Submitting(i, chunkFirst) && |workers| == |old(workers)|
      ensures exists wake :: View() == Notify(old(View()), i, chunkFirst, wake)
    {
      ghost var before := View();
      var wake: Tid := 0;
      if SomeAsleep(workers) {
        wake :| wake < |workers| && workers[wake].Asleep?;
        workers := workers[wake := Awake];
      }
      NotifyKeeps(f, xs, before, i, chunkFirst, wake);
      hide IsRun, Inv;
      caller := Submitting(i, chunkFirst);
      assert View() == Notify(before, i, chunkFirst, wake);
      Record(CallerStep(wake), xs);
    }

    // parallel_for_each. It blocks for ever exactly if it comes to a state in which no run leads to its
    // return: with no worker, or on the default pool when all of them sleep beside the queue. Otherwise the
    // array then holds the results if the length is covered, and is untouched if not. An element never
    // holds anything else than its first value or the function's result, the latter if and only if the
    // function has been applied, once.
    method ForEachElement() returns (stuck: bool)
      requires cells.Length < ULONG && Valid(cells[..]) && View() == Init(cells[..], |workers|, polls)
      modifies this`past, this`caller, this`tasks, this`next, this`workers, this`lock, this`applied, this`env, cells
      ensures stuck <==> !CanStill(View())
      ensures Chunks(cells.Length) > 0 && |old(workers)| == 0 ==> stuck
      ensures Chunks(cells.Length) == 0 || (polls && |old(workers)| > 0) ==> !stuck
      ensures !stuck ==> cells[..] == if Covered(cells.Length) then Mapped(f, old(cells[..])) else old(cells[..])
      ensures !stuck ==> (OnceEach(applied, cells.Length) <==> Covered(cells.Length))
      ensures forall j: nat :: j < cells.Length ==>
                Count(applied, j) <= 1 && cells[j] == if Count(applied, j) == 1 then f(old(cells[j])) else old(cells[j])
    {
      ghost var xs := cells[..];
      var length := cells.Length;
      stuck := false;
      if length > 0 {
        var chunks := Chunks(length);
        SubmitAll(chunks, xs);
        stuck := WaitAll(xs);
      }
      StuckFacts(f, xs, View());
      if !stuck {
        ReturnedInv(f, xs, View());
        ReturnedCan(f, xs, View());
        assert !Covered(|xs|) ==> Count(applied, 0) == 0;
      }
      forall j: nat | j < cells.Length
        ensures Count(applied, j) <= 1 && cells[j] == if Count(applied, j) == 1 then f(xs[j]) else xs[j]
      {
        assert CellOk(f, xs, View(), j);
      }
    }

    // The chunks, from front to back.
    method SubmitAll(chunks: nat, ghost xs: seq<T>)
      requires Valid(xs) && caller == Submitting(0, 0) && tasks == [] && chunks == Chunks(cells.Length)
      modifies this`past, this`caller, this`tasks, this`next, this`workers, this`lock, this`applied, this`env, cells
      ensures Valid(xs) && old(past) <= past
      ensures caller.Submitting? && caller.i == |tasks| == chunks && |workers| == |old(workers)|
    {
      hide IsRun, Inv;
      var chunkFirst := 0;
      for i := 0 to chunks
        invariant Valid(xs) && old(past) <= past
        invariant caller == Submitting(i, chunkFirst) && |tasks| == i && |workers| == |old(workers)|
      {
        Interfere(xs);
        chunkFirst := PushChunk(i, chunkFirst, chunks, xs);
        Interfere(xs);
        NotifyOne(i + 1, chunkFirst, xs);
      }
    }

    // f.get() on every future in turn.
    method WaitAll(ghost xs: seq<T>) returns (stuck: bool)
      requires Valid(xs) && caller.Submitting? && |tasks| == Chunks(cells.Length) == caller.i
      modifies this`past, this`caller, this`tasks, this`next, this`workers, this`lock, this`applied, this`env, cells
      ensures Valid(xs) && old(past) <= past && |workers| == |old(workers)|
      ensures if stuck then !CanStill(View()) else caller.Returned?
    {
      hide IsRun, Inv, CanStill, Chunks;
      MoveOn(Waiting(0), xs);
      var i := 0;
      while i < |tasks|
        invariant Valid(xs) && old(past) <= past
        invariant caller == Waiting(i) && i <= |tasks| == |old(tasks)| && |workers| == |old(workers)|
      {
        stuck := Get(i, xs);
        if stuck { return; }
        i := i + 1;
        MoveOn(Waiting(i), xs);
      }
      MoveOn(Returned, xs);
      stuck := false;
    }

    // The caller's next step, if it only goes on to its next place.
    method MoveOn(place: Caller, ghost xs: seq<T>)
      requires Valid(xs) && CallerMoves(View(), 0) == View().(caller := place)
      modifies this`past, this`caller
      ensures Valid(xs) && old(past) <= past && View() == old(View()).(caller := place)
    {
      hide IsRun, Inv, CallerMoves;
      StepKeeps(f, xs, View(), CallerStep(0));
      caller := place;
      Record(CallerStep(0), xs);
    }

    // _f.get(): the caller blocks until the task has ended; it never helps.
    method Get(i: nat, ghost xs: seq<T>) returns (stuck: bool)
      requires Valid(xs) && caller == Waiting(i) && i < |tasks|
      modifies this`past, this`tasks, this`next, this`workers, this`lock, this`applied, this`env, cells
      ensures Valid(xs) && old(past) <= past && |tasks| == |old(tasks)| && |workers| == |old(workers)|
      ensures if stuck then !CanStill(View()) else tasks[i].place.Ended?
    {
      hide IsRun, Inv, Measure, CanStill;
      WorkLeft(f, xs, View());
      while !tasks[i].place.Ended?
        invariant Valid(xs) && old(past) <= past
        invariant |tasks| == |old(tasks)| && |workers| == |old(workers)| && Measure(View()) >= 0
        decreases Measure(View()), |env|
      {
        if env != [] {
          Interfere(xs);
          WorkLeft(f, xs, View());
        } else {
          var w := FindWorker(xs);
          if w.None? { return true; }
          PoolGoesOn(w.value, xs);
        }
      }
      stuck := false;
    }
  }

  // A worker's step keeps the pool and lowers the measure, if it changes anything.
  lemma WorkerEffect<T>(f: T -> T, xs: seq<T>, s: State<T>, w: Tid)
    requires Inv(f, xs, s) && w < |s.workers|
    ensures var s' := WorkerMoves(f, s, w);
            && |s'.tasks| == |s.tasks| && |s'.workers| == |s.workers| && s'.caller == s.caller
            && (if s' == s then Measure(s') == Measure(s) else Measure(s') < Measure(s))
  {
    StepKeeps(f, xs, s, WorkerStep(w));
    if WorkerMoves(f, s, w) != s { WorkerWork(f, xs, s, w); }
    hide Inv, Measure;
  }

  lemma TaskFacts<T>(f: T -> T, xs: seq<T>, s: State<T>, w: Tid, k: nat)
    requires Inv(f, xs, s) && w < |s.workers| && s.workers[w] == Busy(k)
    ensures k < |s.tasks| && s.tasks[k].place == Running(w) && s.tasks[k].cursor <= s.tasks[k].last
  {
    assert k < |s.tasks| && TaskOk(f, xs, s, k);
  }

  // If nobody runs a task, a task that has not ended is queued.
  lemma NoneBusy<T>(f: T -> T, xs: seq<T>, s: State<T>)
    requires Inv(f, xs, s) && s.caller.Waiting? && s.caller.i < |s.tasks| && !s.tasks[s.caller.i].place.Ended?
    requires forall w :: 0 <= w < |s.workers| ==> !s.workers[w].Busy?
    ensures s.next < |s.tasks| && !AllEnded(s)
  {
    hide Chunks, CellOk, TaskOk;
  }

  // Without workers a call with chunks cannot go on to return, with polling ones it always can.
  lemma StuckFacts<T>(f: T -> T, xs: seq<T>, s: State<T>)
    requires Inv(f, xs, s)
    ensures Chunks(|xs|) > 0 && s.workers == [] ==> !CanStill(s)
    ensures Chunks(|xs|) == 0 || (s.polls && s.workers != []) ==> CanStill(s)
  {
    hide Chunks, CellOk, TaskOk;
    if Chunks(|xs|) > 0 && s.workers == [] { NoWorkerBlocks(f, xs, s, CallerStep(0)); }
    if s.polls && s.workers != [] { assert Up(s, 0); }
  }
}
