/**
 The controlled pool: one main queue, one local queue per worker, and a scan that
 takes from the other workers' queues. Threads 0 .. |locals| - 1 are the workers;
 the others are outside threads, which have no local queue and scan as index 0.
 A task may submit tasks and may run other tasks on top of itself. One operation
 on one queue, made under that queue's mutex, is one step.
 */
module CtrPool {
  import opened Prelude

  type Task = nat

  datatype Pc =
    | Idle                 // inside the running task, or between tasks
    | TryLocal             // try_executing_one: about to try the local queue
    | TryMain              // about to try the main queue
    | Scan(off: nat)       // about to probe the queue at this offset, or to give up behind the last one
    | Holding(task: Task)  // has taken a task, about to run it

  // The tasks the thread is running, the innermost on top (last).
  datatype Thread = Thread(pc: Pc, stack: seq<Task>)

  datatype State = State(
    main: seq<Task>,         // front first; submit appends
    locals: seq<seq<Task>>,  // front first; submit puts in front
    threads: seq<Thread>,
    finished: seq<Task>,
    submitted: nat,          // tasks are numbered in the order of their submission
    started: seq<Task>)      // history: tasks in the order in which they began to run

  datatype Action = Submit(t: Tid) | Begin(t: Tid) | Go(t: Tid) | Finish(t: Tid)

  function Init(workers: nat, outside: nat): State {
    State([], seq(workers, _ => []), seq(workers + outside, _ => Thread(Idle, [])), [], 0, [])
  }

  // _M_idx: the worker's own number, and 0 outside the pool.
  function Index(s: State, t: Tid): nat {
    if t < |s.locals| then t else 0
  }

  // The queue a scan probes at an offset.
  function Probe(idx: nat, off: nat, count: nat): (q: nat)
    requires count > 0
    ensures q < count
  {
    (idx + off + 1) % count
  }

  function To(s: State, t: Tid, pc: Pc): State
    requires t < |s.threads|
  {
    s.(threads := s.threads[t := s.threads[t].(pc := pc)])
  }

  // A worker submits to the front of its own queue, an outside thread to the back of the main one.
  function SubmitTask(s: State, t: Tid): State {
    var task := s.submitted;
    if t < |s.locals| then s.(locals := s.locals[t := [task] + s.locals[t]], submitted := task + 1)
    else s.(main := s.main + [task], submitted := task + 1)
  }

  function TakeLocal(s: State, t: Tid, q: nat): State
    requires t < |s.threads| && q < |s.locals| && s.locals[q] != []
  {
    To(s.(locals := s.locals[q := s.locals[q][1..]]), t, Holding(s.locals[q][0]))
  }

  function TakeMain(s: State, t: Tid): State
    requires t < |s.threads| && s.main != []
  {
    To(s.(main := s.main[1..]), t, Holding(s.main[0]))
  }

  function Start(s: State, t: Tid, task: Task): State
    requires t < |s.threads|
  {
    s.(threads := s.threads[t := Thread(Idle, s.threads[t].stack + [task])], started := s.started + [task])
  }

  function FinishTask(s: State, t: Tid): State
    requires t < |s.threads| && s.threads[t].stack != []
  {
    var st := s.threads[t].stack;
    s.(threads := s.threads[t := s.threads[t].(stack := st[..|st| - 1])], finished := s.finished + [st[|st| - 1]])
  }

  // An action that its thread cannot take now changes nothing.
  function Step(s: State, a: Action): State {
    var t := a.t;
    if t >= |s.threads| then s
    else match a
      case Submit(_) => if s.threads[t].pc.Idle? then SubmitTask(s, t) else s
      case Begin(_) => if s.threads[t].pc.Idle? then To(s, t, TryLocal) else s
      case Finish(_) => if s.threads[t].pc.Idle? && s.threads[t].stack != [] then FinishTask(s, t) else s
      case Go(_) =>
        match s.threads[t].pc
        case Idle => s
        case TryLocal =>
          if t < |s.locals| && s.locals[t] != [] then TakeLocal(s, t, t) else To(s, t, TryMain)
        case TryMain => if s.main != [] then TakeMain(s, t) else To(s, t, Scan(0))
        case Scan(off) =>
          if off >= |s.locals| then To(s, t, Idle)
          else
            var q := Probe(Index(s, t), off, |s.locals|);
            if s.locals[q] != [] then TakeLocal(s, t, q) else To(s, t, Scan(off + 1))
        case Holding(task) => Start(s, t, task)
  }

  function Exec(s: State, run: seq<Action>): State
    decreases |run|
  {
    if run == [] then s else Exec(Step(s, run[0]), run[1..])
  }

  // ----- Conservation -----

  function Occurs(xs: seq<Task>, x: Task): nat {
    multiset(xs)[x]
  }

  // How often x occurs in several sequences together.
  function Times(parts: seq<seq<Task>>, x: Task): nat {
    if parts == [] then 0 else Times(parts[..|parts| - 1], x) + Occurs(parts[|parts| - 1], x)
  }

  // The task a thread has taken and not yet begun.
  function Hand(th: Thread): seq<Task> {
    if th.pc.Holding? then [th.pc.task] else []
  }

  function Hands(s: State): seq<seq<Task>> {
    seq(|s.threads|, i requires 0 <= i < |s.threads| => Hand(s.threads[i]))
  }

  function Stacks(s: State): seq<seq<Task>> {
    seq(|s.threads|, i requires 0 <= i < |s.threads| => s.threads[i].stack)
  }

  // Task x is in exactly one place if it has been submitted, and nowhere otherwise; it counts as
  // started while it runs and when it has finished.
  ghost predicate Placed(s: State, x: Task) {
    && Occurs(s.main, x) + Times(s.locals, x) + Times(Hands(s), x) + Times(Stacks(s), x) + Occurs(s.finished, x)
       == (if x < s.submitted then 1 else 0)
    && Occurs(s.started, x) == Times(Stacks(s), x) + Occurs(s.finished, x)
  }

  lemma OccursConcat(xs: seq<Task>, ys: seq<Task>, x: Task)
    ensures Occurs(xs + ys, x) == Occurs(xs, x) + Occurs(ys, x)
  {
  }

  lemma {:induction false} TimesUpdate(parts: seq<seq<Task>>, i: nat, part: seq<Task>, x: Task)
    requires i < |parts|
    ensures Times(parts[i := part], x) == Times(parts, x) - Occurs(parts[i], x) + Occurs(part, x)
    decreases |parts|
  {
    var n := |parts| - 1;
    if i < n {
      TimesUpdate(parts[..n], i, part, x);
      assert parts[i := part][..n] == parts[..n][i := part];
    } else {
      assert parts[i := part][..n] == parts[..n];
    }
  }

  lemma {:induction false} TimesEmpty(parts: seq<seq<Task>>, x: Task)
    requires forall i :: 0 <= i < |parts| ==> parts[i] == []
    ensures Times(parts, x) == 0
  {
    if parts != [] { TimesEmpty(parts[..|parts| - 1], x); }
  }

  lemma InitPlaced(workers: nat, outside: nat, x: Task)
    ensures Placed(Init(workers, outside), x)
  {
    var s := Init(workers, outside);
    TimesEmpty(s.locals, x);
    TimesEmpty(Hands(s), x);
    TimesEmpty(Stacks(s), x);
  }

  // What a change of one thread does to the counts.
  lemma ThreadMoves(s: State, s': State, t: Tid, x: Task)
    requires t < |s.threads| && |s'.threads| == |s.threads| && s'.threads == s.threads[t := s'.threads[t]]
    ensures Times(Hands(s'), x) == Times(Hands(s), x) - Occurs(Hand(s.threads[t]), x) + Occurs(Hand(s'.threads[t]), x)
    ensures Times(Stacks(s'), x) == Times(Stacks(s), x) - Occurs(s.threads[t].stack, x) + Occurs(s'.threads[t].stack, x)
  {
    assert Hands(s') == Hands(s)[t := Hand(s'.threads[t])];
    assert Stacks(s') == Stacks(s)[t := s'.threads[t].stack];
    TimesUpdate(Hands(s), t, Hand(s'.threads[t]), x);
    TimesUpdate(Stacks(s), t, s'.threads[t].stack, x);
  }

  lemma SubmitKeeps(s: State, t: Tid, x: Task)
    requires Placed(s, x)
    ensures Placed(SubmitTask(s, t), x)
  {
    var s' := SubmitTask(s, t);
    assert Hands(s') == Hands(s) && Stacks(s') == Stacks(s);
    if t < |s.locals| {
      OccursConcat([s.submitted], s.locals[t], x);
      TimesUpdate(s.locals, t, [s.submitted] + s.locals[t], x);
    } else {
      OccursConcat(s.main, [s.submitted], x);
    }
  }

  lemma EmptyHand(x: Task)
    ensures Occurs([], x) == 0
  {
  }

  lemma TakeLocalKeeps(s: State, t: Tid, q: nat, x: Task)
    requires Placed(s, x) && t < |s.threads| && q < |s.locals| && s.locals[q] != [] && !s.threads[t].pc.Holding?
    ensures Placed(TakeLocal(s, t, q), x)
  {
    hide Occurs, Times;
    EmptyHand(x);
    ThreadMoves(s, TakeLocal(s, t, q), t, x);
    TimesUpdate(s.locals, q, s.locals[q][1..], x);
    assert s.locals[q] == [s.locals[q][0]] + s.locals[q][1..];
    OccursConcat([s.locals[q][0]], s.locals[q][1..], x);
  }

  lemma TakeMainKeeps(s: State, t: Tid, x: Task)
    requires Placed(s, x) && t < |s.threads| && s.main != [] && !s.threads[t].pc.Holding?
    ensures Placed(TakeMain(s, t), x)
  {
    hide Occurs, Times;
    EmptyHand(x);
    ThreadMoves(s, TakeMain(s, t), t, x);
    assert s.main == [s.main[0]] + s.main[1..];
    OccursConcat([s.main[0]], s.main[1..], x);
  }

  lemma StartKeeps(s: State, t: Tid, task: Task, x: Task)
    requires Placed(s, x) && t < |s.threads| && s.threads[t].pc == Holding(task)
    ensures Placed(Start(s, t, task), x)
  {
    ThreadMoves(s, Start(s, t, task), t, x);
    OccursConcat(s.threads[t].stack, [task], x);
    OccursConcat(s.started, [task], x);
  }

  lemma FinishKeeps(s: State, t: Tid, x: Task)
    requires Placed(s, x) && t < |s.threads| && s.threads[t].pc.Idle? && s.threads[t].stack != []
    ensures Placed(FinishTask(s, t), x)
  {
    hide Occurs, Times;
    ThreadMoves(s, FinishTask(s, t), t, x);
    var st := s.threads[t].stack;
    assert st == st[..|st| - 1] + [st[|st| - 1]];
    OccursConcat(st[..|st| - 1], [st[|st| - 1]], x);
    OccursConcat(s.finished, [st[|st| - 1]], x);
  }

  // A thread moves on without a task in hand.
  lemma MoveKeeps(s: State, t: Tid, pc: Pc, x: Task)
    requires Placed(s, x) && t < |s.threads| && !s.threads[t].pc.Holding? && !pc.Holding?
    ensures Placed(To(s, t, pc), x)
  {
    ThreadMoves(s, To(s, t, pc), t, x);
  }

  lemma StepKeeps(s: State, a: Action, x: Task)
    requires Placed(s, x)
    ensures Placed(Step(s, a), x)
  {
    hide Placed;
    var t := a.t;
    if t < |s.threads| {
      match a
      case Submit(_) => if s.threads[t].pc.Idle? { SubmitKeeps(s, t, x); }
      case Begin(_) => if s.threads[t].pc.Idle? { MoveKeeps(s, t, TryLocal, x); }
      case Finish(_) => if s.threads[t].pc.Idle? && s.threads[t].stack != [] { FinishKeeps(s, t, x); }
      case Go(_) =>
        match s.threads[t].pc
        case Idle =>
        case TryLocal =>
          if t < |s.locals| && s.locals[t] != [] { TakeLocalKeeps(s, t, t, x); } else { MoveKeeps(s, t, TryMain, x); }
        case TryMain => if s.main != [] { TakeMainKeeps(s, t, x); } else { MoveKeeps(s, t, Scan(0), x); }
        case Scan(off) =>
          if off >= |s.locals| {
            MoveKeeps(s, t, Idle, x);
          } else {
            var q := Probe(Index(s, t), off, |s.locals|);
            if s.locals[q] != [] { TakeLocalKeeps(s, t, q, x); } else { MoveKeeps(s, t, Scan(off + 1), x); }
          }
        case Holding(task) => StartKeeps(s, t, task, x);
    }
  }

  lemma {:induction false} RunKeeps(s: State, run: seq<Action>, x: Task)
    requires Placed(s, x)
    ensures Placed(Exec(s, run), x)
    decreases |run|
  {
    if run != [] {
      StepKeeps(s, run[0], x);
      RunKeeps(Step(s, run[0]), run[1..], x);
    }
  }

  // In every run each submitted task is in exactly one place, once: the main queue, a local queue,
  // some thread's hand, some thread's stack, or finished; and it has started at most once.
  lemma TasksConserved(workers: nat, outside: nat, run: seq<Action>, x: Task)
    ensures var s := Exec(Init(workers, outside), run);
            && Occurs(s.main, x) + Times(s.locals, x) + Times(Hands(s), x) + Times(Stacks(s), x) + Occurs(s.finished, x)
               == (if x < s.submitted then 1 else 0)
            && Occurs(s.started, x) <= 1
            && (Occurs(s.started, x) == 1 <==> Times(Stacks(s), x) + Occurs(s.finished, x) == 1)
  {
    InitPlaced(workers, outside, x);
    RunKeeps(Init(workers, outside), run, x);
  }

  // ----- The scan -----

  // The offset at which a scan probes queue q.
  function OffsetOf(idx: nat, q: nat, count: nat): nat
    requires idx < count && q < count
  {
    if q > idx then q - idx - 1 else count + q - idx - 1
  }

  lemma QuotientIsOne(x: nat, n: nat)
    requires n <= x < 2 * n
    ensures x % n == x - n
  {
    var d, r := x / n, x % n;
    assert x == d * n + r;
    assert d >= 2 ==> d * n >= 2 * n;
    assert d <= 0 ==> d * n <= 0;
    assert d == 1 ==> d * n == n;
  }

  lemma QuotientIsZero(x: nat, n: nat)
    requires x < n
    ensures x % n == x
  {
  }

  lemma ProbeIs(idx: nat, off: nat, count: nat)
    requires idx < count && off < count
    ensures Probe(idx, off, count) == if idx + off + 1 < count then idx + off + 1 else idx + off + 1 - count
  {
    var x := idx + off + 1;
    if x >= count {
      QuotientIsOne(x, count);
    } else {
      QuotientIsZero(x, count);
    }
  }

  // Whatever the worker's index and the number of queues, a scan probes every queue exactly once,
  // its own last.
  lemma ProbesEachOnce(idx: nat, q: nat, count: nat)
    requires idx < count && q < count
    ensures OffsetOf(idx, q, count) < count && Probe(idx, OffsetOf(idx, q, count), count) == q
    ensures forall off: nat :: off < count && Probe(idx, off, count) == q ==> off == OffsetOf(idx, q, count)
    ensures Probe(idx, count - 1, count) == idx
  {
    hide Probe;
    ProbeIs(idx, OffsetOf(idx, q, count), count);
    ProbeIs(idx, count - 1, count);
    forall off: nat | off < count && Probe(idx, off, count) == q ensures off == OffsetOf(idx, q, count) {
      ProbeIs(idx, off, count);
    }
  }

  // Thread t's search has passed the main queue, or the queue it probes at offset o.
  predicate PassedMain(s: State, t: Tid) {
    t < |s.threads| && s.threads[t].pc.Scan?
  }

  predicate Passed(s: State, t: Tid, o: nat) {
    t < |s.threads| && s.threads[t].pc.Scan? && o < s.threads[t].pc.off
  }

  // Task x is in none of the queues that thread t's search has passed.
  ghost predicate Cleared(s: State, t: Tid, x: Task) {
    && x < s.submitted
    && (PassedMain(s, t) ==> x !in s.main)
    && forall o: nat :: Passed(s, t, o) && o < |s.locals| ==> x !in s.locals[Probe(Index(s, t), o, |s.locals|)]
  }

  // A queue gets only new tasks.
  lemma OldStaysOut(s: State, a: Action, x: Task)
    requires x < s.submitted
    ensures x < Step(s, a).submitted && |Step(s, a).locals| == |s.locals| && |Step(s, a).threads| == |s.threads|
    ensures x !in s.main ==> x !in Step(s, a).main
    ensures forall q :: 0 <= q < |s.locals| && x !in s.locals[q] ==> x !in Step(s, a).locals[q]
  {
  }

  lemma ClearedStays(s: State, a: Action, t: Tid, x: Task)
    requires Cleared(s, t, x)
    ensures Cleared(Step(s, a), t, x)
  {
    OldStaysOut(s, a, x);
    var e := Step(s, a);
    Searching(s, a, t);
    hide Step, Probe;
    forall o: nat | Passed(e, t, o) && o < |e.locals| ensures x !in e.locals[Probe(Index(e, t), o, |e.locals|)] {
      var q := Probe(Index(s, t), o, |s.locals|);
      assert Passed(s, t, o) ==> x !in s.locals[q];
    }
  }

  // A search passes only queues that are empty at that moment.
  lemma Searching(s: State, a: Action, t: Tid)
    ensures PassedMain(Step(s, a), t) && !PassedMain(s, t) ==> Step(s, a).main == []
    ensures forall o: nat :: Passed(Step(s, a), t, o) && !Passed(s, t, o) ==>
              o < |s.locals| == |Step(s, a).locals| && Step(s, a).locals[Probe(Index(s, t), o, |s.locals|)] == []
  {
    hide Probe;
  }

  lemma {:induction false} RunClears(s: State, run: seq<Action>, t: Tid, x: Task)
    requires Cleared(s, t, x)
    ensures Cleared(Exec(s, run), t, x) && |Exec(s, run).locals| == |s.locals|
    decreases |run|
  {
    if run != [] {
      ClearedStays(s, run[0], t, x);
      OldStaysOut(s, run[0], x);
      RunClears(Step(s, run[0]), run[1..], t, x);
    }
  }

  lemma {:induction false} TimesAbsent(parts: seq<seq<Task>>, x: Task)
    requires forall i :: 0 <= i < |parts| ==> x !in parts[i]
    ensures Times(parts, x) == 0
  {
    if parts != [] { TimesAbsent(parts[..|parts| - 1], x); }
  }

  // A search that has failed leaves no queue with a task submitted before it began.
  lemma AllCleared(s: State, t: Tid, x: Task)
    requires Cleared(s, t, x) && t < |s.threads| && s.threads[t].pc == Scan(|s.locals|)
    ensures x !in s.main && forall q :: 0 <= q < |s.locals| ==> x !in s.locals[q]
  {
    hide Probe;
    forall q: nat | q < |s.locals| ensures x !in s.locals[q] {
      ProbesEachOnce(Index(s, t), q, |s.locals|);
      assert Passed(s, t, OffsetOf(Index(s, t), q, |s.locals|));
    }
  }

  // When a search for a task fails, whatever the other threads did meanwhile, every task submitted
  // before the search began has been taken from its queue: some thread holds it, runs it, or has
  // finished it.
  lemma FailedSearch(workers: nat, outside: nat, before: seq<Action>, during: seq<Action>, t: Tid, x: Task)
    requires var s := Exec(Init(workers, outside), before);
             t < |s.threads| && s.threads[t].pc.TryLocal? && x < s.submitted
    requires var e := Exec(Exec(Init(workers, outside), before), during);
             t < |e.threads| && e.threads[t].pc == Scan(|e.locals|)
    ensures var e := Exec(Exec(Init(workers, outside), before), during);
            && x !in e.main && (forall q :: 0 <= q < |e.locals| ==> x !in e.locals[q])
            && Times(Hands(e), x) + Times(Stacks(e), x) + Occurs(e.finished, x) == 1
  {
    InitPlaced(workers, outside, x);
    var s := Exec(Init(workers, outside), before);
    RunKeeps(Init(workers, outside), before, x);
    RunKeeps(s, during, x);
    RunClears(s, during, t, x);
    var e := Exec(s, during);
    assert Placed(e, x) && x < e.submitted;
    AllCleared(e, t, x);
    TimesAbsent(e.locals, x);
  }

  // ----- Order -----

  predicate Ascends(tasks: seq<Task>) {
    forall i, j :: 0 <= i < j < |tasks| ==> tasks[i] < tasks[j]
  }

  predicate Descends(tasks: seq<Task>) {
    forall i, j :: 0 <= i < j < |tasks| ==> tasks[i] > tasks[j]
  }

  // The main queue has the oldest task in front, a local queue the newest.
  predicate Ordered(s: State) {
    && Ascends(s.main) && (forall i :: 0 <= i < |s.main| ==> s.main[i] < s.submitted)
    && forall q :: 0 <= q < |s.locals| ==>
         Descends(s.locals[q]) && forall i :: 0 <= i < |s.locals[q]| ==> s.locals[q][i] < s.submitted
  }

  lemma OrderKeeps(s: State, a: Action)
    requires Ordered(s)
    ensures Ordered(Step(s, a))
  {
    hide Ordered, Probe;
    var t := a.t;
    if t < |s.threads| {
      match a
      case Submit(_) => SubmitOrdered(s, t);
      case Begin(_) => SameOrder(s, Step(s, a));
      case Finish(_) => SameOrder(s, Step(s, a));
      case Go(_) =>
        match s.threads[t].pc
        case TryLocal =>
          if t < |s.locals| && s.locals[t] != [] { TakeOrdered(s, t, t); } else { SameOrder(s, Step(s, a)); }
        case TryMain => if s.main != [] { TakeMainOrdered(s, t); } else { SameOrder(s, Step(s, a)); }
        case Scan(off) =>
          if off < |s.locals| && Source(s, t) != [] { TakeOrdered(s, t, Probe(Index(s, t), off, |s.locals|)); }
          else { SameOrder(s, Step(s, a)); }
        case _ => SameOrder(s, Step(s, a));
    }
  }

  lemma SameOrder(s: State, s': State)
    requires Ordered(s) && s'.main == s.main && s'.locals == s.locals && s'.submitted == s.submitted
    ensures Ordered(s')
  {
  }

  lemma SubmitOrdered(s: State, t: Tid)
    requires Ordered(s)
    ensures Ordered(SubmitTask(s, t))
  {
  }

  lemma TakeOrdered(s: State, t: Tid, q: nat)
    requires Ordered(s) && t < |s.threads| && q < |s.locals| && s.locals[q] != []
    ensures Ordered(TakeLocal(s, t, q))
  {
  }

  lemma TakeMainOrdered(s: State, t: Tid)
    requires Ordered(s) && t < |s.threads| && s.main != []
    ensures Ordered(TakeMain(s, t))
  {
  }

  lemma {:induction false} RunOrdered(s: State, run: seq<Action>)
    requires Ordered(s)
    ensures Ordered(Exec(s, run))
    decreases |run|
  {
    hide Ordered;
    if run != [] {
      OrderKeeps(s, run[0]);
      RunOrdered(Step(s, run[0]), run[1..]);
    }
  }

  // The source thread t looks at next: its own queue, the main one, or the queue it probes.
  function Source(s: State, t: Tid): seq<Task>
    requires t < |s.threads|
  {
    match s.threads[t].pc
    case TryLocal => if t < |s.locals| then s.locals[t] else []
    case TryMain => s.main
    case Scan(off) => if off < |s.locals| then s.locals[Probe(Index(s, t), off, |s.locals|)] else []
    case _ => []
  }

  // In every run a search takes the front of the first of its sources that has a task; of the main
  // queue that is the oldest task, of a worker's queue the newest.
  lemma TakesInOrder(workers: nat, outside: nat, run: seq<Action>, t: Tid, x: Task)
    requires var s := Exec(Init(workers, outside), run);
             t < |s.threads| && Source(s, t) != [] && x in Source(s, t)
    ensures var s := Exec(Init(workers, outside), run);
            var e := Step(s, Go(t));
            && t < |e.threads| && e.threads[t].pc.Holding? && e.threads[t].pc.task in Source(s, t)
            && (s.threads[t].pc.TryMain? ==> e.threads[t].pc.task <= x)
            && (!s.threads[t].pc.TryMain? ==> e.threads[t].pc.task >= x)
  {
    hide Probe;
    RunOrdered(Init(workers, outside), run);
  }

  lemma {:induction false} TimesAtLeast(parts: seq<seq<Task>>, q: nat, x: Task)
    requires q < |parts|
    ensures Times(parts, x) >= Occurs(parts[q], x)
    decreases |parts|
  {
    if q < |parts| - 1 { TimesAtLeast(parts[..|parts| - 1], q, x); }
  }

  // In every run a task in a queue has not been finished.
  lemma QueuedNotFinished(workers: nat, outside: nat, run: seq<Action>, t: Tid, x: Task)
    requires var s := Exec(Init(workers, outside), run); t < |s.threads| && x in Source(s, t)
    ensures x !in Exec(Init(workers, outside), run).finished
  {
    hide Probe;
    var s := Exec(Init(workers, outside), run);
    InitPlaced(workers, outside, x);
    RunKeeps(Init(workers, outside), run, x);
    match s.threads[t].pc
    case TryLocal => TimesAtLeast(s.locals, t, x);
    case Scan(off) => TimesAtLeast(s.locals, Probe(Index(s, t), off, |s.locals|), x);
    case _ =>
  }

  // A worker that searches right after it has submitted a task takes exactly that task.
  lemma OwnTaskNext(s: State, t: Tid)
    requires t < |s.threads| && t < |s.locals| && s.threads[t].pc.Idle?
    ensures var e := Step(Step(Step(s, Submit(t)), Begin(t)), Go(t));
            t < |e.threads| && e.threads[t].pc == Holding(s.submitted) && e.main == s.main && e.locals == s.locals
  {
    var e := Step(Step(Step(s, Submit(t)), Begin(t)), Go(t));
    assert e.locals[t] == s.locals[t];
  }

  // A task that an outside thread submits is behind all that are in the main queue.
  lemma OutsideTaskLast(s: State, t: Tid)
    requires t < |s.threads| && t >= |s.locals| && s.threads[t].pc.Idle?
    ensures var e := Step(s, Submit(t));
            && e.main != [] && e.main[|e.main| - 1] == s.submitted && e.main[..|e.main| - 1] == s.main
            && e.locals == s.locals
  {
  }

  // ----- Runs as sequences of states -----

  ghost predicate StepTo(s: State, s': State) {
    exists a :: Step(s, a) == s'
  }

  // In past, a step leads from place i to the next one.
  ghost predicate StepAt(past: seq<State>, i: nat)
    requires i < |past| - 1
  {
    StepTo(past[i], past[i + 1])
  }

  // The states of a run, one after another.
  ghost predicate IsRun(past: seq<State>, workers: nat, outside: nat) {
    past != [] && past[0] == Init(workers, outside) && forall i :: 0 <= i < |past| - 1 ==> StepAt(past, i)
  }

  lemma {:induction false} RunReaches(past: seq<State>, workers: nat, outside: nat, i: nat)
    requires IsRun(past, workers, outside) && i < |past|
    ensures exists run :: Exec(Init(workers, outside), run) == past[i]
  {
    if i == 0 {
      assert Exec(Init(workers, outside), []) == past[0];
    } else {
      RunReaches(past, workers, outside, i - 1);
      var run :| Exec(Init(workers, outside), run) == past[i - 1];
      assert StepAt(past, i - 1);
      var a :| Step(past[i - 1], a) == past[i];
      ExecSnoc(Init(workers, outside), run, a);
    }
  }

  lemma {:induction false} ExecSnoc(s: State, run: seq<Action>, a: Action)
    ensures Exec(s, run + [a]) == Step(Exec(s, run), a)
    decreases |run|
  {
    if run == [] {
      assert (run + [a])[1..] == [];
    } else {
      assert (run + [a])[1..] == run[1..] + [a];
      ExecSnoc(Step(s, run[0]), run[1..], a);
    }
  }

  // Finished tasks stay finished.
  lemma {:induction false} RunFinishes(past: seq<State>, workers: nat, outside: nat, i: nat, j: nat)
    requires IsRun(past, workers, outside) && i <= j < |past|
    ensures past[i].finished <= past[j].finished
    decreases j
  {
    if i < j {
      RunFinishes(past, workers, outside, i, j - 1);
      assert StepAt(past, j - 1);
      var a :| Step(past[j - 1], a) == past[j];
      StepFinishes(past[j - 1], a);
    }
  }

  lemma StepFinishes(s: State, a: Action)
    ensures s.finished <= Step(s, a).finished
  {
  }
}
