/**
 What holds in every run of the parallel sort: it gives a sorted permutation, takes
 a fixed number of productive steps, never deadlocks, and ends in every fair run.
 */
module ParallelSortRuns {
  import opened Prelude
  import opened ParallelSort

  // ----- The work that is left -----

  // The steps a call will still take itself or hand to calls not yet created.
  function Work(call: Call): nat {
    match call.stage
    case Fresh => 5 * |call.input| + if call.place.Queued? then 2 else 1
    case Submitted(_, rest, _) => 5 * |rest| + 3
    case Sorting(_, _, _) => 1
    case Polling(_, _) => 1
    case Helping(_, _) => 1
    case Done(_) => 0
  }

  function Total(calls: seq<Call>): nat {
    if calls == [] then 0 else Total(calls[..|calls| - 1]) + Work(calls[|calls| - 1])
  }

  lemma {:induction false} TotalUpdate(calls: seq<Call>, c: Id, call: Call)
    requires c < |calls|
    ensures Total(calls[c := call]) == Total(calls) - Work(calls[c]) + Work(call)
    decreases |calls|
  {
    var n := |calls| - 1;
    if c < n {
      TotalUpdate(calls[..n], c, call);
      assert calls[c := call][..n] == calls[..n][c := call];
    } else {
      assert calls[c := call][..n] == calls[..n];
    }
  }

  lemma TotalAppend(calls: seq<Call>, call: Call)
    ensures Total(calls + [call]) == Total(calls) + Work(call)
  {
    assert (calls + [call])[..|calls|] == calls;
  }

  // A step that does something: all but empty polls of the queue, polls of a future that is
  // not ready, and steps that are not possible.
  predicate Productive(less: Order, s: State, a: Action) {
    a.t in s.stacks &&
    if !Running(s, a.t) then a.t != MAIN && s.stacks[a.t] == [] && CanTake(s)
    else
      var call := s.calls[Top(s, a.t)];
      match call.stage
      case Fresh => call.input == [] || Partitioned(less, call.input[0], call.input[1..], a.lo, a.hi)
      case Submitted(_, _, _) => true
      case Sorting(_, _, _) => false
      case Polling(_, lower) => lower < |s.calls| && s.calls[lower].stage.Done?
      case Helping(_, _) => CanTake(s)
      case Done(_) => false
  }

  lemma SplitWork(less: Order, s: State, c: Id, lo: seq<Elem>, hi: seq<Elem>)
    requires c < |s.calls| && s.calls[c].stage.Fresh? && !s.calls[c].place.Queued? && s.calls[c].input != []
    requires Partitioned(less, s.calls[c].input[0], s.calls[c].input[1..], lo, hi)
    ensures Total(Split(s, c, lo, hi).calls) == Total(s.calls) - 1
  {
    var call := s.calls[c];
    assert |multiset(lo) + multiset(hi)| == |lo| + |hi|;
    assert |lo| + |hi| == |call.input| - 1;
    var stage := Submitted(call.input[0], hi, |s.calls|);
    TotalUpdate(s.calls, c, call.(stage := stage));
    TotalAppend(s.calls[c := call.(stage := stage)], Call(lo, Task(c), Fresh, Queued(|s.tasks|), 0));
  }

  lemma RecurseWork(s: State, t: Tid, c: Id)
    requires t in s.stacks && c < |s.calls| && s.calls[c].stage.Submitted?
    ensures Total(Recurse(s, t, c).calls) == Total(s.calls) - 1
  {
    var Submitted(pivot, rest, lower) := s.calls[c].stage;
    var caller := s.calls[c].(stage := Sorting(pivot, lower, |s.calls|));
    TotalUpdate(s.calls, c, caller);
    TotalAppend(s.calls[c := caller], Call(rest, Higher(c), Fresh, On(t, |s.stacks[t]|), s.clock));
  }

  lemma TakeWork(less: Order, s: State, t: Tid)
    requires Inv(less, s) && t in s.stacks && CanTake(s)
    ensures Total(Take(s, t).calls) == Total(s.calls) - 1
  {
    TakeFacts(less, s, t);
    var d := s.tasks[s.next];
    TotalUpdate(s.calls, d, s.calls[d].(place := On(t, |s.stacks[t]|), born := s.clock));
  }

  lemma ReturnWork(less: Order, s: State, t: Tid, res: seq<Elem>)
    requires Inv(less, s) && Ready(less, s, t, res)
    ensures Total(Return(s, t, Top(s, t), res).calls) == Total(s.calls) - 1
  {
    hide CallOk, StackOk, QueueOk, PlacesOk, Total;
    var c := Top(s, t);
    ReturnFacts(less, s, t);
    hide Inv;
    var calls := s.calls[c := s.calls[c].(stage := Done(res), place := Finished)];
    TotalUpdate(s.calls, c, calls[c]);
    if s.calls[c].kind.Higher? {
      var p := s.calls[c].kind.parent;
      var Sorting(pivot, lower, _) := calls[p].stage;
      TotalUpdate(calls, p, calls[p].(stage := Polling([pivot] + res, lower)));
    }
  }

  // Every productive step lowers the work by exactly one; every other step leaves it.
  lemma HelpingWork(less: Order, s: State, a: Action)
    requires Inv(less, s) && Running(s, a.t) && s.calls[Top(s, a.t)].stage.Helping?
    ensures Total(Step(less, s, a).calls) == Total(s.calls) - if Productive(less, s, a) then 1 else 0
  {
    hide Inv, Total;
    var c := Top(s, a.t);
    var Helping(res, lower) := s.calls[c].stage;
    var back := Restage(s, c, Polling(res, lower));
    TotalUpdate(s.calls, c, back.calls[c]);
    PollKeeps(less, s, a.t, Polling(res, lower));
    if CanTake(s) { TakeWork(less, back, a.t); }
  }

  lemma StepWork(less: Order, s: State, a: Action)
    requires Inv(less, s)
    ensures Total(Step(less, s, a).calls) == Total(s.calls) - if Productive(less, s, a) then 1 else 0
  {
    hide Total, CallOk, QueueOk, PlacesOk, Partitioned;
    var t := a.t;
    if t in s.stacks {
      assert StackOk(s, t);
      if !Running(s, t) {
        if t != MAIN && s.stacks[t] == [] && CanTake(s) { TakeWork(less, s, t); }
      } else {
        var c := Top(s, t);
        match s.calls[c].stage
        case Fresh =>
          if s.calls[c].input == [] { ReturnWork(less, s, t, []); }
          else if Partitioned(less, s.calls[c].input[0], s.calls[c].input[1..], a.lo, a.hi) {
            SplitWork(less, s, c, a.lo, a.hi);
          }
        case Submitted(_, _, _) => RecurseWork(s, t, c);
        case Sorting(_, _, _) =>
        case Polling(res, lower) =>
          if lower < |s.calls| && s.calls[lower].stage.Done? {
            ReturnWork(less, s, t, s.calls[lower].stage.res + res);
          } else {
            TotalUpdate(s.calls, c, s.calls[c].(stage := Helping(res, lower)));
          }
        case Helping(res, lower) => HelpingWork(less, s, a);
        case Done(_) =>
      }
    }
  }

  function CountProductive(less: Order, s: State, run: seq<Action>): nat
    decreases |run|
  {
    if run == [] then 0
    else (if Productive(less, s, run[0]) then 1 else 0) + CountProductive(less, Step(less, s, run[0]), run[1..])
  }

  lemma {:induction false} RunWork(less: Order, s: State, run: seq<Action>)
    requires StrictWeak(less) && Inv(less, s)
    ensures CountProductive(less, s, run) + Total(Exec(less, s, run).calls) == Total(s.calls)
    decreases |run|
  {
    if run != [] {
      StepWork(less, s, run[0]);
      StepKeeps(less, s, run[0]);
      RunWork(less, Step(less, s, run[0]), run[1..]);
    }
  }

  // ----- Main results -----

  ghost predicate Reachable(less: Order, input: seq<Elem>, workers: set<Tid>, s: State) {
    exists run :: Exec(less, Init(input, workers), run) == s
  }

  ghost predicate StepTo(less: Order, s: State, s': State) {
    exists a :: Step(less, s, a) == s'
  }

  // In past, a step leads from place i to the next one.
  ghost predicate StepAt(less: Order, past: seq<State>, i: nat)
    requires i < |past| - 1
  {
    StepTo(less, past[i], past[i + 1])
  }

  // The states of a run, one after another.
  ghost predicate IsRun(less: Order, past: seq<State>, input: seq<Elem>, workers: set<Tid>) {
    past != [] && past[0] == Init(input, workers) && forall i :: 0 <= i < |past| - 1 ==> StepAt(less, past, i)
  }

  lemma {:induction false} RunReaches(less: Order, past: seq<State>, input: seq<Elem>, workers: set<Tid>, i: nat)
    requires IsRun(less, past, input, workers) && i < |past|
    ensures Reachable(less, input, workers, past[i])
  {
    if i == 0 {
      assert Exec(less, Init(input, workers), []) == past[0];
    } else {
      RunReaches(less, past, input, workers, i - 1);
      assert StepAt(less, past, i - 1);
      var a :| Step(less, past[i - 1], a) == past[i];
      var run :| Exec(less, Init(input, workers), run) == past[i - 1];
      ExecSnoc(less, Init(input, workers), run, a);
    }
  }

  predicate Complete(s: State) {
    s.calls != [] && s.calls[0].stage.Done?
  }

  lemma ReachableOk(less: Order, input: seq<Elem>, workers: set<Tid>, s: State)
    requires StrictWeak(less) && MAIN !in workers && Reachable(less, input, workers, s)
    ensures Inv(less, s) && s.calls[0].input == input
  {
    var run :| Exec(less, Init(input, workers), run) == s;
    InitOk(less, input, workers);
    RunKeeps(less, Init(input, workers), run);
  }

  // However the steps interleave, the result is a sorted rearrangement of the input.
  lemma ResultSorted(less: Order, input: seq<Elem>, workers: set<Tid>, s: State)
    requires StrictWeak(less) && MAIN !in workers && Reachable(less, input, workers, s) && Complete(s)
    ensures Sorted(less, s.calls[0].stage.res)
    ensures multiset(s.calls[0].stage.res) == multiset(input)
  {
    ReachableOk(less, input, workers, s);
    assert CallOk(less, s, 0);
  }

  // A finished call has finished children, so when the root is done nothing is left behind.
  lemma {:induction false} DoneBelow(less: Order, s: State, c: Id)
    requires Inv(less, s) && Complete(s) && c < |s.calls|
    ensures s.calls[c].stage.Done?
    decreases c
  {
    assert CallOk(less, s, c);
    if !s.calls[c].kind.Root? {
      DoneBelow(less, s, s.calls[c].kind.parent);
    }
  }

  lemma {:induction false} TotalZero(calls: seq<Call>)
    ensures Total(calls) == 0 <==> forall c :: 0 <= c < |calls| ==> calls[c].stage.Done?
  {
    if calls != [] {
      var init := calls[..|calls| - 1];
      TotalZero(init);
      assert forall c :: 0 <= c < |init| ==> init[c] == calls[c];
    }
  }

  // When the sort is complete, the queue is empty, every thread's stack is empty and no work is left.
  lemma NothingLeftBehind(less: Order, s: State)
    requires Inv(less, s)
    ensures Complete(s) <==> Total(s.calls) == 0
    ensures Complete(s) ==> s.next == |s.tasks| && forall t :: t in s.stacks ==> s.stacks[t] == []
  {
    TotalZero(s.calls);
    assert s.next < |s.tasks| ==> s.calls[s.tasks[s.next]].place == Queued(s.next);
    if Complete(s) {
      forall c | 0 <= c < |s.calls| ensures s.calls[c].stage.Done? && s.calls[c].place.Finished? {
        DoneBelow(less, s, c);
        assert CallOk(less, s, c);
      }
      forall t | t in s.stacks ensures s.stacks[t] == [] {
        assert StackOk(s, t);
      }
    }
  }

  // Termination: a run has never more than 5n + 1 productive steps, and it is complete
  // exactly when it has made all of them.
  lemma ExactWork(less: Order, input: seq<Elem>, workers: set<Tid>, run: seq<Action>)
    requires StrictWeak(less) && MAIN !in workers
    ensures CountProductive(less, Init(input, workers), run) <= 5 * |input| + 1
    ensures Complete(Exec(less, Init(input, workers), run)) <==>
            CountProductive(less, Init(input, workers), run) == 5 * |input| + 1
  {
    var s := Init(input, workers);
    InitOk(less, input, workers);
    RunWork(less, s, run);
    RunKeeps(less, s, run);
    NothingLeftBehind(less, Exec(less, s, run));
    var root := s.calls[0];
    assert s.calls[..0] == [] && Total(s.calls[..0]) == 0;
    assert Total(s.calls) == Total(s.calls[..0]) + Work(root);
  }

  // std::partition always has an answer.
  function Below(less: Order, pivot: Elem, xs: seq<Elem>): seq<Elem> {
    if xs == [] then [] else (if less(xs[0], pivot) then [xs[0]] else []) + Below(less, pivot, xs[1..])
  }

  function NotBelow(less: Order, pivot: Elem, xs: seq<Elem>): seq<Elem> {
    if xs == [] then [] else (if less(xs[0], pivot) then [] else [xs[0]]) + NotBelow(less, pivot, xs[1..])
  }

  lemma {:induction false} CanPartition(less: Order, pivot: Elem, xs: seq<Elem>)
    ensures Partitioned(less, pivot, xs, Below(less, pivot, xs), NotBelow(less, pivot, xs))
    decreases |xs|
  {
    if xs != [] {
      CanPartition(less, pivot, xs[1..]);
      assert xs == [xs[0]] + xs[1..];
    }
  }

  lemma {:induction false} LatestBelow(less: Order, s: State, n: nat) returns (c: Id)
    requires Inv(less, s) && !Complete(s) && 0 < n <= |s.calls|
    ensures c < n && s.calls[c].place.On?
    ensures forall d :: 0 <= d < n && s.calls[d].place.On? ==> s.calls[d].born <= s.calls[c].born
    decreases n
  {
    hide StackOk, QueueOk, PlacesOk;
    assert s.calls[0].place.On? by { assert CallOk(less, s, 0); }
    hide Inv;
    if n == 1 {
      c := 0;
    } else {
      c := LatestBelow(less, s, n - 1);
      if s.calls[n - 1].place.On? && s.calls[n - 1].born > s.calls[c].born { c := n - 1; }
    }
  }

  // The call that was started last, of those not finished, is on top of its thread's stack.
  lemma TopIsLatest(less: Order, s: State, c: Id)
    requires Inv(less, s) && c < |s.calls| && s.calls[c].place.On?
    requires forall d :: 0 <= d < |s.calls| && s.calls[d].place.On? ==> s.calls[d].born <= s.calls[c].born
    ensures Running(s, s.calls[c].place.t) && Top(s, s.calls[c].place.t) == c
  {
    var On(t, i) := s.calls[c].place;
    assert StackOk(s, t);
    assert i < |s.stacks[t]| - 1 ==> Covers(s, s.stacks[t][i], s.stacks[t][i + 1]);
  }

  predicate CanMove(s: State, t: Tid)
    requires Running(s, t)
  {
    var stage := s.calls[Top(s, t)].stage;
    && !stage.Sorting? && !stage.Done?
    && (stage.Polling? || stage.Helping? ==>
          stage.lower < |s.calls| && (s.calls[stage.lower].stage.Done? || CanTake(s)))
  }

  // The latest call can only be waiting for a task that is still queued.
  lemma WaitsForQueued(less: Order, s: State, t: Tid)
    requires Inv(less, s) && Running(s, t)
    requires forall d :: 0 <= d < |s.calls| && s.calls[d].place.On? ==> s.calls[d].born <= s.calls[Top(s, t)].born
    ensures CanMove(s, t)
  {
    var c := Top(s, t);
    assert StackOk(s, t);
    assert CallOk(less, s, c);
    var stage := s.calls[c].stage;
    if stage.Polling? || stage.Helping? {
      assert CallOk(less, s, stage.lower);
    }
  }

  // A thread that is not inside its own call, and waits for a queued task if it waits at all, has a
  // productive step after at most one poll in vain.
  lemma SoonProductive(less: Order, s: State, a: Action)
    requires Running(s, a.t) && CanMove(s, a.t)
    requires var call := s.calls[Top(s, a.t)];
             call.stage.Fresh? && call.input != [] ==> Partitioned(less, call.input[0], call.input[1..], a.lo, a.hi)
    ensures Productive(less, s, a) || Productive(less, Step(less, s, a), a)
  {
  }

  // No deadlock: in every reachable state that is not complete, for any number of workers,
  // some thread makes a productive step with its next step or the one after it.
  lemma DeadlockFree(less: Order, input: seq<Elem>, workers: set<Tid>, s: State)
    requires StrictWeak(less) && MAIN !in workers && Reachable(less, input, workers, s) && !Complete(s)
    ensures exists a: Action :: Productive(less, s, a) || Productive(less, Step(less, s, a), a)
  {
    ReachableOk(less, input, workers, s);
    var latest := LatestBelow(less, s, |s.calls|);
    TopIsLatest(less, s, latest);
    var t := s.calls[latest].place.t;
    WaitsForQueued(less, s, t);
    var call := s.calls[Top(s, t)];
    var pivot, rest := if call.input == [] then 0 else call.input[0], if call.input == [] then [] else call.input[1..];
    CanPartition(less, pivot, rest);
    hide Inv, Reachable, Exec, Partitioned;
    SoonProductive(less, s, Action(t, Below(less, pivot, rest), NotBelow(less, pivot, rest)));
  }

  // ----- Fair schedules -----

  // The next step of the running call is not a poll in vain.
  predicate WillWork(s: State, t: Tid)
    requires Running(s, t)
  {
    var stage := s.calls[Top(s, t)].stage;
    && (stage.Polling? ==> stage.lower < |s.calls| && s.calls[stage.lower].stage.Done?)
    && (stage.Helping? ==> CanTake(s))
  }

  // The state after a poll in vain.
  function AfterVain(s: State, t: Tid): State
    requires Running(s, t) && !WillWork(s, t)
  {
    var c := Top(s, t);
    var stage := s.calls[c].stage;
    Restage(s, c, if stage.Polling? then Helping(stage.res, stage.lower) else Polling(stage.res, stage.lower))
  }

  // Once is enough: if the child is done or the queue is not empty, the second poll is not in vain.
  lemma VainOnce(less: Order, s: State, t: Tid)
    requires Inv(less, s) && Running(s, t) && !WillWork(s, t)
    requires var stage := s.calls[Top(s, t)].stage;
             (stage.Polling? || stage.Helping?) && stage.lower < |s.calls| &&
             (s.calls[stage.lower].stage.Done? || CanTake(s))
    ensures Running(AfterVain(s, t), t) && WillWork(AfterVain(s, t), t)
  {
    assert CallOk(less, s, Top(s, t));
  }

  type Schedule = nat -> Action

  function At(less: Order, s: State, schedule: Schedule, n: nat): State {
    if n == 0 then s else Step(less, At(less, s, schedule, n - 1), schedule(n - 1))
  }

  // If the action is to partition, it brings an answer of std::partition.
  ghost predicate Answers(less: Order, s: State, a: Action) {
    Running(s, a.t) ==>
      var call := s.calls[Top(s, a.t)];
      call.stage.Fresh? && call.input != [] ==> Partitioned(less, call.input[0], call.input[1..], a.lo, a.hi)
  }

  ghost predicate TurnComes(schedule: Schedule, t: Tid, n: nat) {
    exists m :: m >= n && schedule(m).t == t
  }

  // A thread with an unfinished call gets its turn again and again. Nothing is asked for a worker
  // without one: it may sleep for ever, whatever the queue holds.
  ghost predicate Fair(less: Order, s: State, schedule: Schedule) {
    && (forall n: nat, t :: Running(At(less, s, schedule, n), t) ==> TurnComes(schedule, t, n))
    && (forall n: nat :: Answers(less, At(less, s, schedule, n), schedule(n)))
  }

  lemma KeysStay(less: Order, s: State, a: Action)
    ensures Step(less, s, a).stacks.Keys == s.stacks.Keys
  {
  }

  lemma {:induction false} AtKeeps(less: Order, s: State, schedule: Schedule, n: nat)
    requires StrictWeak(less) && Inv(less, s)
    ensures Inv(less, At(less, s, schedule, n)) && At(less, s, schedule, n).stacks.Keys == s.stacks.Keys
  {
    hide Inv, Step;
    if n > 0 {
      AtKeeps(less, s, schedule, n - 1);
      StepKeeps(less, At(less, s, schedule, n - 1), schedule(n - 1));
      KeysStay(less, At(less, s, schedule, n - 1), schedule(n - 1));
    }
  }

  // The work left never grows.
  lemma {:induction false} WorkShrinks(less: Order, s: State, schedule: Schedule, n: nat, m: nat)
    requires StrictWeak(less) && Inv(less, s) && n <= m
    ensures Total(At(less, s, schedule, m).calls) <= Total(At(less, s, schedule, n).calls)
    decreases m
  {
    hide Inv, Step, Total;
    if n < m {
      WorkShrinks(less, s, schedule, n, m - 1);
      AtKeeps(less, s, schedule, m - 1);
      StepWork(less, At(less, s, schedule, m - 1), schedule(m - 1));
    }
  }

  // A call that can move, and whose next step is not in vain, makes a productive step with its turn.
  lemma WorksNow(less: Order, s: State, a: Action)
    requires Running(s, a.t) && CanMove(s, a.t) && WillWork(s, a.t) && Answers(less, s, a)
    ensures Productive(less, s, a)
  {
  }

  // After its own poll in vain it will work.
  lemma WorksNext(less: Order, s: State, a: Action)
    requires Inv(less, s) && Running(s, a.t) && CanMove(s, a.t) && Answers(less, s, a) && !Productive(less, s, a)
    ensures Running(Step(less, s, a), a.t) && CanMove(Step(less, s, a), a.t) && WillWork(Step(less, s, a), a.t)
  {
    hide Inv;
    if WillWork(s, a.t) { WorksNow(less, s, a); }
    VainStep(less, s, a);
    VainOnce(less, s, a.t);
  }

  // What a step in vain of a running thread does.
  lemma VainStep(less: Order, s: State, a: Action)
    requires Running(s, a.t) && CanMove(s, a.t) && Answers(less, s, a) && !Productive(less, s, a)
    ensures !WillWork(s, a.t) && Step(less, s, a) == AfterVain(s, a.t)
    ensures Running(AfterVain(s, a.t), a.t) && CanMove(AfterVain(s, a.t), a.t)
  {
  }

  // An unproductive step changes at most the place of its thread's running call in its loop.
  lemma IdleStep(less: Order, s: State, a: Action)
    requires Answers(less, s, a) && !Productive(less, s, a)
    ensures var s' := Step(less, s, a);
            && s'.stacks == s.stacks && s'.tasks == s.tasks && s'.next == s.next && |s'.calls| == |s.calls|
            && (forall c :: 0 <= c < |s.calls| ==> s'.calls[c].stage.Done? == s.calls[c].stage.Done?)
            && (forall c :: 0 <= c < |s.calls| && !(Running(s, a.t) && c == Top(s, a.t)) ==> s'.calls[c] == s.calls[c])
  {
  }

  // So one of another thread leaves t and what it waits for as they are.
  lemma OthersIdle(less: Order, s: State, a: Action, t: Tid)
    requires Inv(less, s) && Running(s, t) && CanMove(s, t) && a.t != t
    requires Answers(less, s, a) && !Productive(less, s, a)
    ensures var s' := Step(less, s, a);
            Running(s', t) && CanMove(s', t) && (WillWork(s, t) ==> WillWork(s', t))
  {
    assert StackOk(s, t);
    assert a.t in s.stacks ==> StackOk(s, a.t);
    hide Inv, Step, Answers, Productive;
    if Running(s, a.t) { OwnTops(s, t, a.t); }
    hide StackOk;
    IdleStep(less, s, a);
  }

  lemma OwnTops(s: State, t: Tid, u: Tid)
    requires Running(s, t) && StackOk(s, t) && Running(s, u) && StackOk(s, u) && t != u
    ensures Top(s, t) != Top(s, u)
  {
    assert s.calls[Top(s, t)].place == On(t, |s.stacks[t]| - 1);
    assert s.calls[Top(s, u)].place == On(u, |s.stacks[u]| - 1);
  }

  lemma AtNext(less: Order, s: State, schedule: Schedule, n: nat)
    ensures At(less, s, schedule, n + 1) == Step(less, At(less, s, schedule, n), schedule(n))
  {
  }

  lemma FairAnswer(less: Order, s: State, schedule: Schedule, n: nat)
    requires Fair(less, s, schedule)
    ensures Answers(less, At(less, s, schedule, n), schedule(n))
  {
  }

  lemma FairTurn(less: Order, s: State, schedule: Schedule, t: Tid, n: nat) returns (m: nat)
    requires Fair(less, s, schedule) && Running(At(less, s, schedule, n), t)
    ensures n <= m && schedule(m).t == t
  {
    assert TurnComes(schedule, t, n);
    m :| m >= n && schedule(m).t == t;
  }

  // The next turn of t, if nobody makes a productive step before it; m is some turn of t.
  lemma {:induction false} NextTurn(less: Order, s: State, schedule: Schedule, n: nat, t: Tid, m: nat) returns (k: nat)
    requires StrictWeak(less) && Inv(less, s) && Fair(less, s, schedule) && n <= m && schedule(m).t == t
    requires Running(At(less, s, schedule, n), t) && CanMove(At(less, s, schedule, n), t)
    ensures n <= k
    ensures var now := At(less, s, schedule, k);
            || Productive(less, now, schedule(k))
            || (schedule(k).t == t && Running(now, t) && CanMove(now, t)
                && (WillWork(At(less, s, schedule, n), t) ==> WillWork(now, t)))
    decreases m - n
  {
    hide Inv, Step, CanMove, WillWork, Productive, Answers, Fair, At;
    k := n;
    var now := At(less, s, schedule, n);
    if !Productive(less, now, schedule(n)) && schedule(n).t != t {
      AtKeeps(less, s, schedule, n);
      AtNext(less, s, schedule, n);
      FairAnswer(less, s, schedule, n);
      OthersIdle(less, now, schedule(n), t);
      k := NextTurn(less, s, schedule, n + 1, t, m);
    }
  }

  // From any moment on, a productive step comes until the sort is complete.
  lemma WorkComes(less: Order, s: State, schedule: Schedule, n: nat) returns (k: nat)
    requires StrictWeak(less) && Inv(less, s) && Fair(less, s, schedule) && !Complete(At(less, s, schedule, n))
    ensures n <= k && Productive(less, At(less, s, schedule, k), schedule(k))
  {
    hide Inv, Step, CanMove, WillWork, Productive, Answers, Complete, Fair, At;
    var now := At(less, s, schedule, n);
    AtKeeps(less, s, schedule, n);
    var t := FrontRunner(less, now);
    var m := FairTurn(less, s, schedule, t, n);
    k := NextTurn(less, s, schedule, n, t, m);
    if !Productive(less, At(less, s, schedule, k), schedule(k)) {
      k := SecondTurn(less, s, schedule, k);
    }
  }

  // A thread that has polled in vain works with its next turn, unless another one works before.
  lemma SecondTurn(less: Order, s: State, schedule: Schedule, n: nat) returns (k: nat)
    requires StrictWeak(less) && Inv(less, s) && Fair(less, s, schedule)
    requires var now, t := At(less, s, schedule, n), schedule(n).t;
             Running(now, t) && CanMove(now, t) && !Productive(less, now, schedule(n))
    ensures n <= k && Productive(less, At(less, s, schedule, k), schedule(k))
  {
    hide Inv, Step, CanMove, WillWork, Productive, Answers, Fair, At;
    var now, t := At(less, s, schedule, n), schedule(n).t;
    AtKeeps(less, s, schedule, n);
    AtNext(less, s, schedule, n);
    FairAnswer(less, s, schedule, n);
    WorksNext(less, now, schedule(n));
    var m := FairTurn(less, s, schedule, t, n + 1);
    k := NextTurn(less, s, schedule, n + 1, t, m);
    if !Productive(less, At(less, s, schedule, k), schedule(k)) {
      FairAnswer(less, s, schedule, k);
      WorksNow(less, At(less, s, schedule, k), schedule(k));
    }
  }

  // The thread whose running call was started last: it can move.
  lemma FrontRunner(less: Order, s: State) returns (t: Tid)
    requires Inv(less, s) && !Complete(s)
    ensures Running(s, t) && CanMove(s, t)
  {
    var latest := LatestBelow(less, s, |s.calls|);
    TopIsLatest(less, s, latest);
    t := s.calls[latest].place.t;
    WaitsForQueued(less, s, t);
  }

  lemma {:induction false} CompletesFrom(less: Order, s: State, schedule: Schedule, n: nat) returns (m: nat)
    requires StrictWeak(less) && Inv(less, s) && Fair(less, s, schedule)
    ensures Complete(At(less, s, schedule, m))
    decreases Total(At(less, s, schedule, n).calls)
  {
    hide Inv, Step, Productive, Complete, Fair, Total;
    m := n;
    if !Complete(At(less, s, schedule, n)) {
      var k := WorkComes(less, s, schedule, n);
      WorkShrinks(less, s, schedule, n, k);
      AtKeeps(less, s, schedule, k);
      StepWork(less, At(less, s, schedule, k), schedule(k));
      m := CompletesFrom(less, s, schedule, k + 1);
    }
  }

  // In every infinite schedule in which each thread with an unfinished call takes its turn again and
  // again, the sort is complete after finitely many steps, and the result is a sorted rearrangement
  // of the input, even if every worker sleeps for ever.
  lemma FairCompletion(less: Order, input: seq<Elem>, workers: set<Tid>, schedule: Schedule) returns (n: nat)
    requires StrictWeak(less) && MAIN !in workers && Fair(less, Init(input, workers), schedule)
    ensures var s := At(less, Init(input, workers), schedule, n);
            && Complete(s) && Sorted(less, s.calls[0].stage.res)
            && multiset(s.calls[0].stage.res) == multiset(input)
  {
    var s0 := Init(input, workers);
    InitOk(less, input, workers);
    n := CompletesFrom(less, s0, schedule, 0);
    ReachAt(less, input, workers, schedule, n);
    ResultSorted(less, input, workers, At(less, s0, schedule, n));
  }

  // --- There are fair schedules ---

  // The threads take turns; whoever has to partition does.
  function NextAction(less: Order, s: State, t: Tid): Action {
    if Running(s, t) && s.calls[Top(s, t)].input != [] then
      var input := s.calls[Top(s, t)].input;
      Action(t, Below(less, input[0], input[1..]), NotBelow(less, input[0], input[1..]))
    else Action(t, [], [])
  }

  function TurnsState(less: Order, s: State, order: seq<Tid>, n: nat): State
    requires order != []
  {
    if n == 0 then s
    else
      var was := TurnsState(less, s, order, n - 1);
      Step(less, was, NextAction(less, was, order[Seat(|order|, n - 1)]))
  }

  function Turns(less: Order, s: State, order: seq<Tid>): Schedule
    requires order != []
  {
    (n: nat) => NextAction(less, TurnsState(less, s, order, n), order[Seat(|order|, n)])
  }

  lemma {:induction false} TurnsAt(less: Order, s: State, order: seq<Tid>, n: nat)
    requires order != []
    ensures At(less, s, Turns(less, s, order), n) == TurnsState(less, s, order, n)
  {
    hide Step, NextAction, Seat;
    if n > 0 { TurnsAt(less, s, order, n - 1); }
  }

  lemma NextAnswers(less: Order, s: State, t: Tid)
    ensures NextAction(less, s, t).t == t && Answers(less, s, NextAction(less, s, t))
  {
    if Running(s, t) && s.calls[Top(s, t)].input != [] {
      var input := s.calls[Top(s, t)].input;
      CanPartition(less, input[0], input[1..]);
    }
  }

  lemma {:induction false} ThreadsInOrder(tids: set<Tid>) returns (order: seq<Tid>)
    ensures forall t :: t in tids ==> t in order
  {
    order := [];
    if tids != {} {
      var t :| t in tids;
      var rest := ThreadsInOrder(tids - {t});
      order := [t] + rest;
      forall u | u in tids ensures u in order { assert u == t || u in tids - {t}; }
    }
  }

  lemma TurnsCome(less: Order, s: State, order: seq<Tid>, t: Tid, n: nat)
    requires t in order
    ensures TurnComes(Turns(less, s, order), t, n)
  {
    var i: nat :| i < |order| && order[i] == t;
    var m := SeatComes(|order|, i, n);
    NextAnswers(less, TurnsState(less, s, order, m), t);
    hide NextAction, TurnsState;
    assert Turns(less, s, order)(m).t == t;
  }

  // Every input and every set of workers have a fair schedule.
  lemma FairScheduleExists(less: Order, input: seq<Elem>, workers: set<Tid>) returns (schedule: Schedule)
    ensures Fair(less, Init(input, workers), schedule)
  {
    var s := Init(input, workers);
    var order := ThreadsInOrder(s.stacks.Keys);
    assert MAIN in order;
    schedule := Turns(less, s, order);
    hide Step, NextAction, TurnsState, Answers, TurnComes;
    forall n: nat ensures Answers(less, At(less, s, schedule, n), schedule(n)) {
      TurnsAt(less, s, order, n);
      NextAnswers(less, TurnsState(less, s, order, n), order[Seat(|order|, n)]);
    }
    forall n: nat, t | Running(At(less, s, schedule, n), t) ensures TurnComes(schedule, t, n) {
      SameThreads(less, s, schedule, n);
      TurnsCome(less, s, order, t, n);
    }
  }

  lemma {:induction false} SameThreads(less: Order, s: State, schedule: Schedule, n: nat)
    ensures At(less, s, schedule, n).stacks.Keys == s.stacks.Keys
  {
    hide Step;
    if n > 0 {
      SameThreads(less, s, schedule, n - 1);
      KeysStay(less, At(less, s, schedule, n - 1), schedule(n - 1));
    }
  }

  lemma {:induction false} ReachAt(less: Order, input: seq<Elem>, workers: set<Tid>, schedule: Schedule, n: nat)
    ensures Reachable(less, input, workers, At(less, Init(input, workers), schedule, n))
  {
    var s0 := Init(input, workers);
    if n == 0 {
      assert Exec(less, s0, []) == s0;
    } else {
      ReachAt(less, input, workers, schedule, n - 1);
      var run :| Exec(less, s0, run) == At(less, s0, schedule, n - 1);
      ExecSnoc(less, s0, run, schedule(n - 1));
      assert Exec(less, s0, run + [schedule(n - 1)]) == At(less, s0, schedule, n);
    }
  }

  lemma {:induction false} ExecSnoc(less: Order, s: State, run: seq<Action>, a: Action)
    ensures Exec(less, s, run + [a]) == Step(less, Exec(less, s, run), a)
    decreases |run|
  {
    if run == [] {
      assert (run + [a])[1..] == [];
    } else {
      assert (run + [a])[1..] == run[1..] + [a];
      ExecSnoc(less, Step(less, s, run[0]), run[1..], a);
    }
  }
}
