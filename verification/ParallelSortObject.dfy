/**
 The sort as an object: do_sort with its recursion and its loop of polling and
 helping, and the worker, in the form the source gives them, with a burst of other
 threads' steps between any two steps. When the bursts are used up, a thread that
 polls in vain lets the one with the latest call go on; so every call returns.
 */
module ParallelSortObject {
  import opened Prelude
  import opened ParallelSort
  import opened ParallelSortRuns

  // std::partition on the list behind the pivot.
  method PartitionList(less: Order, pivot: Elem, xs: seq<Elem>) returns (lo: seq<Elem>, hi: seq<Elem>)
    ensures Partitioned(less, pivot, xs, lo, hi)
  {
    lo, hi := [], [];
    for i := 0 to |xs|
      invariant Partitioned(less, pivot, xs[..i], lo, hi)
    {
      assert xs[..i + 1] == xs[..i] + [xs[i]];
      if less(xs[i], pivot) { lo := lo + [xs[i]]; } else { hi := hi + [xs[i]]; }
    }
    assert xs[..|xs|] == xs;
  }

  class SortPool {
    const less: Order
    var calls: seq<Call>
    var tasks: seq<Id>
    var next: nat
    var stacks: map<Tid, seq<Id>>
    var clock: nat
    // what the other threads will still do
    var env: seq<seq<Action>>
    // history: the list, the workers, and every state so far, the present one last
    ghost const input: seq<Elem>
    ghost const workers: set<Tid>
    ghost var past: seq<State>

    function View(): State
      reads this
    {
      State(calls, tasks, next, stacks, clock)
    }

    ghost predicate Valid()
      reads this
    {
      && StrictWeak(less) && Inv(less, View())
      && IsRun(less, past, input, workers) && past != [] && past[|past| - 1] == View()
    }

    constructor (less: Order, input: seq<Elem>, workers: set<Tid>, env: seq<seq<Action>>)
      requires StrictWeak(less) && MAIN !in workers
      ensures Valid() && this.less == less && View() == Init(input, workers) && this.env == env
      ensures this.input == input && this.workers == workers
    {
      this.less, this.env := less, env;
      var s := Init(input, workers);
      calls, tasks, next, stacks, clock := s.calls, s.tasks, s.next, s.stacks, s.clock;
      this.input, this.workers, past := input, workers, [s];
      new;
      InitOk(less, input, workers);
    }

    // The step a has just led from the last recorded state to the present one.
    ghost method Record(a: Action)
      requires IsRun(less, past, input, workers) && past != [] && Step(less, past[|past| - 1], a) == View()
      modifies this`past
      ensures past == old(past) + [View()] && IsRun(less, past, input, workers)
    {
      hide Step, Init;
      assert StepTo(less, past[|past| - 1], View());
      ghost var was := past;
      past := past + [View()];
      forall i | 0 <= i < |past| - 1 ensures StepAt(less, past, i) {
        if i < |was| - 1 { assert StepAt(less, was, i); }
      }
    }

    // ----- The other threads -----

    method OtherStep(t: Tid, a: Action)
      requires Valid() && t in stacks && a.t != t
      modifies this
      ensures Valid() && old(past) <= past && env == old(env) && View() == Step(less, old(View()), a)
      ensures Untouched(old(View()), View(), t) && Total(calls) <= old(Total(calls))
    {
      hide IsRun, Inv, Step, Total;
      StepKeeps(less, View(), a);
      StepWork(less, View(), a);
      OthersKeep(less, View(), a, t);
      var s := Step(less, View(), a);
      calls, tasks, next, stacks, clock := s.calls, s.tasks, s.next, s.stacks, s.clock;
      Record(a);
    }

    // The other threads run for one burst; they leave t's stack and the calls on it alone.
    method Interfere(t: Tid)
      requires Valid() && t in stacks
      modifies this
      ensures Valid() && old(past) <= past && Untouched(old(View()), View(), t) && Total(calls) <= old(Total(calls))
      ensures if old(env) == [] then env == [] && View() == old(View()) else |env| < |old(env)|
    {
      hide IsRun, Inv, Total;
      StackThere(less, View(), t);
      if env != [] {
        var burst := env[0];
        env := env[1..];
        for i := 0 to |burst|
          invariant Valid() && old(past) <= past && env == old(env)[1..] && Untouched(old(View()), View(), t)
          invariant Total(calls) <= old(Total(calls))
        {
          if burst[i].t != t { OtherStep(t, burst[i]); }
        }
      }
    }

    // The thread whose running call was started last.
    method FindLatest() returns (t: Tid)
      requires Valid() && !Complete(View())
      ensures Running(View(), t) && CanMove(View(), t)
    {
      RootRuns(less, View());
      hide CallOk, StackOk, QueueOk;
      var latest := 0;
      for c := 1 to |calls|
        invariant latest < |calls| && calls[latest].place.On?
        invariant forall d :: 0 <= d < c && calls[d].place.On? ==> calls[d].born <= calls[latest].born
      {
        if calls[c].place.On? && calls[c].born > calls[latest].born { latest := c; }
      }
      t := calls[latest].place.t;
      TopIsLatest(less, View(), latest);
      WaitsForQueued(less, View(), t);
    }

    // Another thread goes on while t polls in vain and the queue is empty: the one with the latest
    // call works, after at most one poll in vain of its own.
    method OthersGoOn(t: Tid)
      requires Valid() && Running(View(), t) && calls[Top(View(), t)].stage.Polling?
      requires !WillWork(View(), t) && !CanTake(View())
      modifies this
      ensures Valid() && old(past) <= past
      ensures Untouched(old(View()), View(), t) && Total(calls) < old(Total(calls)) && env == old(env)
    {
      StackThere(less, View(), t);
      NotComplete(less, View(), t);
      hide IsRun, Inv, Total, Complete, Step, Productive, Answers;
      var u := FindLatest();
      var a := NextAction(u);
      NotTheLatest(View(), t, u);
      StepWork(less, View(), a);
      if !Productive(less, View(), a) { WorksNext(less, View(), a); }
      var work := Total(calls);
      ghost var s := View();
      OtherStep(t, a);
      if Total(calls) == work {
        ghost var s' := View();
        a := NextAction(u);
        WorksNow(less, s', a);
        StepWork(less, s', a);
        OtherStep(t, a);
        StillUntouched(s, s', View(), t);
      }
    }

    // What u does next, with what std::partition gives it.
    method NextAction(u: Tid) returns (a: Action)
      requires Valid() && Running(View(), u)
      ensures a.t == u && Answers(less, View(), a)
    {
      var call := calls[Top(View(), u)];
      a := Action(u, [], []);
      if call.stage.Fresh? && call.input != [] {
        var lo, hi := PartitionList(less, call.input[0], call.input[1..]);
        a := Action(u, lo, hi);
      }
    }

    // ----- The steps of do_sort -----

    // Partition the list and submit the lower chunk.
    method SplitAndSubmit(t: Tid) returns (ghost lower: seq<Elem>, ghost higher: seq<Elem>)
      requires Valid() && Running(View(), t)
      requires calls[Top(View(), t)].stage.Fresh? && calls[Top(View(), t)].input != []
      modifies this
      ensures Valid() && past == old(past) + [View()] && env == old(env) && Total(calls) < old(Total(calls))
      ensures View() == Split(old(View()), old(Top(View(), t)), lower, higher)
    {
      hide IsRun, Inv, Total, Partitioned;
      var c := Top(View(), t);
      var input := calls[c].input;
      var lo, hi := PartitionList(less, input[0], input[1..]);
      lower, higher := lo, hi;
      SplitOk(less, View(), t, lo, hi);
      var id := |calls|;
      var task := Call(lo, Task(c), Fresh, Queued(|tasks|), 0);
      calls := calls[c := calls[c].(stage := Submitted(input[0], hi, id))] + [task];
      tasks := tasks + [id];
      Record(Action(t, lo, hi));
    }

    // do_sort(ls) on the rest begins, on the same stack.
    method CallHigher(t: Tid)
      requires Valid() && Running(View(), t) && calls[Top(View(), t)].stage.Submitted?
      modifies this
      ensures Valid() && past == old(past) + [View()] && env == old(env) && Total(calls) <= old(Total(calls))
      ensures View() == Recurse(old(View()), t, old(Top(View(), t)))
    {
      hide IsRun, Inv, Total;
      StepKeeps(less, View(), Action(t, [], []));
      StepWork(less, View(), Action(t, [], []));
      var c := Top(View(), t);
      var Submitted(pivot, rest, lower) := calls[c].stage;
      var id := |calls|;
      calls := calls[c := calls[c].(stage := Sorting(pivot, lower, id))];
      calls := calls + [Call(rest, Higher(c), Fresh, On(t, |stacks[t]|), clock)];
      stacks := stacks[t := stacks[t] + [id]];
      clock := clock + 1;
      Record(Action(t, [], []));
    }

    // The running call returns; a caller waiting below hooks its pivot in front.
    method ReturnFrom(t: Tid, res: seq<Elem>)
      requires Valid() && Ready(less, View(), t, res)
      modifies this
      ensures Valid() && past == old(past) + [View()] && env == old(env) && Total(calls) < old(Total(calls))
      ensures View() == Return(old(View()), t, old(Top(View(), t)), res)
      ensures Sorted(less, res) && multiset(res) == multiset(old(calls[Top(View(), t)].input))
    {
      hide IsRun, Inv, Total, Sorted;
      ReadyValue(less, View(), t, res);
      StepKeeps(less, View(), Action(t, [], []));
      StepWork(less, View(), Action(t, [], []));
      var c := Top(View(), t);
      var kind := calls[c].kind;
      calls := calls[c := calls[c].(stage := Done(res), place := Finished)];
      stacks := stacks[t := stacks[t][..|stacks[t]| - 1]];
      if kind.Higher? && kind.parent < |calls| && calls[kind.parent].stage.Sorting? {
        var Sorting(pivot, lower, _) := calls[kind.parent].stage;
        calls := calls[kind.parent := calls[kind.parent].(stage := Polling([pivot] + res, lower))];
      }
      Record(Action(t, [], []));
    }

    // f.wait_for(0s) on a future that is not ready.
    method PollInVain(t: Tid)
      requires Valid() && Running(View(), t) && calls[Top(View(), t)].stage.Polling? && !WillWork(View(), t)
      modifies this
      ensures Valid() && past == old(past) + [View()] && env == old(env)
      ensures Total(calls) <= old(Total(calls)) && View() == old(AfterVain(View(), t))
    {
      hide IsRun, Inv, Total;
      StepKeeps(less, View(), Action(t, [], []));
      StepWork(less, View(), Action(t, [], []));
      var c := Top(View(), t);
      calls := calls[c := calls[c].(stage := Helping(calls[c].stage.res, calls[c].stage.lower))];
      Record(Action(t, [], []));
    }

    // try_executing_one: try_pull, and the beginning of the task if there was one.
    method TryExecutingOne(t: Tid) returns (found: bool)
      requires Valid() && Running(View(), t) && calls[Top(View(), t)].stage.Helping?
      modifies this
      ensures Valid() && past == old(past) + [View()] && env == old(env) && found == old(CanTake(View()))
      ensures View() == if found then old(Take(BackToPoll(View(), t), t)) else old(BackToPoll(View(), t))
      ensures Total(calls) <= old(Total(calls)) - if found then 1 else 0
    {
      hide IsRun, Inv, Total;
      StepKeeps(less, View(), Action(t, [], []));
      StepWork(less, View(), Action(t, [], []));
      var c := Top(View(), t);
      calls := calls[c := calls[c].(stage := Polling(calls[c].stage.res, calls[c].stage.lower))];
      found := next < |tasks| && tasks[next] < |calls|;
      if found { Start(t); }
      Record(Action(t, [], []));
    }

    // Pop the front of the queue and push it on the stack of t.
    method Start(t: Tid)
      requires t in stacks && CanTake(View())
      modifies this
      ensures View() == Take(old(View()), t) && env == old(env) && past == old(past)
    {
      var d := tasks[next];
      next := next + 1;
      calls := calls[d := calls[d].(place := On(t, |stacks[t]|), born := clock)];
      stacks := stacks[t := stacks[t] + [d]];
      clock := clock + 1;
    }

    // ----- do_sort -----

    // The call on top of t's stack returns a sorted permutation of its list. It leaves the calls
    // below as they were, except that one waiting for this very result gets it.
    method DoSort(t: Tid) returns (res: seq<Elem>)
      requires Valid() && Running(View(), t) && calls[Top(View(), t)].stage.Fresh?
      modifies this
      ensures Valid() && old(past) <= past && ReturnsTo(old(View()), View(), t, res) && Total(calls) < old(Total(calls))
      ensures Sorted(less, res) && multiset(res) == multiset(old(calls[Top(View(), t)].input))
      decreases Total(calls), 2
    {
      hide IsRun, Inv, Total, Sorted, Stands, Untouched, ReturnsTo;
      ghost var s0 := View();
      StackThere(less, s0, t);
      BeginsStanding(s0, t);
      Interfere(t);
      StillStands(s0, s0, View(), t, Fresh);
      if calls[Top(View(), t)].input == [] {
        res := [];
        ghost var s := View();
        ReturnFrom(t, res);
        ReturnStands(less, s0, s, t, Fresh, res);
        return;
      }
      var lower;
      res, lower := SortHigher(t, s0);
      while true
        invariant Valid() && old(past) <= past
        invariant Stands(s0, View(), t, Polling(res, lower)) && Total(calls) < Total(s0.calls)
        decreases Total(calls), |env|
      {
        var last := env == [];
        ghost var s1 := View();
        TopStands(s0, s1, t, Polling(res, lower));
        Interfere(t);
        StillStands(s0, s1, View(), t, Polling(res, lower));
        if lower < |calls| && calls[lower].stage.Done? {
          res := calls[lower].stage.res + res;
          ghost var s := View();
          ReturnFrom(t, res);
          ReturnStands(less, s0, s, t, s.calls[Top(s, t)].stage, res);
          return;
        }
        PollAndHelp(t, res, lower, s0, last);
      }
    }

    // From the partition to the result of the recursive call with the pivot in front.
    method SortHigher(t: Tid, ghost s0: State) returns (res: seq<Elem>, lower: Id)
      requires Valid() && Running(s0, t) && Stands(s0, View(), t, Fresh) && s0.calls[Top(s0, t)].input != []
      modifies this
      ensures Valid() && old(past) <= past
      ensures Stands(s0, View(), t, Polling(res, lower)) && Total(calls) < old(Total(calls))
      decreases Total(calls), 1
    {
      hide IsRun, Inv, Total, Stands, Untouched, ReturnsTo, Recurse, Split;
      ghost var s := View();
      TopStands(s0, s, t, Fresh);
      ghost var lo, hi := SplitAndSubmit(t);
      SplitStands(s0, s, t, lo, hi);
      var pivot := calls[Top(View(), t)].stage.pivot;
      lower := calls[Top(View(), t)].stage.lower;
      ghost var stage := calls[Top(View(), t)].stage;
      s := View();
      Interfere(t);
      StillStands(s0, s, View(), t, stage);
      s := View();
      CallHigher(t);
      ghost var s1 := View();
      RecurseTop(s, t);
      var higher := DoSort(t);
      RecurseReturns(s0, s, s1, View(), t, stage, higher);
      res := [pivot] + higher;
    }

    // One round of the loop, after the future was found not ready.
    method PollAndHelp(t: Tid, res: seq<Elem>, lower: Id, ghost s0: State, last: bool)
      requires Valid() && Running(s0, t) && Stands(s0, View(), t, Polling(res, lower)) && (last ==> env == [])
      requires !(lower < |calls| && calls[lower].stage.Done?)
      modifies this
      ensures Valid() && old(past) <= past && Stands(s0, View(), t, Polling(res, lower))
      ensures Total(calls) < old(Total(calls)) || (Total(calls) == old(Total(calls)) && |env| <= |old(env)| && !last)
      decreases Total(calls), 1
    {
      hide IsRun, Inv, Total, Stands, Untouched, ReturnsTo, Take;
      ghost var s := View();
      TopStands(s0, s, t, Polling(res, lower));
      PollInVain(t);
      VainStands(s0, s, t, res, lower);
      s := View();
      Interfere(t);
      StillStands(s0, s, View(), t, Helping(res, lower));
      s := View();
      var found := TryExecutingOne(t);
      BackStands(s0, s, t, res, lower);
      ghost var s1 := View();
      if found {
        TakenTop(less, s, t);
        var r := DoSort(t);
        TaskReturns(s0, BackToPoll(s, t), s1, View(), t, res, lower, r);
      } else if last {
        OthersGoOn(t);
        StillStands(s0, s1, View(), t, Polling(res, lower));
      }
    }

    // The worker's loop, once: it takes the oldest task and runs it to its end.
    method WorkerOnce(t: Tid) returns (task: Id)
      requires Valid() && t in stacks && t != MAIN && stacks[t] == [] && CanTake(View())
      modifies this
      ensures Valid() && old(past) <= past && t in stacks && stacks[t] == [] && Total(calls) < old(Total(calls))
      ensures task == old(tasks[next]) && task < |calls| && calls[task].stage.Done?
      ensures Sorted(less, calls[task].stage.res)
      ensures multiset(calls[task].stage.res) == multiset(old(calls[tasks[next]].input))
    {
      hide IsRun, Inv, Total, Sorted;
      task := tasks[next];
      TakeOk(less, View(), t);
      Start(t);
      Record(Action(t, [], []));
      var _ := DoSort(t);
    }

    // sorter{}(ls)
    method Sort() returns (res: seq<Elem>)
      requires Valid() && MAIN in stacks && stacks[MAIN] == [0] && |calls| > 0 && calls[0].stage.Fresh?
      modifies this
      ensures Valid() && old(past) <= past && Complete(View()) && next == |tasks|
      ensures forall t :: t in stacks ==> stacks[t] == []
      ensures Sorted(less, res) && multiset(res) == multiset(old(calls[0].input))
      ensures calls != [] && calls[0].stage == Done(res)
    {
      res := DoSort(MAIN);
      hide CallOk, StackOk, QueueOk, PlacesOk, Sorted;
      NothingLeftBehind(less, View());
    }
  }

  lemma TakeOk(less: Order, s: State, t: Tid)
    requires Inv(less, s) && t in s.stacks && t != MAIN && s.stacks[t] == [] && CanTake(s)
    ensures var s' := Take(s, t);
            && Inv(less, s') && Total(s'.calls) == Total(s.calls) - 1
            && Running(s', t) && Top(s', t) == s.tasks[s.next] && s'.calls[Top(s', t)].stage.Fresh?
            && s'.calls[Top(s', t)].input == s.calls[s.tasks[s.next]].input
  {
    hide IsRun, Inv, Total;
    TakeFacts(less, s, t);
    TakeKeeps(less, s, t);
    TakeWork(less, s, t);
  }

  lemma SplitOk(less: Order, s: State, t: Tid, lo: seq<Elem>, hi: seq<Elem>)
    requires Inv(less, s) && Running(s, t)
    requires var call := s.calls[Top(s, t)];
             call.stage.Fresh? && call.input != [] && Partitioned(less, call.input[0], call.input[1..], lo, hi)
    ensures var s' := Split(s, Top(s, t), lo, hi); Inv(less, s') && Total(s'.calls) == Total(s.calls) - 1
  {
    assert StackOk(s, t);
    hide IsRun, Inv, StackOk, Partitioned, Total;
    SplitKeeps(less, s, t, lo, hi);
    SplitWork(less, s, Top(s, t), lo, hi);
  }

  // ----- What a call finds on its stack -----

  // Nothing on t's stack has changed.
  ghost predicate Untouched(s: State, s': State, t: Tid) {
    && t in s.stacks && t in s'.stacks && s'.stacks[t] == s.stacks[t] && |s.calls| <= |s'.calls|
    && forall i :: 0 <= i < |s.stacks[t]| ==>
         s.stacks[t][i] < |s.calls| && s'.calls[s.stacks[t][i]] == s.calls[s.stacks[t][i]]
  }

  // The call that tops t's stack in s0 still does, with this stage; below it nothing has changed.
  ghost predicate Stands(s0: State, s: State, t: Tid, stage: Stage)
    requires Running(s0, t)
  {
    var st := s0.stacks[t];
    && t in s.stacks && s.stacks[t] == st && |s0.calls| <= |s.calls|
    && s.calls[Top(s0, t)] == s0.calls[Top(s0, t)].(stage := stage)
    && forall i :: 0 <= i < |st| - 1 ==>
         st[i] < |s0.calls| && st[i] != Top(s0, t) && s.calls[st[i]] == s0.calls[st[i]]
  }

  // Call d after call c has returned res: if it waited for that, the pivot is in front of it now.
  function Hooked(s: State, c: Id, d: Id, res: seq<Elem>): Call
    requires c < |s.calls| && d < |s.calls|
  {
    if s.calls[c].kind == Higher(d) && s.calls[d].stage.Sorting? then
      s.calls[d].(stage := Polling([s.calls[d].stage.pivot] + res, s.calls[d].stage.lower))
    else s.calls[d]
  }

  // The call on top of t's stack in s has returned res.
  ghost predicate ReturnsTo(s: State, s': State, t: Tid, res: seq<Elem>)
    requires Running(s, t)
  {
    var st := s.stacks[t];
    && t in s'.stacks && s'.stacks[t] == st[..|st| - 1] && |s.calls| <= |s'.calls|
    && s'.calls[Top(s, t)] == s.calls[Top(s, t)].(stage := Done(res), place := Finished)
    && forall i :: 0 <= i < |st| - 1 ==>
         st[i] < |s.calls| && st[i] != Top(s, t) && s'.calls[st[i]] == Hooked(s, Top(s, t), st[i], res)
  }

  function BackToPoll(s: State, t: Tid): State
    requires Running(s, t) && s.calls[Top(s, t)].stage.Helping?
  {
    var stage := s.calls[Top(s, t)].stage;
    Restage(s, Top(s, t), Polling(stage.res, stage.lower))
  }

  lemma StackThere(less: Order, s: State, t: Tid)
    requires Inv(less, s) && t in s.stacks
    ensures Untouched(s, s, t)
    ensures Running(s, t) ==> forall i :: 0 <= i < |s.stacks[t]| - 1 ==> s.stacks[t][i] != Top(s, t)
  {
    assert StackOk(s, t);
    hide CallOk, QueueOk, PlacesOk;
  }

  lemma RootRuns(less: Order, s: State)
    requires Inv(less, s) && !Complete(s)
    ensures s.calls[0].place.On?
  {
    assert CallOk(less, s, 0);
  }

  lemma NotComplete(less: Order, s: State, t: Tid)
    requires Inv(less, s) && Running(s, t)
    ensures !Complete(s)
  {
    hide IsRun, Inv, Complete;
    NothingLeftBehind(less, s);
  }

  // What a step can change: the running call, the caller below that it returns to, and the first
  // task of the queue.
  lemma ChangesFew(less: Order, s: State, a: Action, d: Id)
    requires d < |s.calls| && !(Running(s, a.t) && d == Top(s, a.t)) && !(CanTake(s) && d == s.tasks[s.next])
    requires Running(s, a.t) && s.calls[Top(s, a.t)].kind == Higher(d) ==>
               var stage := s.calls[Top(s, a.t)].stage; !stage.Fresh? && !stage.Polling?
    ensures var s' := Step(less, s, a); |s.calls| <= |s'.calls| && s'.calls[d] == s.calls[d]
  {
    hide Partitioned;
  }

  // So it changes only calls of its own thread's stack, and queued ones.
  lemma ChangesOwn(less: Order, s: State, a: Action, d: Id)
    requires Inv(less, s) && d < |s.calls| && s.calls[d].place.On? && s.calls[d].place.t != a.t
    ensures var s' := Step(less, s, a); |s.calls| <= |s'.calls| && s'.calls[d] == s.calls[d]
  {
    hide Step, CallOk;
    if Running(s, a.t) {
      assert StackOk(s, a.t);
      var stage := s.calls[Top(s, a.t)].stage;
      if stage.Fresh? || stage.Polling? { ReturnFacts(less, s, a.t); }
    }
    assert CanTake(s) ==> s.calls[s.tasks[s.next]].place.Queued?;
    ChangesFew(less, s, a, d);
  }

  lemma OthersKeep(less: Order, s: State, a: Action, t: Tid)
    requires Inv(less, s) && t in s.stacks && a.t != t
    ensures Untouched(s, Step(less, s, a), t)
  {
    StackThere(less, s, t);
    assert StackOk(s, t);
    hide IsRun, Inv, Step;
    forall i | 0 <= i < |s.stacks[t]| ensures Step(less, s, a).calls[s.stacks[t][i]] == s.calls[s.stacks[t][i]] {
      assert s.calls[s.stacks[t][i]].place == On(t, i);
      ChangesOwn(less, s, a, s.stacks[t][i]);
    }
    OthersStack(less, s, a, t);
  }

  lemma OthersStack(less: Order, s: State, a: Action, t: Tid)
    requires t in s.stacks && a.t != t
    ensures var s' := Step(less, s, a); t in s'.stacks && s'.stacks[t] == s.stacks[t] && |s.calls| <= |s'.calls|
  {
  }

  lemma BeginsStanding(s0: State, t: Tid)
    requires Running(s0, t) && Untouched(s0, s0, t)
    requires forall i :: 0 <= i < |s0.stacks[t]| - 1 ==> s0.stacks[t][i] != Top(s0, t)
    ensures Stands(s0, s0, t, s0.calls[Top(s0, t)].stage)
  {
  }

  lemma StillStands(s0: State, s: State, s': State, t: Tid, stage: Stage)
    requires Running(s0, t) && Stands(s0, s, t, stage) && Untouched(s, s', t)
    ensures Stands(s0, s', t, stage) && Running(s', t) && Top(s', t) == Top(s0, t)
    ensures s'.calls[Top(s', t)] == s0.calls[Top(s0, t)].(stage := stage)
  {
  }

  lemma StillUntouched(s: State, s': State, s'': State, t: Tid)
    requires Untouched(s, s', t) && Untouched(s', s'', t)
    ensures Untouched(s, s'', t)
  {
    forall i | 0 <= i < |s.stacks[t]|
      ensures s.stacks[t][i] < |s.calls| && s''.calls[s.stacks[t][i]] == s.calls[s.stacks[t][i]]
    {
      assert s'.stacks[t][i] == s.stacks[t][i];
    }
  }

  // A call that polls in vain at an empty queue is not the one that can move.
  lemma NotTheLatest(s: State, t: Tid, u: Tid)
    requires Running(s, t) && s.calls[Top(s, t)].stage.Polling? && !WillWork(s, t) && !CanTake(s)
    requires Running(s, u) && CanMove(s, u)
    ensures u != t
  {
  }

  lemma TopStands(s0: State, s: State, t: Tid, stage: Stage)
    requires Running(s0, t) && Stands(s0, s, t, stage)
    ensures Running(s, t) && Top(s, t) == Top(s0, t) && s.calls[Top(s, t)] == s0.calls[Top(s0, t)].(stage := stage)
  {
  }

  lemma SplitStands(s0: State, s: State, t: Tid, lo: seq<Elem>, hi: seq<Elem>)
    requires Running(s0, t) && Running(s, t) && Stands(s0, s, t, Fresh) && s.calls[Top(s, t)].input != []
    ensures var s' := Split(s, Top(s, t), lo, hi);
            Stands(s0, s', t, Submitted(s.calls[Top(s, t)].input[0], hi, |s.calls|))
    ensures Running(Split(s, Top(s, t), lo, hi), t) && Top(Split(s, Top(s, t), lo, hi), t) == Top(s, t)
    ensures Split(s, Top(s, t), lo, hi).calls[Top(s, t)].stage == Submitted(s.calls[Top(s, t)].input[0], hi, |s.calls|)
  {
  }

  lemma RecurseTop(s: State, t: Tid)
    requires Running(s, t) && s.calls[Top(s, t)].stage.Submitted?
    ensures var s' := Recurse(s, t, Top(s, t));
            && Running(s', t) && Top(s', t) == |s.calls| && s'.calls[Top(s', t)].stage.Fresh?
            && s'.calls[Top(s', t)].kind == Higher(Top(s, t))
  {
  }

  // The recursive call has returned: its caller polls, with the pivot in front of the result.
  lemma RecurseReturns(s0: State, s: State, s1: State, s2: State, t: Tid, stage: Stage, res: seq<Elem>)
    requires Running(s0, t) && Stands(s0, s, t, stage) && stage.Submitted?
    requires Running(s, t) && Top(s, t) == Top(s0, t) && s.calls[Top(s, t)].stage == stage
    requires s1 == Recurse(s, t, Top(s, t)) && Running(s1, t) && Top(s1, t) == |s.calls|
    requires ReturnsTo(s1, s2, t, res)
    ensures Stands(s0, s2, t, Polling([stage.pivot] + res, stage.lower))
  {
    var st, c := s0.stacks[t], Top(s0, t);
    assert s1.stacks[t] == st + [|s.calls|];
    assert s2.stacks[t] == st;
    assert s1.stacks[t][|st| - 1] == c;
    forall i | 0 <= i < |st| - 1 ensures s2.calls[st[i]] == s0.calls[st[i]] {
      assert s1.stacks[t][i] == st[i] && st[i] != c;
    }
  }

  lemma VainStands(s0: State, s: State, t: Tid, res: seq<Elem>, lower: Id)
    requires Running(s0, t) && Stands(s0, s, t, Polling(res, lower)) && Running(s, t) && Top(s, t) == Top(s0, t)
    requires s.calls[Top(s, t)].stage == Polling(res, lower) && !WillWork(s, t)
    ensures Stands(s0, AfterVain(s, t), t, Helping(res, lower))
  {
  }

  lemma BackStands(s0: State, s: State, t: Tid, res: seq<Elem>, lower: Id)
    requires Running(s0, t) && Stands(s0, s, t, Helping(res, lower)) && Running(s, t) && Top(s, t) == Top(s0, t)
    requires s.calls[Top(s, t)].stage == Helping(res, lower)
    ensures var s' := BackToPoll(s, t);
            && Stands(s0, s', t, Polling(res, lower)) && Running(s', t) && Top(s', t) == Top(s, t)
            && s'.calls[Top(s', t)].stage == Polling(res, lower)
  {
  }

  lemma TakenTop(less: Order, s: State, t: Tid)
    requires Inv(less, s) && Running(s, t) && s.calls[Top(s, t)].stage.Helping? && CanTake(s)
    ensures var s' := Take(BackToPoll(s, t), t);
            Running(s', t) && s'.calls[Top(s', t)].stage.Fresh? && s'.calls[Top(s', t)].kind.Task?
  {
    hide Inv;
    var stage := s.calls[Top(s, t)].stage;
    PollKeeps(less, s, t, Polling(stage.res, stage.lower));
    TakeFacts(less, BackToPoll(s, t), t);
  }

  // The task that was run in between has returned.
  lemma TaskReturns(s0: State, s: State, s1: State, s2: State, t: Tid, res: seq<Elem>, lower: Id, r: seq<Elem>)
    requires Running(s0, t) && Stands(s0, s, t, Polling(res, lower)) && CanTake(s)
    requires s1 == Take(s, t) && Running(s1, t) && s1.calls[Top(s1, t)].kind.Task?
    requires ReturnsTo(s1, s2, t, r)
    ensures Stands(s0, s2, t, Polling(res, lower))
  {
    var st := s0.stacks[t];
    assert s1.stacks[t] == st + [s.tasks[s.next]];
    assert s2.stacks[t] == st;
    forall i | 0 <= i < |st| ensures s2.calls[st[i]] == s.calls[st[i]] {
      assert s1.stacks[t][i] == st[i];
    }
  }

  lemma ReturnStands(less: Order, s0: State, s: State, t: Tid, stage: Stage, res: seq<Elem>)
    requires Running(s0, t) && Stands(s0, s, t, stage) && Inv(less, s) && Ready(less, s, t, res)
    ensures ReturnsTo(s0, Return(s, t, Top(s, t), res), t, res)
  {
    ReturnFacts(less, s, t);
    hide Inv;
  }
}
