/**
 The controlled pool as an object: submit, the three sources of a task and
 try_executing_one in the form the source gives them, with a burst of other
 threads' steps before every operation on a queue.
 */
module CtrPoolObject {
  import opened Prelude
  import opened CtrPool

  // What a task does: it ends, or it first submits a task or searches for one itself. The task that
  // such a search finds does what inner says.
  datatype Script = Ends | Submits(rest: Script) | Searches(inner: Script, rest: Script)

  class Pool {
    var main: seq<Task>
    var locals: seq<seq<Task>>
    var threads: seq<Thread>
    var finished: seq<Task>
    var submitted: nat
    var started: seq<Task>
    // what the other threads will still do
    var env: seq<seq<Action>>
    // history: the numbers of threads, and every state so far, the present one last
    ghost const workers: nat
    ghost const outside: nat
    ghost var past: seq<State>

    function View(): State
      reads this
    {
      State(main, locals, threads, finished, submitted, started)
    }

    ghost predicate Valid()
      reads this
    {
      && (forall x: Task :: Placed(View(), x))
      && IsRun(past, workers, outside) && past != [] && past[|past| - 1] == View()
    }

    // No queue that thread t's search has passed holds a task older than the mark.
    ghost predicate ClearedBelow(t: Tid, mark: nat)
      reads this
    {
      forall x: Task :: x < mark ==> Cleared(View(), t, x)
    }

    // Thread t has left its place, everyone else's work and the search behind it.
    ghost predicate Holds(t: Tid, th: Thread, mark: nat, queues: nat)
      reads this
    {
      && Valid() && t < |threads| && threads[t] == th
      && ClearedBelow(t, mark) && mark <= submitted && |locals| == queues
    }

    constructor (workers: nat, outside: nat, env: seq<seq<Action>>)
      ensures Valid() && View() == Init(workers, outside) && this.env == env
      ensures this.workers == workers && this.outside == outside
    {
      var s := Init(workers, outside);
      main, locals, threads, finished := s.main, s.locals, s.threads, s.finished;
      submitted, started := s.submitted, s.started;
      this.env := env;
      this.workers, this.outside, past := workers, outside, [s];
      new;
      forall x: Task ensures Placed(View(), x) { InitPlaced(workers, outside, x); }
    }

    // The step a has just led from the last recorded state to the present one.
    ghost method Record(a: Action)
      requires IsRun(past, workers, outside) && past != [] && Step(past[|past| - 1], a) == View()
      modifies this`past
      ensures past == old(past) + [View()] && IsRun(past, workers, outside)
    {
      hide Step, Init;
      assert StepTo(past[|past| - 1], View());
      ghost var was := past;
      past := past + [View()];
      forall i | 0 <= i < |past| - 1 ensures StepAt(past, i) {
        if i < |was| - 1 { assert StepAt(was, i); }
      }
    }

    // Every step keeps what holds of all tasks.
    lemma StepKeepsAll(s: State, a: Action, t: Tid, mark: nat)
      requires forall x: Task :: Placed(s, x)
      requires forall x: Task :: x < mark ==> Cleared(s, t, x)
      ensures forall x: Task :: Placed(Step(s, a), x)
      ensures forall x: Task :: x < mark ==> Cleared(Step(s, a), t, x)
      ensures s.submitted <= Step(s, a).submitted && |Step(s, a).locals| == |s.locals|
    {
      forall x: Task ensures Placed(Step(s, a), x) { StepKeeps(s, a, x); }
      forall x: Task | x < mark ensures Cleared(Step(s, a), t, x) { ClearedStays(s, a, t, x); }
    }

    method OtherStep(t: Tid, a: Action, ghost mark: nat)
      requires t < |threads| && a.t != t && Holds(t, threads[t], mark, |locals|)
      modifies this
      ensures Holds(t, old(threads[t]), mark, |old(locals)|) && env == old(env) && old(submitted) <= submitted
      ensures old(past) <= past
    {
      StepKeepsAll(View(), a, t, mark);
      OthersStep(View(), a, t);
      hide IsRun, Placed, Cleared, Step;
      var s := Step(View(), a);
      main, locals, threads, finished := s.main, s.locals, s.threads, s.finished;
      submitted, started := s.submitted, s.started;
      Record(a);
    }

    // The other threads run for one burst; thread t stays where it is.
    method Interfere(t: Tid, ghost mark: nat)
      requires t < |threads| && Holds(t, threads[t], mark, |locals|)
      modifies this
      ensures Holds(t, old(threads[t]), mark, |old(locals)|) && old(submitted) <= submitted && old(past) <= past
      ensures old(env) == [] ==> env == [] && View() == old(View())
    {
      hide IsRun, Placed, Cleared;
      if env != [] {
        var burst := env[0];
        env := env[1..];
        assert View() == old(View());
        for i := 0 to |burst|
          invariant Holds(t, old(threads[t]), mark, |old(locals)|) && old(submitted) <= submitted && old(past) <= past
        {
          if burst[i].t != t { OtherStep(t, burst[i], mark); }
        }
      }
    }

    // submit: in front of the worker's own queue, or behind the main one.
    method Submit(t: Tid) returns (task: Task)
      requires t < |threads| && Valid() && threads[t].pc.Idle?
      modifies this
      ensures Valid() && past == old(past) + [View()] && env == old(env)
      ensures View() == Step(old(View()), CtrPool.Submit(t))
      ensures task == old(submitted) && submitted == task + 1 && threads == old(threads)
      ensures finished == old(finished) && started == old(started)
      ensures if t < |old(locals)| then locals == old(locals)[t := [task] + old(locals)[t]] && main == old(main)
              else main == old(main) + [task] && locals == old(locals)
    {
      hide IsRun, Placed, Cleared;
      StepKeepsAll(View(), CtrPool.Submit(t), t, 0);
      task := submitted;
      submitted := submitted + 1;
      if t < |locals| { locals := locals[t := [task] + locals[t]]; } else { main := main + [task]; }
      Record(CtrPool.Submit(t));
    }

    // _M_local_q_ptr && _M_local_q_ptr->try_pull(task)
    method FromLocalTasks(t: Tid, ghost mark: nat) returns (found: Option<Task>)
      requires t < |threads| && threads[t].pc.TryLocal? && Holds(t, threads[t], mark, |locals|)
      modifies this
      ensures Holds(t, old(threads[t]).(pc := Found(found, TryMain)), mark, |old(locals)|)
      ensures found.None? <==> t >= |old(locals)| || old(locals)[t] == []
      ensures found.Some? ==> found.value == old(locals)[t][0] && locals == old(locals)[t := old(locals)[t][1..]]
      ensures past == old(past) + [View()] && env == old(env) && View() == Step(old(View()), Go(t))
    {
      hide IsRun, Placed, Cleared;
      StepKeepsAll(View(), Go(t), t, mark);
      if t < |locals| && locals[t] != [] {
        found := Some(locals[t][0]);
        locals := locals[t := locals[t][1..]];
        threads := threads[t := threads[t].(pc := Holding(found.value))];
      } else {
        found := None;
        threads := threads[t := threads[t].(pc := TryMain)];
      }
      Record(Go(t));
    }

    // _M_q.try_pull(task)
    method FromMainTasks(t: Tid, ghost mark: nat) returns (found: Option<Task>)
      requires t < |threads| && threads[t].pc.TryMain? && Holds(t, threads[t], mark, |locals|)
      modifies this
      ensures Holds(t, old(threads[t]).(pc := Found(found, Scan(0))), mark, |old(locals)|)
      ensures found.None? <==> old(main) == []
      ensures found.Some? ==> [found.value] + main == old(main)
      ensures past == old(past) + [View()] && env == old(env) && View() == Step(old(View()), Go(t))
    {
      hide IsRun, Placed, Cleared;
      StepKeepsAll(View(), Go(t), t, mark);
      if main != [] {
        found := Some(main[0]);
        main := main[1..];
        threads := threads[t := threads[t].(pc := Holding(found.value))];
      } else {
        found := None;
        threads := threads[t := threads[t].(pc := Scan(0))];
      }
      Record(Go(t));
    }

    // _M_qs[curr_idx]->try_pull(task)
    method ProbeQueue(t: Tid, off: nat, ghost mark: nat) returns (found: Option<Task>)
      requires t < |threads| && threads[t].pc == Scan(off) && off < |locals| && Holds(t, threads[t], mark, |locals|)
      modifies this
      ensures Holds(t, old(threads[t]).(pc := Found(found, Scan(off + 1))), mark, |old(locals)|)
      ensures var q := Probe(Index(old(View()), t), off, |old(locals)|);
              && (found.None? <==> old(locals)[q] == [])
              && (found.Some? ==> found.value == old(locals)[q][0] && locals == old(locals)[q := old(locals)[q][1..]])
      ensures past == old(past) + [View()] && env == old(env) && View() == Step(old(View()), Go(t))
    {
      hide IsRun, Placed, Cleared;
      StepKeepsAll(View(), Go(t), t, mark);
      var q := Probe(Index(View(), t), off, |locals|);
      if locals[q] != [] {
        found := Some(locals[q][0]);
        locals := locals[q := locals[q][1..]];
        threads := threads[t := threads[t].(pc := Holding(found.value))];
      } else {
        found := None;
        threads := threads[t := threads[t].(pc := Scan(off + 1))];
      }
      Record(Go(t));
    }

    // Every source before the one that thread t looks at now was empty when t looked at it.
    ghost predicate MissedSoFar(t: Tid, from: nat)
      requires t < |threads|
      reads this
    {
      forall r :: 0 <= r < Rank(threads[t].pc) ==> MissedIn(past, t, from, r)
    }

    // steal_from_other_tasks. When it fails, no queue holds a task submitted before the mark.
    method StealFromOtherTasks(t: Tid, ghost mark: nat, ghost from: nat) returns (found: Option<Task>, ghost at: nat)
      requires t < |threads| && threads[t].pc == Scan(0) && Holds(t, threads[t], mark, |locals|)
      requires from < |past| && MissedSoFar(t, from)
      modifies this
      ensures Holds(t, old(threads[t]).(pc := Found(found, Scan(|locals|))), mark, |old(locals)|)
      ensures old(past) <= past
      ensures found.None? ==> (forall x: Task :: x < mark ==> OutOfQueues(View(), x)) && MissedSoFar(t, from)
      ensures found.Some? ==> |old(past)| - 1 <= at < |past| - 1 && FoundAt(past, t, from, at, found.value)
      ensures old(env) == [] ==> env == [] && found == ScanFirst(old(View()), t, 0)
    {
      hide IsRun, Placed, Cleared, MissedIn, Probe;
      var off := 0;
      at := 0;
      while off < |locals|
        invariant off <= |locals| && old(past) <= past
        invariant Holds(t, old(threads[t]).(pc := Scan(off)), mark, |old(locals)|) && MissedSoFar(t, from)
        invariant old(env) == [] ==>
                    && env == [] && locals == old(locals)
                    && ScanFirst(View(), t, off) == ScanFirst(old(View()), t, 0)
      {
        found, at := ProbeNext(t, off, mark, from);
        if found.Some? { return; }
        off := off + 1;
      }
      found := None;
      forall x: Task | x < mark ensures OutOfQueues(View(), x) { AllCleared(View(), t, x); }
    }

    // One round of the scan.
    method ProbeNext(t: Tid, off: nat, ghost mark: nat, ghost from: nat) returns (found: Option<Task>, ghost at: nat)
      requires t < |threads| && threads[t].pc == Scan(off) && off < |locals| && Holds(t, threads[t], mark, |locals|)
      requires from < |past| && MissedSoFar(t, from)
      modifies this
      ensures Holds(t, old(threads[t]).(pc := Found(found, Scan(off + 1))), mark, |old(locals)|)
      ensures old(past) <= past && |old(past)| - 1 <= at == |past| - 2
      ensures if found.Some? then FoundAt(past, t, from, at, found.value) else MissedSoFar(t, from)
      ensures old(env) == [] ==>
                && env == [] && (found.None? ==> locals == old(locals))
                && ScanFirst(old(View()), t, off) == if found.Some? then found else ScanFirst(View(), t, off + 1)
    {
      hide IsRun, Placed, Cleared, Probe, MissedIn, ClearedBelow;
      Interfere(t, mark);
      ghost var here, before := View(), past;
      found := ProbeQueue(t, off, mark);
      at := |past| - 2;
      assert past[at] == here && Source(here, t) == here.locals[Probe(Index(here, t), off, |here.locals|)];
      StillMissed(old(past), past, t, from, 2 + off);
      if found.None? {
        MissedNow(past, t, from, at);
        SameScan(here, View(), t, off + 1);
      }
    }

    // try_executing_one. A task that it finds was the front of its source at the recorded state at, and
    // each earlier source, in the order own queue, main queue, the others, was empty when the search
    // looked at it; the task then does what the script says, at the recorded states acts. When the
    // search finds none, each source was empty when it looked, and every task submitted before the call
    // has left the queues. Alone it takes the front of the first source that has a task.
    method TryExecutingOne(t: Tid, script: Script) returns (found: Option<Task>, ghost at: nat, ghost acts: seq<nat>)
      requires t < |threads| && Valid() && threads[t].pc.Idle?
      modifies this
      ensures Valid() && old(past) <= past && t < |threads| && threads[t] == old(threads[t])
      ensures old(submitted) <= submitted && |old(past)| < |past| && past[|old(past)|] == Step(old(View()), Begin(t))
      ensures found.None? ==> forall x: Task :: x < old(submitted) ==> OutOfQueues(View(), x)
      ensures found.None? ==> forall r :: 0 <= r < 2 + |locals| ==> MissedIn(past, t, |old(past)|, r)
      ensures found.Some? ==> |old(past)| <= at < |past| - 1 && FoundAt(past, t, |old(past)|, at, found.value)
      ensures found.Some? ==> found.value !in old(finished) && Occurs(finished, found.value) == 1
      ensures found.Some? ==>
                (forall i :: 0 <= i < |acts| ==> at < acts[i]) &&
                CarriesOut(past, t, old(threads[t]).stack + [found.value], Todo(t, script), acts)
      ensures old(env) == [] ==> found == FirstFound(old(View()), t)
      decreases script, 2
    {
      hide IsRun, Placed, Cleared, MissedIn, FoundAt, CarriesOut, Step, FirstFound, Todo;
      ghost var from := |past|;
      acts := [];
      found, at := Search(t);
      ghost var searched := past;
      if found.Some? {
        acts := RunTask(t, found.value, script);
        FoundStays(searched, past, t, from, at, found.value);
        WasNotFinished(past, workers, outside, t, found.value, from, at);
      } else {
        GiveUp(t, old(submitted));
        StillMissed(searched, past, t, from, 2 + |locals|);
      }
    }

    // The three sources in turn.
    method Search(t: Tid) returns (found: Option<Task>, ghost at: nat)
      requires t < |threads| && Valid() && threads[t].pc.Idle?
      modifies this
      ensures old(past) <= past && |old(past)| < |past| && past[|old(past)|] == Step(old(View()), Begin(t))
      ensures Holds(t, old(threads[t]).(pc := Found(found, Scan(|locals|))), old(submitted), |old(locals)|)
      ensures found.None? ==> forall r :: 0 <= r < 2 + |locals| ==> MissedIn(past, t, |old(past)|, r)
      ensures found.Some? ==> |old(past)| <= at < |past| - 1 && FoundAt(past, t, |old(past)|, at, found.value)
      ensures old(env) == [] ==> env == [] && found == FirstFound(old(View()), t)
    {
      ghost var mark, from := submitted, |past|;
      StartSearch(t);
      hide IsRun, Placed, Cleared, Probe, MissedIn, FoundAt, Step, FirstFound, FoundElsewhere, ScanFirst;
      found, at := LookAtOwn(t, mark, from);
      if found.None? { found, at := LookAtMain(t, mark, from); }
      if found.None? { found, at := StealFromOtherTasks(t, mark, from); }
    }

    method StartSearch(t: Tid)
      requires t < |threads| && Valid() && threads[t].pc.Idle?
      modifies this`threads, this`past
      ensures past == old(past) + [View()] && View() == Step(old(View()), Begin(t))
      ensures Holds(t, old(threads[t]).(pc := TryLocal), submitted, |locals|) && env == old(env)
      ensures submitted == old(submitted) && |locals| == |old(locals)|
      ensures FirstFound(View(), t) == FirstFound(old(View()), t)
    {
      SameScan(View(), View().(threads := threads[t := threads[t].(pc := TryLocal)]), t, 0);
      StepKeepsAll(View(), Begin(t), t, 0);
      threads := threads[t := threads[t].(pc := TryLocal)];
      assert ClearedBelow(t, submitted);
      hide IsRun, Placed, Cleared;
      Record(Begin(t));
    }

    method LookAtOwn(t: Tid, ghost mark: nat, ghost from: nat) returns (found: Option<Task>, ghost at: nat)
      requires t < |threads| && threads[t].pc.TryLocal? && Holds(t, threads[t], mark, |locals|) && from < |past|
      modifies this
      ensures Holds(t, old(threads[t]).(pc := Found(found, TryMain)), mark, |old(locals)|)
      ensures old(past) <= past && |old(past)| - 1 <= at == |past| - 2
      ensures if found.Some? then FoundAt(past, t, from, at, found.value) else MissedSoFar(t, from)
      ensures old(env) == [] ==>
                && env == [] && FirstFound(old(View()), t) == if found.Some? then found else FoundElsewhere(View(), t)
    {
      hide IsRun, Placed, Cleared, Probe, MissedIn, ClearedBelow, ScanFirst;
      Interfere(t, mark);
      ghost var here := View();
      found := FromLocalTasks(t, mark);
      at := |past| - 2;
      assert past[at] == here;
      if found.None? {
        MissedNow(past, t, from, at);
        SameScan(here, View(), t, 0);
      }
    }

    method LookAtMain(t: Tid, ghost mark: nat, ghost from: nat) returns (found: Option<Task>, ghost at: nat)
      requires t < |threads| && threads[t].pc.TryMain? && Holds(t, threads[t], mark, |locals|) && from < |past|
      requires MissedSoFar(t, from)
      modifies this
      ensures Holds(t, old(threads[t]).(pc := Found(found, Scan(0))), mark, |old(locals)|)
      ensures old(past) <= past && |old(past)| - 1 <= at == |past| - 2
      ensures if found.Some? then FoundAt(past, t, from, at, found.value) else MissedSoFar(t, from)
      ensures old(env) == [] ==>
                && env == [] && FoundElsewhere(old(View()), t) == if found.Some? then found else ScanFirst(View(), t, 0)
    {
      hide IsRun, Placed, Cleared, Probe, MissedIn, ClearedBelow, ScanFirst;
      Interfere(t, mark);
      ghost var here := View();
      found := FromMainTasks(t, mark);
      at := |past| - 2;
      assert past[at] == here;
      StillMissed(old(past), past, t, from, 1);
      if found.None? {
        MissedNow(past, t, from, at);
        SameScan(here, View(), t, 0);
      }
    }

    // The search has failed: the thread yields.
    method GiveUp(t: Tid, ghost mark: nat)
      requires t < |threads| && threads[t].pc == Scan(|locals|) && Holds(t, threads[t], mark, |locals|)
      modifies this`threads, this`past
      ensures Valid() && past == old(past) + [View()] && t < |threads| && threads[t] == old(threads[t]).(pc := Idle)
      ensures forall x: Task :: x < mark ==> OutOfQueues(View(), x)
    {
      hide IsRun, Placed, Cleared;
      forall x: Task | x < mark ensures OutOfQueues(View(), x) { AllCleared(View(), t, x); }
      StepKeepsAll(View(), Go(t), t, 0);
      ghost var failed := View();
      threads := threads[t := threads[t].(pc := Idle)];
      forall x: Task | x < mark ensures OutOfQueues(View(), x) { assert OutOfQueues(failed, x); }
      Record(Go(t));
    }

    // task(): it runs on top of whatever the thread is running already, does what the script says, and
    // the thread comes back to what was below.
    method RunTask(t: Tid, task: Task, script: Script) returns (ghost acts: seq<nat>)
      requires t < |threads| && Valid() && threads[t].pc == Holding(task)
      modifies this
      ensures Valid() && old(past) <= past && t < |threads| && threads[t] == old(threads[t]).(pc := Idle)
      ensures old(submitted) <= submitted && Occurs(finished, task) == 1
      ensures forall i :: 0 <= i < |acts| ==> |old(past)| <= acts[i]
      ensures CarriesOut(past, t, old(threads[t]).stack + [task], Todo(t, script), acts)
      decreases script, 1
    {
      hide IsRun, Placed, Cleared, CarriesOut, Todo;
      Begins(t, task);
      acts := RunBody(t, script);
      ghost var before := past;
      Ends(t, task);
      CarriedStays(before, past, t, old(threads[t]).stack + [task], Todo(t, script), acts);
    }

    method Begins(t: Tid, task: Task)
      requires t < |threads| && Valid() && threads[t].pc == Holding(task)
      modifies this
      ensures Valid() && past == old(past) + [View()] && env == old(env) && t < |threads| && submitted == old(submitted)
      ensures threads[t] == Thread(Idle, old(threads[t]).stack + [task])
    {
      hide IsRun, Placed, Cleared;
      StepKeepsAll(View(), Go(t), t, 0);
      threads := threads[t := Thread(Idle, threads[t].stack + [task])];
      started := started + [task];
      Record(Go(t));
    }

    method Ends(t: Tid, task: Task)
      requires t < |threads| && Valid() && threads[t].pc.Idle?
      requires threads[t].stack != [] && threads[t].stack[|threads[t].stack| - 1] == task
      modifies this
      ensures Valid() && past == old(past) + [View()] && env == old(env) && t < |threads| && submitted == old(submitted)
      ensures threads[t] == Thread(Idle, old(threads[t]).stack[..|old(threads[t]).stack| - 1])
      ensures Occurs(finished, task) == 1
    {
      hide IsRun, Placed, Cleared;
      StepKeepsAll(View(), Finish(t), t, 0);
      finished := finished + [task];
      threads := threads[t := threads[t].(stack := threads[t].stack[..|threads[t].stack| - 1])];
      Record(Finish(t));
      FinishedOnce(View(), task);
    }

    method RunBody(t: Tid, script: Script) returns (ghost acts: seq<nat>)
      requires t < |threads| && Valid() && threads[t].pc.Idle?
      modifies this
      ensures Valid() && old(past) <= past && t < |threads| && threads[t] == old(threads[t])
      ensures old(submitted) <= submitted
      ensures forall i :: 0 <= i < |acts| ==> |old(past)| - 1 <= acts[i]
      ensures CarriesOut(past, t, old(threads[t]).stack, Todo(t, script), acts)
      decreases script, 0
    {
      hide IsRun, Placed, Cleared, CarriesOut, Step;
      Interfere(t, 0);
      ghost var at, stack := |past| - 1, threads[t].stack;
      ghost var here := View();
      acts := [];
      match script {
        case Ends => CarriesNothing(past, t, stack);
        case Submits(rest) =>
          var _ := Submit(t);
          assert DoneAt(past, t, stack, CtrPool.Submit(t), at);
          ghost var done := past;
          var later := RunBody(t, rest);
          acts := [at] + later;
          CarriesOneMore(done, past, t, stack, CtrPool.Submit(t), at, Todo(t, rest), later);
        case Searches(inner, rest) =>
          var _, _, _ := TryExecutingOne(t, inner);
          assert DoneAt(past, t, stack, Begin(t), at);
          ghost var done := past;
          var later := RunBody(t, rest);
          acts := [at] + later;
          CarriesOneMore(done, past, t, stack, Begin(t), at, Todo(t, rest), later);
      }
    }
  }

  // Task x is in no queue.
  ghost predicate OutOfQueues(s: State, x: Task) {
    x !in s.main && forall q :: 0 <= q < |s.locals| ==> x !in s.locals[q]
  }

  // Where a thread is after it has looked for a task.
  function Found(found: Option<Task>, otherwise: Pc): Pc {
    if found.Some? then Holding(found.value) else otherwise
  }

  lemma FinishedOnce(s: State, task: Task)
    requires Placed(s, task) && task in s.finished
    ensures Occurs(s.finished, task) == 1
  {
  }

  // A step of another thread leaves thread t where it is.
  lemma OthersStep(s: State, a: Action, t: Tid)
    requires t < |s.threads| && a.t != t
    ensures t < |Step(s, a).threads| && Step(s, a).threads[t] == s.threads[t]
  {
  }

  // The place of a source in the order of a search: own queue, main queue, the probed ones.
  function Rank(pc: Pc): nat {
    match pc case TryLocal => 0 case TryMain => 1 case Scan(off) => 2 + off case _ => 0
  }

  // After place from, thread t has looked at its source number r and found it empty.
  ghost predicate MissedIn(past: seq<State>, t: Tid, from: nat, r: nat) {
    exists i :: from <= i < |past| && Misses(past[i], t, r)
  }

  predicate Misses(s: State, t: Tid, r: nat) {
    && t < |s.threads| && (s.threads[t].pc.TryLocal? || s.threads[t].pc.TryMain? || s.threads[t].pc.Scan?)
    && Rank(s.threads[t].pc) == r && Source(s, t) == []
  }

  // At place at, thread t takes the front of its source, x; it has found all earlier sources empty.
  ghost predicate FoundAt(past: seq<State>, t: Tid, from: nat, at: nat, x: Task)
    requires at < |past| - 1
  {
    && t < |past[at].threads| && Source(past[at], t) != [] && Source(past[at], t)[0] == x
    && past[at + 1] == Step(past[at], Go(t))
    && forall r :: 0 <= r < Rank(past[at].threads[t].pc) ==> MissedIn(past, t, from, r)
  }

  // What a search by t alone finds.
  function FirstFound(s: State, t: Tid): Option<Task> {
    if t < |s.locals| && s.locals[t] != [] then Some(s.locals[t][0])
    else FoundElsewhere(s, t)
  }

  function FoundElsewhere(s: State, t: Tid): Option<Task> {
    if s.main != [] then Some(s.main[0]) else ScanFirst(s, t, 0)
  }

  function ScanFirst(s: State, t: Tid, off: nat): Option<Task>
    decreases |s.locals| - off
  {
    if off >= |s.locals| then None
    else
      var q := Probe(Index(s, t), off, |s.locals|);
      if s.locals[q] != [] then Some(s.locals[q][0]) else ScanFirst(s, t, off + 1)
  }

  // What a script does itself, one step for each submission and for the beginning of each search.
  function Todo(t: Tid, script: Script): seq<Action> {
    match script
    case Ends => []
    case Submits(rest) => [Submit(t)] + Todo(t, rest)
    case Searches(_, rest) => [Begin(t)] + Todo(t, rest)
  }

  // Thread t, with this stack, does these things in this order, at these places.
  ghost predicate CarriesOut(past: seq<State>, t: Tid, stack: seq<Task>, todo: seq<Action>, acts: seq<nat>) {
    && |acts| == |todo|
    && (forall i, j :: 0 <= i < j < |acts| ==> acts[i] < acts[j])
    && forall i :: 0 <= i < |acts| ==> DoneAt(past, t, stack, todo[i], acts[i])
  }

  predicate DoneAt(past: seq<State>, t: Tid, stack: seq<Task>, a: Action, at: nat) {
    && at + 1 < |past| && t < |past[at].threads| && past[at].threads[t] == Thread(Idle, stack)
    && past[at + 1] == Step(past[at], a)
  }

  // What holds of the places of a run holds of them when it goes on.
  lemma StillMissed(past: seq<State>, past': seq<State>, t: Tid, from: nat, bound: nat)
    requires past <= past' && forall r :: 0 <= r < bound ==> MissedIn(past, t, from, r)
    ensures forall r :: 0 <= r < bound ==> MissedIn(past', t, from, r)
  {
    forall r | 0 <= r < bound ensures MissedIn(past', t, from, r) {
      assert MissedIn(past, t, from, r);
      var i :| from <= i < |past| && Misses(past[i], t, r);
      assert Misses(past'[i], t, r);
    }
  }

  lemma MissedNow(past: seq<State>, t: Tid, from: nat, at: nat)
    requires from <= at < |past| && t < |past[at].threads| && Misses(past[at], t, Rank(past[at].threads[t].pc))
    ensures MissedIn(past, t, from, Rank(past[at].threads[t].pc))
  {
  }

  lemma FoundStays(past: seq<State>, past': seq<State>, t: Tid, from: nat, at: nat, x: Task)
    requires past <= past' && at < |past| - 1 && FoundAt(past, t, from, at, x)
    ensures FoundAt(past', t, from, at, x)
  {
    StillMissed(past, past', t, from, Rank(past[at].threads[t].pc));
    hide MissedIn, Step, Source;
  }

  lemma {:induction false} SameScan(s: State, s': State, t: Tid, off: nat)
    requires s'.locals == s.locals
    ensures ScanFirst(s', t, off) == ScanFirst(s, t, off)
    decreases |s.locals| - off
  {
    hide Probe;
    if off < |s.locals| { SameScan(s, s', t, off + 1); }
  }

  lemma CarriesNothing(past: seq<State>, t: Tid, stack: seq<Task>)
    ensures CarriesOut(past, t, stack, [], [])
  {
  }

  lemma CarriedStays(past: seq<State>, past': seq<State>, t: Tid, stack: seq<Task>, todo: seq<Action>, acts: seq<nat>)
    requires past <= past' && CarriesOut(past, t, stack, todo, acts)
    ensures CarriesOut(past', t, stack, todo, acts)
  {
    hide Step;
    forall i | 0 <= i < |acts| ensures DoneAt(past', t, stack, todo[i], acts[i]) {
      assert DoneAt(past, t, stack, todo[i], acts[i]);
    }
  }

  lemma CarriesOneMore(past: seq<State>, past': seq<State>, t: Tid, stack: seq<Task>, a: Action, at: nat,
                       todo: seq<Action>, later: seq<nat>)
    requires past <= past' && DoneAt(past, t, stack, a, at) && CarriesOut(past', t, stack, todo, later)
    requires forall i :: 0 <= i < |later| ==> |past| - 1 <= later[i]
    ensures CarriesOut(past', t, stack, [a] + todo, [at] + later)
  {
    hide Step;
    var acts, all := [at] + later, [a] + todo;
    forall i | 0 <= i < |acts| ensures DoneAt(past', t, stack, all[i], acts[i]) {
      if i > 0 { assert DoneAt(past', t, stack, todo[i - 1], later[i - 1]); }
    }
  }

  // A task found in a queue had not been finished before.
  lemma WasNotFinished(past: seq<State>, workers: nat, outside: nat, t: Tid, x: Task, from: nat, at: nat)
    requires IsRun(past, workers, outside) && 0 < from <= at < |past| - 1 && FoundAt(past, t, from, at, x)
    ensures x !in past[from - 1].finished
  {
    RunReaches(past, workers, outside, at);
    var run :| Exec(Init(workers, outside), run) == past[at];
    QueuedNotFinished(workers, outside, run, t, x);
    RunFinishes(past, workers, outside, from - 1, at);
  }
}
