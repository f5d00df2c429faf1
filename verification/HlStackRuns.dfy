/**
 What holds in every run of the high-load stack: it is linearizable, conserves its
 values, touches only allocated nodes and leaks none.
 */
module HlStackRuns {
  import opened Prelude
  import opened HlStack

  // ----- Linearizability -----

  // The values of the linked nodes, bottom first.
  function Contents(s: State): seq<Value> {
    seq(|s.chain|, i requires 0 <= i < |s.chain| => Datum(s.heap, s.chain[i]))
  }

  // The sequential stack: None when an event is impossible.
  function Apply(stack: seq<Value>, e: Effect): Option<seq<Value>> {
    match e
    case Pushed(_, v) => Some(stack + [v])
    case Popped(_, v) =>
      if stack != [] && stack[|stack| - 1] == v then Some(stack[..|stack| - 1]) else None
    case SawEmpty(_) => if stack == [] then Some(stack) else None
  }

  function Replay(log: seq<Effect>): Option<seq<Value>> {
    if log == [] then Some([])
    else match Replay(log[..|log| - 1])
      case None => None
      case Some(stack) => Apply(stack, log[|log| - 1])
  }

  // The events of one thread, in order.
  function Project(log: seq<Effect>, t: Tid): seq<Effect> {
    if log == [] then []
    else Project(log[..|log| - 1], t) + if log[|log| - 1].t == t then [log[|log| - 1]] else []
  }

  // The event of an operation that has taken effect but has not returned.
  function Pending(s: State, t: Tid): seq<Effect>
    requires t in s.threads
  {
    match s.threads[t].pc
    case PullTake(seen) => [Popped(t, Datum(s.heap, seen.ptr))]
    case PullMerge(_, res) => [Response(t, res)]
    case PullFree(_, res) => [Response(t, res)]
    case _ => []
  }

  // The log is a legal history of a sequential stack that ends in the present
  // contents, and every thread got exactly its own events as responses.
  ghost predicate Lin(s: State) {
    && Replay(s.log) == Some(Contents(s))
    && forall t :: t in s.threads ==> s.threads[t].returned + Pending(s, t) == Project(s.log, t)
  }

  // Steps that take no effect: data of linked and of others' won nodes stay.
  lemma LinStays(s: State, s': State, t: Tid)
    requires Inv(s) && Lin(s) && t in s.threads && t in s'.threads
    requires s'.threads == s.threads[t := s'.threads[t]]
    requires s'.log == s.log && s'.chain == s.chain
    requires s'.threads[t].returned + Pending(s', t) == s.threads[t].returned + Pending(s, t)
    requires forall m :: m in s.phase && (s.phase[m].Linked? || (s.phase[m].Won? && s.phase[m].t != t)) ==>
               Datum(s'.heap, m) == Datum(s.heap, m)
    ensures Lin(s')
  {
    forall i | 0 <= i < |s.chain| ensures Datum(s'.heap, s.chain[i]) == Datum(s.heap, s.chain[i]) {
      assert LinkOk(s, i);
    }
    assert Contents(s') == Contents(s);
    forall u | u in s'.threads ensures s'.threads[u].returned + Pending(s', u) == Project(s'.log, u) {
      if u != t {
        assert PcOk(s, u);
        assert Pending(s', u) == Pending(s, u);
      }
    }
  }

  // Steps that take effect: one event of thread t.
  lemma LinGrows(s: State, s': State, t: Tid, e: Effect)
    requires Inv(s) && Lin(s) && t in s.threads && t in s'.threads && e.t == t
    requires s'.threads == s.threads[t := s'.threads[t]] && s'.heap == s.heap
    requires s'.log == s.log + [e]
    requires Apply(Contents(s), e) == Some(Contents(s'))
    requires s'.threads[t].returned + Pending(s', t) == s.threads[t].returned + Pending(s, t) + [e]
    ensures Lin(s')
  {
    assert s'.log[..|s'.log| - 1] == s.log;
    forall u | u in s'.threads ensures s'.threads[u].returned + Pending(s', u) == Project(s'.log, u) {
      assert u != t ==> Pending(s', u) == Pending(s, u);
    }
  }

  lemma PushLin(s: State, t: Tid, n: Addr)
    requires Inv(s) && Lin(s) && StandsAt(s, t, PushTry(n)) && s.heap[n].next == s.head
    ensures Lin(PushWin(s, t, n))
  {
    var s' := PushWin(s, t, n);
    assert Contents(s') == Contents(s) + [Datum(s.heap, n)];
    LinGrows(s, s', t, Pushed(t, Datum(s.heap, n)));
  }

  lemma EmptyLin(s: State, t: Tid, seen: Ref)
    requires Inv(s) && Lin(s) && StandsAt(s, t, PullIncrement(seen))
    requires s.head == seen && seen.ptr == NULL
    ensures Lin(IncrementWin(s, t, seen))
  {
    NullHead(s);
    assert Contents(IncrementWin(s, t, seen)) == Contents(s) == [];
    LinGrows(s, IncrementWin(s, t, seen), t, SawEmpty(t));
  }

  lemma PopLin(s: State, t: Tid, seen: Ref, next: Ref)
    requires Inv(s) && Lin(s) && StandsAt(s, t, PullCas(seen, next)) && s.head == seen
    ensures Lin(CasWin(s, t, seen, next))
  {
    var s' := CasWin(s, t, seen, next);
    WinnerOnTop(s, t, seen, next);
    assert Contents(s') == Contents(s)[..|s.chain| - 1];
    LinGrows(s, s', t, Popped(t, Datum(s.heap, seen.ptr)));
  }

  lemma HeapUntouched(s: State, t: Tid, x: Thread, h: Ref)
    requires Inv(s) && Lin(s) && t in s.threads && !s.threads[t].pc.PullTake?
    requires !x.pc.PullTake? && !x.pc.PullMerge? && !x.pc.PullFree?
    requires !s.threads[t].pc.PullMerge? && !s.threads[t].pc.PullFree? && x.returned == s.threads[t].returned
    ensures Lin(s.(threads := s.threads[t := x], head := h))
  {
    LinStays(s, s.(threads := s.threads[t := x], head := h), t);
  }

  lemma TakeLin(s: State, t: Tid, seen: Ref)
    requires Inv(s) && Lin(s) && StandsAt(s, t, PullTake(seen)) && seen.ptr in s.heap
    ensures Lin(Take(s, t, seen))
  {
    assert PcOk(s, t);
    LinStays(s, Take(s, t, seen), t);
  }

  lemma MergeLin(s: State, t: Tid, seen: Ref, res: Option<Value>)
    requires Inv(s) && Lin(s) && StandsAt(s, t, PullMerge(seen, res)) && seen.ptr in s.heap
    ensures Lin(Merge(s, t, seen, res))
  {
    LinStays(s, Merge(s, t, seen, res), t);
  }

  lemma DecrementLin(s: State, t: Tid, n: Addr, seen: Ref)
    requires Inv(s) && Lin(s) && StandsAt(s, t, Release(n, seen)) && n in s.heap
    ensures Lin(Decrement(s, t, n, seen))
  {
    hide Inv, Lin;
    var s' := Decrement(s, t, n, seen);
    assert Pending(s', t) == Pending(s, t) == [];
    assert forall m :: Datum(s'.heap, m) == Datum(s.heap, m);
    LinStays(s, s', t);
  }

  lemma DeleteLin(s: State, t: Tid, n: Addr, x: Thread)
    requires Inv(s) && Lin(s) && t in s.threads
    requires s.threads[t].pc.PullFree? || s.threads[t].pc.Drop?
    requires s.threads[t].pc.node == n && (x.pc.Idle? || x.pc.PullIncrement?)
    requires x.returned == s.threads[t].returned + Pending(s, t)
    ensures Lin(Delete(s, n, s.threads[t := x]))
  {
    assert PcOk(s, t);
    LinStays(s, Delete(s, n, s.threads[t := x]), t);
  }

  lemma PushLoseLin(s: State, t: Tid, n: Addr)
    requires Inv(s) && Lin(s) && StandsAt(s, t, PushTry(n))
    ensures n in s.heap && Lin(PushLose(s, t, n))
  {
    assert PcOk(s, t);
    assert PushLose(s, t, n).threads == s.threads[t := s.threads[t]];
    LinStays(s, PushLose(s, t, n), t);
  }

  lemma AdvanceLin(s: State, t: Tid, spurious: bool)
    requires Inv(s) && Lin(s) && t in s.threads && Advance(s, t, spurious).Ok?
    ensures Lin(Advance(s, t, spurious).state)
  {
    var s' := Advance(s, t, spurious).state;
    match s.threads[t].pc
    case Idle =>
    case PushTry(n) =>
      if !spurious && s.head == s.heap[n].next { PushLin(s, t, n); } else { PushLoseLin(s, t, n); }
    case PullIncrement(seen) =>
      if s.head == seen && seen.ptr == NULL { EmptyLin(s, t, seen); }
      else { HeapUntouched(s, t, s'.threads[t], s'.head); }
    case PullCas(seen, next) =>
      if s.head == seen { PopLin(s, t, seen, next); } else { HeapUntouched(s, t, s'.threads[t], s'.head); }
    case PullTake(seen) => TakeLin(s, t, seen);
    case PullMerge(seen, res) => MergeLin(s, t, seen, res);
    case PullFree(n, res) => DeleteLin(s, t, n, s'.threads[t]);
    case Release(n, seen) => DecrementLin(s, t, n, seen);
    case Drop(n, seen) => DeleteLin(s, t, n, s'.threads[t]);
    case PullLoad => HeapUntouched(s, t, s'.threads[t], s'.head);
    case PullRead(seen) => HeapUntouched(s, t, s'.threads[t], s'.head);
    case Fence(n, seen) => HeapUntouched(s, t, s'.threads[t], s'.head);
  }

  lemma StepLin(s: State, a: Action)
    requires Inv(s) && Lin(s) && Step(s, a).Ok?
    ensures Lin(Step(s, a).state)
  {
    if a.t in s.threads {
      match a
      case StartPush(t, v, n) =>
        if s.threads[t].pc.Idle? && n != NULL && n !in s.heap { LinStays(s, Step(s, a).state, t); }
      case StartPull(t) => 
        if s.threads[t].pc.Idle? { LinStays(s, Step(s, a).state, t); }
      case Go(t, spurious) => AdvanceLin(s, t, spurious);
    }
  }

  lemma {:induction false} RunKeeps(s: State, run: seq<Action>)
    requires Inv(s) && Lin(s)
    ensures Exec(s, run).Ok? && Inv(Exec(s, run).state) && Lin(Exec(s, run).state)
    decreases |run|
  {
    if run != [] {
      StepKeeps(s, run[0]);
      StepLin(s, run[0]);
      RunKeeps(Step(s, run[0]).state, run[1..]);
    }
  }

  // ----- Main results -----

  lemma InitOk(tids: set<Tid>)
    ensures Inv(Init(tids)) && Lin(Init(tids))
  {
    var s := Init(tids);
    forall t | t in s.threads ensures s.threads[t].returned + Pending(s, t) == Project(s.log, t) {}
    assert Contents(s) == [];
  }

  ghost predicate Reachable(tids: set<Tid>, s: State) {
    exists run :: Exec(Init(tids), run) == Ok(s)
  }

  ghost predicate StepTo(s: State, s': State) {
    exists a :: Step(s, a) == Ok(s')
  }

  // In past, a step leads from place i to the next one.
  ghost predicate StepAt(past: seq<State>, i: nat)
    requires i < |past| - 1
  {
    StepTo(past[i], past[i + 1])
  }

  // The states of a run, one after another.
  ghost predicate IsRun(past: seq<State>, tids: set<Tid>) {
    past != [] && past[0] == Init(tids) && forall i :: 0 <= i < |past| - 1 ==> StepAt(past, i)
  }

  lemma {:induction false} RunReaches(past: seq<State>, tids: set<Tid>, i: nat)
    requires IsRun(past, tids) && i < |past|
    ensures Reachable(tids, past[i])
  {
    if i == 0 {
      assert Exec(Init(tids), []) == Ok(Init(tids));
    } else {
      RunReaches(past, tids, i - 1);
      assert StepAt(past, i - 1);
      var a :| Step(past[i - 1], a) == Ok(past[i]);
      var run :| Exec(Init(tids), run) == Ok(past[i - 1]);
      ExecSnoc(Init(tids), run, a);
    }
  }

  // No run touches a deleted node or deletes a node twice: such a step would be a Fault.
  lemma MemorySafe(tids: set<Tid>, run: seq<Action>)
    ensures Exec(Init(tids), run).Ok?
  {
    InitOk(tids);
    RunKeeps(Init(tids), run);
  }

  lemma ReachableOk(tids: set<Tid>, s: State)
    requires Reachable(tids, s)
    ensures Inv(s) && Lin(s)
  {
    var run :| Exec(Init(tids), run) == Ok(s);
    InitOk(tids);
    RunKeeps(Init(tids), run);
  }

  // The linked list that starts at pointer p is exactly this chain, bottom first.
  ghost predicate IsList(heap: map<Addr, Node>, p: Addr, chain: seq<Addr>)
    decreases |chain|
  {
    if chain == [] then p == NULL
    else p == chain[|chain| - 1] && p != NULL && p in heap && IsList(heap, heap[p].next.ptr, chain[..|chain| - 1])
  }

  lemma {:induction false} ChainIsList(s: State, k: nat)
    requires Inv(s) && k <= |s.chain|
    ensures IsList(s.heap, if k == 0 then NULL else s.chain[k - 1], s.chain[..k])
    decreases k
  {
    if k > 0 {
      ChainIsList(s, k - 1);
      assert s.chain[..k][..k - 1] == s.chain[..k - 1];
      assert LinkOk(s, k - 1) && NodeOk(s, s.chain[k - 1]);
      if k > 1 { assert LinkOk(s, k - 2); }
    }
  }

  // The reference counts always balance: a node reachable from head has external count - 1
  // + internal count = number of threads holding it, and once its winner has merged, its
  // internal count is the number of threads still holding it.
  lemma CountsBalance(tids: set<Tid>, s: State)
    requires Reachable(tids, s)
    ensures IsList(s.heap, s.head.ptr, s.chain)
    ensures forall i :: 0 <= i < |s.chain| ==>
              s.chain[i] in s.heap && Link(s, i).ptr == s.chain[i] &&
              Link(s, i).count - 1 + s.heap[s.chain[i]].count == |Holders(s, s.chain[i])|
    ensures forall n :: n in s.heap && n in s.phase && s.phase[n].Shared? ==>
              s.heap[n].count == |Holders(s, n)| > 0
  {
    ReachableOk(tids, s);
    NullHead(s);
    ChainIsList(s, |s.chain|);
    assert s.chain[..|s.chain|] == s.chain;
    forall i | 0 <= i < |s.chain|
      ensures s.chain[i] in s.heap && Link(s, i).ptr == s.chain[i] &&
              Link(s, i).count - 1 + s.heap[s.chain[i]].count == |Holders(s, s.chain[i])|
    {
      assert LinkOk(s, i);
    }
    forall n | n in s.heap && n in s.phase && s.phase[n].Shared?
      ensures s.heap[n].count == |Holders(s, n)| > 0
    {
      assert NodeOk(s, n);
    }
  }

  // No thread is past the increment of a pull or owns an unpublished node.
  predicate Quiet(s: State) {
    forall t :: t in s.threads ==>
      s.threads[t].pc.Idle? || s.threads[t].pc.PullLoad? || s.threads[t].pc.PullIncrement?
  }

  // Nothing leaks: when no thread holds a node, the allocated nodes are those reachable from head.
  lemma NothingLeaks(tids: set<Tid>, s: State)
    requires Reachable(tids, s) && Quiet(s)
    ensures IsList(s.heap, s.head.ptr, s.chain)
    ensures s.heap.Keys == set n | n in s.chain
  {
    CountsBalance(tids, s);
    ReachableOk(tids, s);
    forall n ensures n in s.heap <==> n in s.chain {
      if n in s.chain {
        var i :| 0 <= i < |s.chain| && s.chain[i] == n;
        assert LinkOk(s, i);
      }
      if n in s.heap {
        assert Holders(s, n) == {};
        assert NodeOk(s, n);
      }
    }
  }

  // Linearizability: the operations, ordered by the steps at which they took effect, form a
  // legal history of a sequential stack whose contents are the values linked from head, and
  // each thread was answered with exactly its own events of that history.
  lemma Linearizable(tids: set<Tid>, s: State)
    requires Reachable(tids, s)
    ensures Replay(s.log) == Some(Contents(s))
    ensures forall t :: t in s.threads ==> s.threads[t].returned + Pending(s, t) == Project(s.log, t)
  {
    ReachableOk(tids, s);
  }

  // The event of a step: of a push that wins its compare-exchange, of a pull that raises the count
  // of a null head, and of a pull that wins its compare-exchange.
  function EventOf(s: State, a: Action): seq<Effect> {
    if a.t !in s.threads || !a.Go? then []
    else match s.threads[a.t].pc
      case PushTry(n) =>
        if !a.spurious && n in s.heap && s.head == s.heap[n].next then [Pushed(a.t, Datum(s.heap, n))] else []
      case PullIncrement(seen) => if s.head == seen && seen.ptr == NULL then [SawEmpty(a.t)] else []
      case PullCas(seen, _) => if s.head == seen then [Popped(a.t, Datum(s.heap, seen.ptr))] else []
      case _ => []
  }

  lemma StepLog(s: State, a: Action)
    requires Step(s, a).Ok?
    ensures Step(s, a).state.log == s.log + EventOf(s, a)
  {
    if a.Go? && a.t in s.threads {
      match s.threads[a.t].pc
      case PushTry(_) =>
      case PullIncrement(_) =>
      case PullCas(_, _) =>
      case _ =>
    }
  }

  lemma NextEvent(s: State, s': State, event: seq<Effect>)
    requires Lin(s) && Lin(s') && s'.log == s.log + event && |event| <= 1
    ensures event == [] ==> Contents(s') == Contents(s)
    ensures event != [] ==> Apply(Contents(s), event[0]) == Some(Contents(s'))
  {
    hide Contents, Apply, Project, Pending;
    if event == [] { assert s'.log == s.log; } else { assert s'.log[..|s'.log| - 1] == s.log; }
  }

  // Each step of a run appends its own event, or none, to the history. Its event acts on the
  // contents as on a sequential stack; a step without an event leaves the contents alone.
  lemma StepRefines(tids: set<Tid>, s: State, a: Action)
    requires Reachable(tids, s)
    ensures Step(s, a).Ok? && Step(s, a).state.log == s.log + EventOf(s, a)
    ensures EventOf(s, a) == [] ==> Contents(Step(s, a).state) == Contents(s)
    ensures EventOf(s, a) != [] ==> Apply(Contents(s), EventOf(s, a)[0]) == Some(Contents(Step(s, a).state))
  {
    ReachableOk(tids, s);
    hide Inv, Lin, Contents, Apply, Step;
    StepKeeps(s, a);
    StepLin(s, a);
    StepLog(s, a);
    NextEvent(s, Step(s, a).state, EventOf(s, a));
  }

  function CountPushed(log: seq<Effect>, v: Value): nat {
    if log == [] then 0
    else CountPushed(log[..|log| - 1], v) + if log[|log| - 1].Pushed? && log[|log| - 1].v == v then 1 else 0
  }

  function CountPopped(log: seq<Effect>, v: Value): nat {
    if log == [] then 0
    else CountPopped(log[..|log| - 1], v) + if log[|log| - 1].Popped? && log[|log| - 1].v == v then 1 else 0
  }

  // A legal history conserves values.
  lemma {:induction false} ReplayConserves(log: seq<Effect>, v: Value)
    requires Replay(log).Some?
    ensures CountPushed(log, v) == CountPopped(log, v) + multiset(Replay(log).value)[v]
  {
    if log != [] {
      var init := log[..|log| - 1];
      ReplayConserves(init, v);
      var stack := Replay(init).value;
      if stack != [] {
        assert stack == stack[..|stack| - 1] + [stack[|stack| - 1]];
      }
    }
  }

  // Every pushed value is either still in the stack or was popped, as often as it was pushed.
  lemma Conserved(tids: set<Tid>, s: State, v: Value)
    requires Reachable(tids, s)
    ensures CountPushed(s.log, v) == CountPopped(s.log, v) + multiset(Contents(s))[v]
  {
    ReachableOk(tids, s);
    ReplayConserves(s.log, v);
  }

  lemma {:induction false} ProjectPopped(log: seq<Effect>, t: Tid, v: Value)
    ensures multiset(Project(log, t))[Popped(t, v)] == multiset(log)[Popped(t, v)] <= CountPopped(log, v)
    ensures forall u :: u != t ==>
              multiset(log)[Popped(t, v)] + multiset(log)[Popped(u, v)] <= CountPopped(log, v)
  {
    if log != [] {
      var init, last := log[..|log| - 1], log[|log| - 1];
      assert log == init + [last];
      ProjectPopped(init, t, v);
    }
  }

  // A value pushed once is returned at most once, whoever pulls and however often the head
  // returns to an earlier (count, pointer) pair.
  lemma ReturnedAtMostOnce(tids: set<Tid>, s: State, v: Value, t: Tid, u: Tid)
    requires Reachable(tids, s) && t in s.threads && u in s.threads
    requires CountPushed(s.log, v) <= 1
    ensures multiset(s.threads[t].returned)[Popped(t, v)] <= 1
    ensures t != u ==>
              multiset(s.threads[t].returned)[Popped(t, v)] + multiset(s.threads[u].returned)[Popped(u, v)] <= 1
  {
    ReachableOk(tids, s);
    Conserved(tids, s, v);
    ProjectPopped(s.log, t, v);
    ProjectPopped(s.log, u, v);
    assert multiset(s.threads[t].returned) <= multiset(s.threads[t].returned + Pending(s, t));
    assert multiset(s.threads[u].returned) <= multiset(s.threads[u].returned + Pending(s, u));
  }

  // ----- The head returns -----

  lemma {:induction false} ExecSnoc(s: State, run: seq<Action>, a: Action)
    requires Exec(s, run).Ok?
    ensures Exec(s, run + [a]) == Step(Exec(s, run).state, a)
    decreases |run|
  {
    if run == [] {
      assert (run + [a])[1..] == [];
    } else {
      assert (run + [a])[1..] == run[1..] + [a];
      ExecSnoc(Step(s, run[0]).state, run[1..], a);
    }
  }

  // State s' can be reached from s by steps of thread t alone.
  ghost predicate Leads(s: State, s': State, t: Tid) {
    exists run :: AllBy(run, t) && Exec(s, run) == Ok(s')
  }

  predicate AllBy(run: seq<Action>, t: Tid) {
    forall i :: 0 <= i < |run| ==> run[i].t == t
  }

  lemma Onward(s0: State, s: State, a: Action) returns (s': State)
    requires Leads(s0, s, a.t) && Step(s, a).Ok?
    ensures Step(s, a) == Ok(s') && Leads(s0, s', a.t)
  {
    var run :| AllBy(run, a.t) && Exec(s0, run) == Ok(s);
    ExecSnoc(s0, run, a);
    s' := Step(s, a).state;
    assert AllBy(run + [a], a.t);
  }

  lemma Nowhere(s: State, t: Tid)
    ensures Leads(s, s, t)
  {
    assert AllBy([], t) && Exec(s, []) == Ok(s);
  }

  // Thread 0 has pushed 7 into node 1 and is now pulling: it has raised the head's count to 2, read
  // the link and is about to move the head. Thread 1 has done nothing.
  function BeforeCas(): State {
    State(Ref(2, 1), map[1 := Node(Some(7), Ref(0, NULL), 0)],
          map[0 := Thread(PullCas(Ref(2, 1), Ref(0, NULL)), [Pushed(0, 7)]), 1 := Thread(Idle, [])],
          [1], map[1 := Linked(0)], [Pushed(0, 7)])
  }

  // The same after thread 1 has pushed 8 into node 2, pulled it again and deleted the node.
  function HeadBack(): State {
    BeforeCas().(threads := map[0 := Thread(PullCas(Ref(2, 1), Ref(0, NULL)), [Pushed(0, 7)]),
                                1 := Thread(Idle, [Pushed(1, 8), Popped(1, 8)])],
                 log := [Pushed(0, 7), Pushed(1, 8), Popped(1, 8)])
  }

  // Before that pull.
  function SevenIn(): State {
    BeforeCas().(head := Ref(1, 1), threads := map[0 := Thread(Idle, [Pushed(0, 7)]), 1 := Thread(Idle, [])])
  }

  lemma ReachSevenIn()
    ensures Leads(Init({0, 1}), SevenIn(), 0)
  {
    hide Leads;
    var s := Init({0, 1});
    Nowhere(s, 0);
    s := Onward(Init({0, 1}), s, StartPush(0, 7, 1));
    assert s.heap[1] == Node(Some(7), s.head, 0) && s.threads[0] == Thread(PushTry(1), []);
    s := Onward(Init({0, 1}), s, Go(0, false));
    assert s.threads[0].returned == [Pushed(0, 7)];
    assert s.heap == SevenIn().heap && s.threads == SevenIn().threads && s.phase == SevenIn().phase;
    assert s.chain == [1] && s.log == [Pushed(0, 7)];
    assert s == SevenIn();
  }

  lemma ReachBeforeCas()
    ensures Leads(Init({0, 1}), BeforeCas(), 0)
  {
    ReachSevenIn();
    hide Leads;
    var s := Onward(Init({0, 1}), SevenIn(), StartPull(0));
    s := Onward(Init({0, 1}), s, Go(0, false));
    assert s.threads[0] == Thread(PullIncrement(Ref(1, 1)), [Pushed(0, 7)]);
    s := Onward(Init({0, 1}), s, Go(0, false));
    s := Onward(Init({0, 1}), s, Go(0, false));
    assert s.threads == BeforeCas().threads;
    assert s == BeforeCas();
  }

  // Thread 1's push, and its pull up to the head CAS.
  function OnTop(): State {
    BeforeCas().(head := Ref(1, 2), chain := [1, 2],
                 heap := map[1 := Node(Some(7), Ref(0, NULL), 0), 2 := Node(Some(8), Ref(2, 1), 0)],
                 phase := map[1 := Linked(0), 2 := Linked(1)],
                 threads := map[0 := Thread(PullCas(Ref(2, 1), Ref(0, NULL)), [Pushed(0, 7)]),
                                1 := Thread(Idle, [Pushed(1, 8)])],
                 log := [Pushed(0, 7), Pushed(1, 8)])
  }

  function Above(): State {
    BeforeCas().(head := Ref(2, 1),
                 heap := map[1 := Node(Some(7), Ref(0, NULL), 0), 2 := Node(Some(8), Ref(2, 1), 0)],
                 phase := map[1 := Linked(0), 2 := Won(1)],
                 threads := map[0 := Thread(PullCas(Ref(2, 1), Ref(0, NULL)), [Pushed(0, 7)]),
                                1 := Thread(PullTake(Ref(2, 2)), [Pushed(1, 8)])],
                 log := [Pushed(0, 7), Pushed(1, 8), Popped(1, 8)])
  }

  lemma ReachOnTop()
    ensures Leads(BeforeCas(), OnTop(), 1)
  {
    hide Leads;
    var s := BeforeCas();
    Nowhere(s, 1);
    s := Onward(BeforeCas(), s, StartPush(1, 8, 2));
    assert s.heap[2] == Node(Some(8), s.head, 0) && s.threads[1].pc == PushTry(2) && s.threads[1].returned == [];
    s := Onward(BeforeCas(), s, Go(1, false));
    assert s.head == Ref(1, 2);
    assert s.chain == [1, 2] && s.heap == OnTop().heap && s.phase == OnTop().phase;
    assert s.threads[1].returned == [Pushed(1, 8)];
    assert s.threads == OnTop().threads && s.log == OnTop().log;
    assert s == OnTop();
  }

  lemma ReachAbove()
    ensures Leads(BeforeCas(), Above(), 1)
  {
    ReachOnTop();
    hide Leads;
    var s := Onward(BeforeCas(), OnTop(), StartPull(1));
    s := Onward(BeforeCas(), s, Go(1, false));
    s := Onward(BeforeCas(), s, Go(1, false));
    assert s.head == Ref(2, 2) && s.threads[1] == Thread(PullRead(Ref(2, 2)), [Pushed(1, 8)]);
    s := Onward(BeforeCas(), s, Go(1, false));
    s := Onward(BeforeCas(), s, Go(1, false));
    assert s.heap == Above().heap && s.threads == Above().threads && s.phase == Above().phase;
    assert s.chain == [1] && s.log == Above().log;
    assert s == Above();
  }

  lemma ReachHeadBack()
    ensures Leads(BeforeCas(), HeadBack(), 1)
  {
    ReachAbove();
    hide Leads;
    var s := Onward(BeforeCas(), Above(), Go(1, false));
    assert s.threads[1] == Thread(PullMerge(Ref(2, 2), Some(8)), [Pushed(1, 8)]);
    s := Onward(BeforeCas(), s, Go(1, false));
    assert s.threads[1] == Thread(PullFree(2, Some(8)), [Pushed(1, 8)]);
    s := Onward(BeforeCas(), s, Go(1, false));
    assert s.threads[1].returned == [Pushed(1, 8), Popped(1, 8)];
    assert s.heap == HeadBack().heap && s.threads == HeadBack().threads && s.phase == HeadBack().phase;
    assert s == HeadBack();
  }

  // The head does come back to an earlier (count, pointer) pair: between thread 0's increment and its
  // CAS another thread pushes and pulls, and the CAS still succeeds and takes the right value.
  lemma HeadComesBack()
    ensures Leads(Init({0, 1}), BeforeCas(), 0) && Leads(BeforeCas(), HeadBack(), 1)
    ensures HeadBack().head == BeforeCas().head && |HeadBack().log| == |BeforeCas().log| + 2
    ensures var out := Step(HeadBack(), Go(0, false));
            out.Ok? && out.state.head == Ref(0, NULL) && out.state.log == HeadBack().log + [Popped(0, 7)]
  {
    ReachBeforeCas();
    ReachHeadBack();
  }
}
