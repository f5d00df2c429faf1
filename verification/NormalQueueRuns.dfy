/**
 What holds in every run of the two-lock queue: it is a FIFO queue across any
 closes, the verdict on emptiness is right, and no two accesses meet at one node.
 */
module NormalQueueRuns {
  import opened Prelude
  import opened NormalQueue

  // ----- The history -----

  // A push past its move of tail, or a pull past its move of head, that has not returned.
  function PendingPush(pc: Pc): seq<Value> {
    if pc.PushUnlock? || pc.PushNotify? then [pc.v] else []
  }

  function PendingPull(pc: Pc): seq<Value> {
    if pc.PullUnlock? && pc.answer.Got? then [pc.answer.v] else []
  }

  ghost predicate ThreadLogOk(s: State, t: Tid)
    requires t in s.threads
  {
    && Of(s.pushed, t) == s.threads[t].sent + PendingPush(s.threads[t].pc)
    && Of(s.pulled, t) == s.threads[t].got + PendingPull(s.threads[t].pc)
  }

  ghost predicate Logged(s: State) {
    forall t :: t in s.threads ==> ThreadLogOk(s, t)
  }

  // The thread has passed tail and head with the same values.
  predicate SameResults(th: Thread, th': Thread) {
    && th'.sent + PendingPush(th'.pc) == th.sent + PendingPush(th.pc)
    && th'.got + PendingPull(th'.pc) == th.got + PendingPull(th.pc)
  }

  // A step that moves neither tail nor head.
  lemma LogStays(s: State, s': State)
    requires Logged(s) && s'.threads.Keys == s.threads.Keys
    requires s'.pushed == s.pushed && s'.pulled == s.pulled
    requires forall u :: u in s.threads ==> SameResults(s.threads[u], s'.threads[u])
    ensures Logged(s')
  {
    forall u | u in s'.threads ensures ThreadLogOk(s', u) { assert ThreadLogOk(s, u); }
  }

  lemma MoveTailLog(s: State, t: Tid, v: Value, n: Addr)
    requires Logged(s) && StandsAt(s, t, PushMove(v, n)) && n in s.heap
    ensures Logged(MoveTail(s, t, v, n))
  {
    var s' := MoveTail(s, t, v, n);
    forall u | u in s'.threads ensures ThreadLogOk(s', u) {
      assert ThreadLogOk(s, u);
      OfAppend(s.pushed, Event(t, v), u);
    }
  }

  lemma MoveHeadLog(s: State, t: Tid, rest: Addr, v: Value)
    requires Logged(s) && StandsAt(s, t, PopHead(rest, v))
    ensures Logged(MoveHead(s, t, rest, v))
  {
    var s' := MoveHead(s, t, rest, v);
    forall u | u in s'.threads ensures ThreadLogOk(s', u) {
      assert ThreadLogOk(s, u);
      OfAppend(s.pulled, Event(t, v), u);
    }
  }

  predicate Notifies(pc: Pc) {
    pc.PushNotify? || pc.CloseNotify?
  }

  // Only a notify changes the places of two threads.
  lemma OneThread(s: State, t: Tid, addr: nat)
    requires t in s.threads && Advance(s, t, addr).Ok? && !Notifies(s.threads[t].pc)
    ensures var s', pc := Advance(s, t, addr).state, s.threads[t].pc;
            && t in s'.threads && s'.threads == s.threads[t := s'.threads[t]] && s'.closed == s.closed
            && (!pc.PushMove? ==> s'.pushed == s.pushed)
            && (!pc.PopHead? ==> s'.pulled == s.pulled && s'.front == s.front)
  {
    match s.threads[t].pc
    case PopNext =>
    case PopData(_) =>
    case PopHead(_, _) =>
    case PullUnlock(_) =>
    case PushMove(_, _) =>
    case _ =>
  }

  lemma PassResults(s: State, t: Tid, addr: nat)
    requires t in s.threads && Advance(s, t, addr).Ok? && !Notifies(s.threads[t].pc)
    requires !s.threads[t].pc.PushMove? && !s.threads[t].pc.PopHead?
    ensures var s' := Advance(s, t, addr).state; t in s'.threads && SameResults(s.threads[t], s'.threads[t])
  {
    match s.threads[t].pc
    case PopNext =>
    case PopData(_) =>
    case PullUnlock(_) =>
    case PushData(_, _) =>
    case PushNext(_, _) =>
    case PushAlloc(_) =>
    case PullCompare(_, _, _) =>
    case _ =>
  }

  // A notify changes nothing but the places of its thread and of those it wakes.
  lemma NotifySteps(s: State, t: Tid, addr: nat)
    requires t in s.threads && Notifies(s.threads[t].pc)
    ensures var out := Advance(s, t, addr);
            && out.Ok? && out.state == s.(threads := out.state.threads) && out.state.threads.Keys == s.threads.Keys
            && (forall u :: u in s.threads && u != t ==>
                  out.state.threads[u] == s.threads[u] || out.state.threads[u] == Woken(s.threads[u]))
            && (out.state.threads[t] == s.threads[t] || out.state.threads[t] == Notified(s.threads[t]))
  {
    match s.threads[t].pc
    case PushNotify(v) =>
      hide Woken, NotifyOne;
      NotifyOneThreads(s, t, v, addr);
    case CloseNotify => hide Woken;
  }

  lemma NotifyOneThreads(s: State, t: Tid, v: Value, u: Tid)
    requires StandsAt(s, t, PushNotify(v))
    ensures var s' := NotifyOne(s, t, v, u);
            && s' == s.(threads := s'.threads) && s'.threads.Keys == s.threads.Keys
            && (forall w :: w in s.threads && w != t ==>
                  s'.threads[w] == s.threads[w] || s'.threads[w] == Woken(s.threads[w]))
            && (s'.threads[t] == s.threads[t] || s'.threads[t] == Notified(s.threads[t]))
  {
    hide SomeAsleep;
  }

  // The thread after its notify, which ends its operation.
  function Notified(th: Thread): Thread {
    if th.pc.PushNotify? then th.(pc := Idle, sent := th.sent + [th.pc.v]) else th.(pc := Idle)
  }

  lemma NotifyResults(s: State, t: Tid, addr: nat)
    requires t in s.threads && Notifies(s.threads[t].pc)
    ensures var out := Advance(s, t, addr);
            && out.Ok? && out.state.threads.Keys == s.threads.Keys
            && forall u :: u in s.threads ==> SameResults(s.threads[u], out.state.threads[u])
  {
    NotifySteps(s, t, addr);
    hide Advance;
  }

  lemma AdvanceLog(s: State, t: Tid, addr: nat)
    requires Logged(s) && t in s.threads && Advance(s, t, addr).Ok?
    ensures Logged(Advance(s, t, addr).state)
  {
    hide Logged, SameResults;
    match s.threads[t].pc
    case PushMove(v, n) => MoveTailLog(s, t, v, n);
    case PopHead(rest, v) => MoveHeadLog(s, t, rest, v);
    case _ => PassLog(s, t, addr);
  }

  lemma PassLog(s: State, t: Tid, addr: nat)
    requires Logged(s) && t in s.threads && Advance(s, t, addr).Ok?
    requires !s.threads[t].pc.PushMove? && !s.threads[t].pc.PopHead?
    ensures Logged(Advance(s, t, addr).state)
  {
    hide Logged, Advance;
    if Notifies(s.threads[t].pc) {
      NotifySteps(s, t, addr);
      NotifyResults(s, t, addr);
    } else {
      OneThread(s, t, addr);
      PassResults(s, t, addr);
    }
    LogStays(s, Advance(s, t, addr).state);
  }

  lemma StepLog(s: State, a: Action)
    requires Logged(s) && Step(s, a).Ok?
    ensures Logged(Step(s, a).state)
  {
    hide Logged, Advance;
    if a.t in s.threads {
      if a.Go? { AdvanceLog(s, a.t, a.n); } else { LogStays(s, Step(s, a).state); }
    }
  }

  // ----- Main results -----

  lemma {:induction false} RunKeeps(s: State, run: seq<Action>)
    requires Inv(s) && Logged(s)
    ensures Exec(s, run).Ok? && Inv(Exec(s, run).state) && Logged(Exec(s, run).state)
    decreases |run|
  {
    if run != [] {
      StepKeeps(s, run[0]);
      StepLog(s, run[0]);
      RunKeeps(Step(s, run[0]).state, run[1..]);
    }
  }

  ghost predicate Reachable(tids: set<Tid>, s: State) {
    exists first: Addr, run :: first != NULL && Exec(Init(tids, first), run) == Ok(s)
  }

  ghost predicate StepTo(s: State, s': State) {
    exists a :: Step(s, a) == Ok(s')
  }

  // In past, a step leads from place i to the next one.
  ghost predicate StepAt(past: seq<State>, i: nat)
    requires i < |past| - 1
  {
    StepTo(past[i], past[i + 1])
  }

  // The states of a run, one after another.
  ghost predicate IsRun(past: seq<State>, tids: set<Tid>, first: Addr) {
    past != [] && past[0] == Init(tids, first) && forall i :: 0 <= i < |past| - 1 ==> StepAt(past, i)
  }

  lemma {:induction false} RunReaches(past: seq<State>, tids: set<Tid>, first: Addr, i: nat)
    requires IsRun(past, tids, first) && first != NULL && i < |past|
    ensures Reachable(tids, past[i])
  {
    if i == 0 {
      assert Exec(Init(tids, first), []) == Ok(Init(tids, first));
    } else {
      RunReaches(past, tids, first, i - 1);
      assert StepAt(past, i - 1);
      var a :| Step(past[i - 1], a) == Ok(past[i]);
      var _ := Onward(tids, past[i - 1], a);
    }
  }

  // No run touches a deleted node, deletes one twice, or takes data from a node that has none.
  lemma NodesSafe(tids: set<Tid>, first: Addr, run: seq<Action>)
    requires first != NULL
    ensures Exec(Init(tids, first), run).Ok?
  {
    InitOk(tids, first);
    RunKeeps(Init(tids, first), run);
  }

  lemma ReachableOk(tids: set<Tid>, s: State)
    requires Reachable(tids, s)
    ensures Inv(s) && Logged(s)
  {
    var first: Addr, run :| first != NULL && Exec(Init(tids, first), run) == Ok(s);
    InitOk(tids, first);
    RunKeeps(Init(tids, first), run);
  }

  // The values in the nodes between head and tail, read as a pull would read them one after
  // another; the node a pop is at work on counts until head moves.
  function Contents(s: State): seq<Value> {
    if s.front > |s.pushed| then []
    else seq(|s.pushed| - s.front, i requires 0 <= i < |s.pushed| - s.front => s.pushed[s.front + i].v)
  }

  // Everything pushed is what has been pulled, in the same order, followed by what remains,
  // across any closes.
  lemma FifoOrder(tids: set<Tid>, s: State)
    requires Reachable(tids, s)
    ensures seq(|s.pushed|, i requires 0 <= i < |s.pushed| => s.pushed[i].v)
            == seq(|s.pulled|, i requires 0 <= i < |s.pulled| => s.pulled[i].v) + Contents(s)
  {
    ReachableOk(tids, s);
    hide PlacesOk, LocksOk, HeapOk, PcOk;
  }

  // What remains is stored, in order, in the linked nodes from head to tail; only the node a pop
  // is at work on may have given up its link and its data.
  lemma ContentsLinked(tids: set<Tid>, s: State)
    requires Reachable(tids, s)
    ensures s.front < |s.line| && s.head == s.line[s.front] && s.tail == s.line[|s.line| - 1]
    ensures |Contents(s)| == |s.line| - 1 - s.front
    ensures forall i :: s.front <= i < |s.line| - 1 && !(i == s.front && AtPop(Puller(s))) ==>
              && s.line[i] in s.heap && s.heap[s.line[i]].data == Some(Contents(s)[i - s.front])
              && s.heap[s.line[i]].next == s.line[i + 1]
  {
    ReachableOk(tids, s);
    hide LocksOk, HeapOk, PcOk, Logged, Reachable;
    forall i | s.front <= i < |s.line| - 1 && !(i == s.front && AtPop(Puller(s)))
      ensures && s.line[i] in s.heap && s.heap[s.line[i]].data == Some(Contents(s)[i - s.front])
              && s.heap[s.line[i]].next == s.line[i + 1]
    {
      assert PlaceOk(s, i, Pusher(s), Puller(s));
    }
  }

  predicate AtPop(pc: Pc) {
    pc.PopData? || pc.PopHead?
  }

  // Each thread's completed pushes and pulls are its events in these orders, each once.
  lemma Linearizable(tids: set<Tid>, s: State, t: Tid)
    requires Reachable(tids, s) && t in s.threads
    ensures Of(s.pushed, t) == s.threads[t].sent + PendingPush(s.threads[t].pc)
    ensures Of(s.pulled, t) == s.threads[t].got + PendingPull(s.threads[t].pc)
  {
    ReachableOk(tids, s);
    assert ThreadLogOk(s, t);
  }

  // The verdict on emptiness comes from a tail snapshot that may be stale by now. It is exact for
  // the moment of the snapshot, and "not empty" stays true until the pop.
  lemma SnapshotVerdict(tids: set<Tid>, s: State, t: Tid)
    requires Reachable(tids, s) && t in s.threads
    ensures s.threads[t].pc.PullSnap? ==> (s.head == s.tail <==> Contents(s) == [])
    ensures s.threads[t].pc.PullCompare? ==>
              && (s.head == s.threads[t].pc.snap <==> s.threads[t].pc.wasEmpty)
              && (s.head != s.threads[t].pc.snap ==> Contents(s) != [])
    ensures s.threads[t].pc.PopNext? || AtPop(s.threads[t].pc) ==> s.head != s.tail && Contents(s) != []
  {
    ReachableOk(tids, s);
    assert PcOk(s, t);
    HeadIsTail(s);
    hide Reachable, PlaceOk;
  }

  // A pop and a push that are both at work on nodes are at work on different nodes; two pops, or
  // two pushes, never are at the same time.
  lemma NoSharedNode(tids: set<Tid>, s: State, t: Tid, u: Tid)
    requires Reachable(tids, s) && t in s.threads && u in s.threads
    ensures (s.threads[t].pc.PopNext? || AtPop(s.threads[t].pc)) && AtTail(s.threads[u].pc) ==> s.head != s.tail
    ensures AtHead(s.threads[t].pc) && AtHead(s.threads[u].pc) ==> t == u
    ensures AtTail(s.threads[t].pc) && AtTail(s.threads[u].pc) ==> t == u
  {
    SnapshotVerdict(tids, s, t);
    ReachableOk(tids, s);
  }

  // Nothing leaks: the allocated nodes are those from head to tail and the pushers' own.
  lemma NothingLeaks(tids: set<Tid>, s: State)
    requires Reachable(tids, s)
    requires forall t :: t in s.threads ==> s.threads[t].pc.Idle?
    ensures s.heap.Keys == set i | s.front <= i < |s.line| :: s.line[i]
  {
    ReachableOk(tids, s);
    forall n ensures n in s.heap <==> exists i :: s.front <= i < |s.line| && s.line[i] == n {
      if exists i :: s.front <= i < |s.line| && s.line[i] == n {
        var i :| s.front <= i < |s.line| && s.line[i] == n;
        assert PlaceOk(s, i, Pusher(s), Puller(s));
      }
    }
  }

  // ----- Closing -----

  // Nobody has been told that the queue is closed while it is open; it is never opened again.
  ghost predicate ClosedOk(s: State) {
    forall t :: t in s.threads ==> KnowsClosed(s.threads[t]) ==> s.closed
  }

  // A pull of the thread gave up, or is about to, or a push of it was refused.
  predicate ToldClosed(th: Thread) {
    th.pc == PullUnlock(Closed) || th.closed > 0 || th.refused > 0
  }

  // The thread has been told, or has set closed_ itself.
  predicate KnowsClosed(th: Thread) {
    ToldClosed(th) || th.pc.CloseNotify?
  }

  lemma ClosedStays(s: State, a: Action)
    requires ClosedOk(s) && Step(s, a).Ok?
    ensures ClosedOk(Step(s, a).state) && (s.closed ==> Step(s, a).state.closed)
  {
    hide Advance;
    if a.t in s.threads && a.Go? {
      if Notifies(s.threads[a.t].pc) {
        NotifySteps(s, a.t, a.n);
        ToldByNotify(s, a.t, a.n);
      } else {
        OneThread(s, a.t, a.n);
        ToldByStep(s, a.t, a.n);
      }
    }
  }

  lemma ToldByNotify(s: State, t: Tid, addr: nat)
    requires t in s.threads && Notifies(s.threads[t].pc)
    ensures var out := Advance(s, t, addr);
            out.Ok? && t in out.state.threads && (KnowsClosed(out.state.threads[t]) ==> KnowsClosed(s.threads[t]))
  {
  }

  lemma ToldByStep(s: State, t: Tid, addr: nat)
    requires t in s.threads && Advance(s, t, addr).Ok? && !Notifies(s.threads[t].pc)
    ensures var s' := Advance(s, t, addr).state;
            t in s'.threads && (KnowsClosed(s'.threads[t]) ==> KnowsClosed(s.threads[t]) || s.closed)
  {
    match s.threads[t].pc
    case PopNext =>
    case PopData(_) =>
    case PopHead(_, _) =>
    case PullUnlock(_) =>
    case _ =>
  }

  lemma {:induction false} RunTells(s: State, run: seq<Action>)
    requires ClosedOk(s) && Exec(s, run).Ok?
    ensures ClosedOk(Exec(s, run).state)
    decreases |run|
  {
    if run != [] {
      ClosedStays(s, run[0]);
      RunTells(Step(s, run[0]).state, run[1..]);
    }
  }

  lemma RecheckStep(s: State, t: Tid, addr: Addr)
    requires StandsAt(s, t, PullRecheck)
    ensures var out := Advance(s, t, addr);
            && out.Ok? && t in out.state.threads && Contents(out.state) == Contents(s)
            && (out.state.threads[t].pc == PullUnlock(Closed) <==> s.closed)
            && (out.state.threads[t].pc.PopNext? <==> !s.closed)
  {
  }

  // In every run a pull that has waited gives up if and only if closed_ is set when it looks the
  // second time, whatever the queue holds; if not, there is a value to take. And nobody is ever
  // told "closed" by an open queue.
  lemma ClosedVerdict(tids: set<Tid>, s: State, t: Tid, addr: Addr)
    requires Reachable(tids, s) && t in s.threads
    ensures s.threads[t].pc.PullRecheck? ==>
              var out := Step(s, Go(t, addr));
              && out.Ok? && t in out.state.threads && Contents(out.state) == Contents(s)
              && (out.state.threads[t].pc == PullUnlock(Closed) <==> s.closed)
              && (out.state.threads[t].pc.PopNext? <==> !s.closed)
              && (!s.closed ==> Contents(s) != [])
    ensures ToldClosed(s.threads[t]) ==> s.closed
  {
    hide Advance, Contents, Inv;
    ReachableOk(tids, s);
    ReachableTells(tids, s);
    if s.threads[t].pc.PullRecheck? {
      RecheckStep(s, t, addr);
      RecheckFinds(s, t);
    }
  }

  // A wait ends at a closed queue or at one with a value to take.
  lemma RecheckFinds(s: State, t: Tid)
    requires Inv(s) && StandsAt(s, t, PullRecheck)
    ensures s.closed || Contents(s) != []
  {
    hide PlacesOk, HeapOk, LocksOk;
    assert PcOk(s, t);
  }

  lemma ReachableTells(tids: set<Tid>, s: State)
    requires Reachable(tids, s)
    ensures ClosedOk(s)
  {
    var first: Addr, run :| first != NULL && Exec(Init(tids, first), run) == Ok(s);
    RunTells(Init(tids, first), run);
  }

  // --- A closed queue keeps its values from a waiting pull ---

  lemma {:induction false} ExecSnoc(s: State, run: seq<Action>, a: Action)
    requires Exec(s, run).Ok?
    ensures Exec(s, run + [a]) == Step(Exec(s, run).state, a)
    decreases |run|
  {
    if run == [] {
      assert (run + [a])[1..] == [];
    } else {
      assert (run + [a])[1..] == run[1..] + [a];
      ExecSnoc(Step(s, run[0]).state, run[1..], a);
    }
  }

  lemma Onward(tids: set<Tid>, s: State, a: Action) returns (s': State)
    requires Reachable(tids, s) && Step(s, a).Ok?
    ensures Step(s, a) == Ok(s') && Reachable(tids, s')
  {
    var first: Addr, run :| first != NULL && Exec(Init(tids, first), run) == Ok(s);
    ExecSnoc(Init(tids, first), run, a);
    s' := Step(s, a).state;
  }

  lemma StartReachable()
    ensures Reachable({0, 1}, Init({0, 1}, 1))
  {
    assert Exec(Init({0, 1}, 1), []) == Ok(Init({0, 1}, 1));
  }

  // The empty queue, with thread 1 at pc and thread 0 idle.
  function Start(headLock: Option<Tid>, pc: Pc): State {
    State(1, 1, map[1 := Node(None, NULL, 0, 0)], headLock, None, false, Threads(Idle, [], pc), [1], 0, [], [])
  }

  function Threads(pc: Pc, sent: seq<Value>, pc': Pc): map<Tid, Thread> {
    map[0 := Thread(pc, sent, 0, [], 0, 0), 1 := Thread(pc', [], 0, [], 0, 0)]
  }

  // Thread 0 has a node for its push of 7; it may be in its critical section.
  function Pushing(tailLock: Option<Tid>, pc0: Pc, headLock: Option<Tid>, pc: Pc): State {
    State(1, 1, map[1 := Node(None, NULL, 0, 0), 2 := Node(None, NULL, -1, 0)], headLock, tailLock, false,
          Threads(pc0, [], pc), [1], 0, [], [])
  }

  // Thread 0 has linked the new node and is about to move the tail.
  function Linked(headLock: Option<Tid>, pc: Pc): State {
    State(1, 1, map[1 := Node(Some(7), 2, 0, 0), 2 := Node(None, NULL, -1, 0)], headLock, Some(0), false,
          Threads(PushMove(7, 2), [], pc), [1], 0, [], [])
  }

  // Thread 0 has moved the tail, and may have returned.
  function Moved(tailLock: Option<Tid>, pc0: Pc, sent: seq<Value>, headLock: Option<Tid>, pc: Pc): State {
    State(1, 2, map[1 := Node(Some(7), 2, 0, 0), 2 := Node(None, NULL, 1, 0)], headLock, tailLock, false,
          Threads(pc0, sent, pc), [1, 2], 0, [Event(0, 7)], [])
  }

  // Thread 0 has pushed 7.
  function OneIn(headLock: Option<Tid>, pc: Pc): State {
    Moved(None, Idle, [7], headLock, pc)
  }

  // The next step of a thread, with the state it leads to.
  lemma Goes(s: State, t: Tid, addr: nat, s': State)
    requires Reachable({0, 1}, s) && t in s.threads && Advance(s, t, addr) == Ok(s')
    ensures Reachable({0, 1}, s')
  {
    hide Advance, Reachable;
    var _ := Onward({0, 1}, s, Go(t, addr));
  }

  lemma ReachLocking(headLock: Option<Tid>, pc: Pc)
    requires Reachable({0, 1}, Start(headLock, pc))
    ensures Reachable({0, 1}, Pushing(None, PushLock(7, 2), headLock, pc))
  {
    hide Reachable;
    var s1 := Start(headLock, pc).(threads := Threads(PushCheck(7), [], pc));
    assert s1.threads == To(Start(headLock, pc), 0, PushCheck(7)).threads;
    var _ := Onward({0, 1}, Start(headLock, pc), Push(0, 7));
    var s2 := s1.(threads := Threads(PushAlloc(7), [], pc));
    assert To(s1, 0, PushAlloc(7)).threads == s2.threads;
    Goes(s1, 0, NULL, s2);
    ReachAllocated(headLock, pc);
  }

  lemma ReachAllocated(headLock: Option<Tid>, pc: Pc)
    requires Reachable({0, 1}, Start(headLock, pc).(threads := Threads(PushAlloc(7), [], pc)))
    ensures Reachable({0, 1}, Pushing(None, PushLock(7, 2), headLock, pc))
  {
    hide Reachable;
    var s1 := Start(headLock, pc).(threads := Threads(PushAlloc(7), [], pc));
    var s2 := Pushing(None, PushLock(7, 2), headLock, pc);
    assert Alloc(s1, 0, 2).heap == s2.heap;
    assert To(s1, 0, PushLock(7, 2)).threads == s2.threads;
    Goes(s1, 0, 2, s2);
  }

  lemma ReachPushing(headLock: Option<Tid>, pc: Pc)
    requires Reachable({0, 1}, Pushing(None, PushLock(7, 2), headLock, pc))
    ensures Reachable({0, 1}, Pushing(Some(0), PushData(7, 2), headLock, pc))
  {
    hide Reachable;
    var s := Pushing(None, PushLock(7, 2), headLock, pc);
    var s' := Pushing(Some(0), PushData(7, 2), headLock, pc);
    assert To(s, 0, PushData(7, 2)).threads == s'.threads;
    Goes(s, 0, NULL, s');
  }

  lemma ReachLinked(headLock: Option<Tid>, pc: Pc)
    requires Reachable({0, 1}, Pushing(Some(0), PushData(7, 2), headLock, pc))
    ensures Reachable({0, 1}, Linked(headLock, pc))
  {
    hide Reachable;
    var s := Pushing(Some(0), PushData(7, 2), headLock, pc);
    var s1 := s.(heap := map[1 := Node(Some(7), NULL, 0, 0), 2 := Node(None, NULL, -1, 0)],
                 threads := Threads(PushNext(7, 2), [], pc));
    assert WriteData(s, 0, 7, 2) == s1;
    Goes(s, 0, NULL, s1);
    assert WriteNext(s1, 0, 7, 2) == Linked(headLock, pc);
    Goes(s1, 0, NULL, Linked(headLock, pc));
  }

  lemma ReachMoved(headLock: Option<Tid>, pc: Pc)
    requires Reachable({0, 1}, Linked(headLock, pc))
    ensures Reachable({0, 1}, Moved(Some(0), PushUnlock(7), [], headLock, pc))
  {
    hide Reachable;
    var s' := Moved(Some(0), PushUnlock(7), [], headLock, pc);
    assert MoveTail(Linked(headLock, pc), 0, 7, 2) == s';
    Goes(Linked(headLock, pc), 0, NULL, s');
  }

  lemma ReachUnlocked(headLock: Option<Tid>, pc: Pc)
    requires Reachable({0, 1}, Moved(Some(0), PushUnlock(7), [], headLock, pc))
    ensures Reachable({0, 1}, Moved(None, PushNotify(7), [], headLock, pc))
  {
    hide Reachable;
    var s := Moved(Some(0), PushUnlock(7), [], headLock, pc);
    var s' := Moved(None, PushNotify(7), [], headLock, pc);
    assert UnlockTail(s, 0, 7) == s';
    Goes(s, 0, NULL, s');
  }

  // Nobody sleeps yet, so the notify wakes nobody.
  lemma ReachNotified(headLock: Option<Tid>, pc: Pc)
    requires Reachable({0, 1}, Moved(None, PushNotify(7), [], headLock, pc)) && !pc.PullAsleep?
    ensures Reachable({0, 1}, OneIn(headLock, pc))
  {
    hide Reachable;
    var s := Moved(None, PushNotify(7), [], headLock, pc);
    assert s.threads[0].pc == PushNotify(7) && s.threads[1].pc == pc;
    assert !SomeAsleep(s);
    assert NotifyOne(s, 0, 7, 0) == Sent(s, 0, 7);
    assert s.threads[0].sent + [7] == [7];
    assert Sent(s, 0, 7).threads == Threads(Idle, [7], pc);
    Goes(s, 0, 0, OneIn(headLock, pc));
  }

  lemma ReachOneIn(headLock: Option<Tid>, pc: Pc)
    requires Reachable({0, 1}, Start(headLock, pc)) && !pc.PullAsleep?
    ensures Reachable({0, 1}, OneIn(headLock, pc))
  {
    hide Reachable;
    ReachLocking(headLock, pc);
    ReachPushing(headLock, pc);
    ReachLinked(headLock, pc);
    ReachMoved(headLock, pc);
    ReachUnlocked(headLock, pc);
    ReachNotified(headLock, pc);
  }

  // The queue with 7 in it has been closed, and thread 1 is at pc.
  function ClosedOne(headLock: Option<Tid>, pc: Pc): State {
    OneIn(headLock, pc).(closed := true)
  }

  // Thread 0 closes a queue in which nobody sleeps.
  lemma ReachClosed(s: State)
    requires Reachable({0, 1}, s) && StandsAt(s, 0, Idle) && !SomeAsleep(s)
    ensures Reachable({0, 1}, s.(closed := true))
  {
    hide Reachable, Advance;
    var s1 := Onward({0, 1}, s, Close(0));
    NotifiesNobody(s1, s);
    Goes(s1, 0, NULL, s.(closed := true));
  }

  lemma NotifiesNobody(s1: State, s: State)
    requires StandsAt(s, 0, Idle) && !SomeAsleep(s) && s1 == To(s.(closed := true), 0, CloseNotify)
    ensures Advance(s1, 0, NULL) == Ok(s.(closed := true))
  {
    assert WakeAll(s1).threads == s1.threads by {
      forall u | u in s1.threads ensures Woken(s1.threads[u]) == s1.threads[u] {
        if u != 0 { assert s1.threads[u] == s.threads[u]; }
      }
    }
    assert s.threads[0].(pc := Idle) == s.threads[0];
    assert s1.threads[0 := s1.threads[0].(pc := Idle)] == s.threads;
  }

  lemma ReachClosedOne()
    ensures Reachable({0, 1}, ClosedOne(None, Idle))
  {
    StartReachable();
    assert Init({0, 1}, 1) == Start(None, Idle);
    ReachOneIn(None, Idle);
    hide Reachable;
    ReachClosed(OneIn(None, Idle));
  }

  lemma ReachSnapping()
    ensures Reachable({0, 1}, ClosedOne(Some(1), PullSnap(true)))
  {
    ReachClosedOne();
    hide Reachable;
    var s := Onward({0, 1}, ClosedOne(None, Idle), Pull(1));
    assert s == ClosedOne(None, PullLock(true));
    var s1 := ClosedOne(Some(1), PullSnap(true));
    assert To(s, 1, PullSnap(true)).threads == s1.threads;
    Goes(s, 1, NULL, s1);
  }

  lemma ReachLooking()
    ensures Reachable({0, 1}, ClosedOne(Some(1), PullRecheck))
  {
    ReachSnapping();
    hide Reachable;
    var s := ClosedOne(Some(1), PullSnap(true));
    var s1 := ClosedOne(Some(1), PullCompare(true, 2, false));
    assert To(s, 1, PullCompare(true, 2, false)).threads == s1.threads;
    Goes(s, 1, NULL, s1);
    assert Compare(s1, 1, true, 2) == ClosedOne(Some(1), PullRecheck);
    Goes(s1, 1, NULL, ClosedOne(Some(1), PullRecheck));
  }

  // A queue that holds 7 is closed; a pull then waits for nothing, sees the value, and still gives up.
  lemma ClosedWithValue() returns (s: State)
    ensures Reachable({0, 1}, s) && s.closed && Contents(s) == [7] && s.pulled == []
    ensures 1 in s.threads && s.threads[1] == Thread(Idle, [], 0, [], 0, 1)
  {
    ReachLooking();
    hide Reachable;
    var s1 := ClosedOne(Some(1), PullRecheck);
    var s2 := ClosedOne(Some(1), PullUnlock(Closed));
    assert To(s1, 1, PullUnlock(Closed)).threads == s2.threads;
    Goes(s1, 1, NULL, s2);
    s := UnlockHead(s2, 1, Closed);
    Goes(s2, 1, NULL, s);
    hide Advance;
    assert Contents(s) == [7];
  }

  // ----- What a step does to the history -----

  // A push enters the queue at the end when tail moves, a pull takes the first value when head
  // moves, and no other step changes the contents or the order of pushes or pulls.
  lemma StepRefines(tids: set<Tid>, s: State, a: Action)
    requires Reachable(tids, s)
    ensures Step(s, a).Ok?
    ensures var s' := Step(s, a).state;
            if a.Go? && a.t in s.threads && s.threads[a.t].pc.PushMove? then
              && s'.pushed == s.pushed + [Event(a.t, s.threads[a.t].pc.v)] && s'.pulled == s.pulled
              && Contents(s') == Contents(s) + [s.threads[a.t].pc.v]
            else if a.Go? && a.t in s.threads && s.threads[a.t].pc.PopHead? then
              && s'.pulled == s.pulled + [Event(a.t, s.threads[a.t].pc.v)] && s'.pushed == s.pushed
              && Contents(s) == [s.threads[a.t].pc.v] + Contents(s')
            else s'.pushed == s.pushed && s'.pulled == s.pulled && Contents(s') == Contents(s)
  {
    ReachableOk(tids, s);
    StepKeeps(s, a);
    StepContents(s, a);
  }

  lemma StepContents(s: State, a: Action)
    requires Inv(s) && Step(s, a).Ok?
    ensures var s' := Step(s, a).state;
            if a.Go? && a.t in s.threads && s.threads[a.t].pc.PushMove? then
              && s'.pushed == s.pushed + [Event(a.t, s.threads[a.t].pc.v)] && s'.pulled == s.pulled
              && Contents(s') == Contents(s) + [s.threads[a.t].pc.v]
            else if a.Go? && a.t in s.threads && s.threads[a.t].pc.PopHead? then
              && s'.pulled == s.pulled + [Event(a.t, s.threads[a.t].pc.v)] && s'.pushed == s.pushed
              && Contents(s) == [s.threads[a.t].pc.v] + Contents(s')
            else s'.pushed == s.pushed && s'.pulled == s.pulled && Contents(s') == Contents(s)
  {
    hide Advance, Contents;
    if a.Go? && a.t in s.threads {
      match s.threads[a.t].pc
      case PushMove(v, n) =>
        MoveTailContents(s, a.t, v, n);
        MoveStep(s, a.t, a.n);
      case PopHead(rest, v) =>
        MoveHeadContents(s, a.t, rest, v);
        MoveStep(s, a.t, a.n);
      case _ =>
        PassList(s, a.t, a.n);
        SameContents(s, Step(s, a).state);
    } else {
      SameContents(s, Step(s, a).state);
    }
  }

  lemma PassList(s: State, t: Tid, addr: nat)
    requires t in s.threads && Advance(s, t, addr).Ok?
    requires !s.threads[t].pc.PushMove? && !s.threads[t].pc.PopHead?
    ensures var s' := Advance(s, t, addr).state;
            s'.pushed == s.pushed && s'.pulled == s.pulled && s'.front == s.front && s'.closed == s.closed
  {
    if Notifies(s.threads[t].pc) { NotifySteps(s, t, addr); } else { OneThread(s, t, addr); }
  }

  lemma MoveStep(s: State, t: Tid, addr: nat)
    requires t in s.threads && Advance(s, t, addr).Ok?
    ensures var pc := s.threads[t].pc;
            && (pc.PushMove? ==> pc.n in s.heap && Advance(s, t, addr) == Ok(MoveTail(s, t, pc.v, pc.n)))
            && (pc.PopHead? ==> Advance(s, t, addr) == Ok(MoveHead(s, t, pc.rest, pc.v)))
  {
  }

  lemma SameContents(s: State, s': State)
    requires s'.pushed == s.pushed && s'.front == s.front
    ensures Contents(s') == Contents(s)
  {
  }

  lemma MoveTailContents(s: State, t: Tid, v: Value, n: Addr)
    requires Inv(s) && StandsAt(s, t, PushMove(v, n))
    ensures n in s.heap
    ensures Contents(MoveTail(s, t, v, n)) == Contents(s) + [v]
  {
    hide PlacesOk, HeapOk, LocksOk;
    assert PcOk(s, t);
    hide PcOk;
  }

  lemma MoveHeadContents(s: State, t: Tid, rest: Addr, v: Value)
    requires Inv(s) && StandsAt(s, t, PopHead(rest, v))
    ensures Contents(s) == [v] + Contents(MoveHead(s, t, rest, v))
  {
    hide PlacesOk, HeapOk, LocksOk, Contents;
    assert PcOk(s, t);
    hide PcOk;
    FirstGoes(s, MoveHead(s, t, rest, v));
  }

  lemma FirstGoes(s: State, s': State)
    requires s.front < |s.pushed| && s'.pushed == s.pushed && s'.front == s.front + 1
    ensures Contents(s) == [s.pushed[s.front].v] + Contents(s')
  {
  }
}
