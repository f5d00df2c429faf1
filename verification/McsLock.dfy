/**
 The MCS queue lock. The waiter nodes live in the guards and die with them, so a
 node is allocated when its guard is built and deallocated when the guard is
 gone; touching a node outside that span is a Fault. One atomic access is one
 step. Addresses may be reused by later guards.
 */
module McsLock {
  import opened Prelude

  type Addr = nat
  const NULL: Addr := 0

  // owner and ticket are history: the guard's thread and its place in the order of exchanges.
  datatype Node = Node(isOwned: bool, next: Addr, owner: Tid, ticket: int)

  datatype Pc =
    | Idle
    | Arriving(n: Addr)                 // guard built, about to exchange the tail
    | Linking(n: Addr, prev: Addr)      // about to store itself into prev's next
    | Spinning(n: Addr)                 // about to load its own is_owned
    | Inside(n: Addr)                   // holds the lock; leaving starts with the CAS on tail
    | Waiting(n: Addr)                  // the CAS failed: about to load its own next
    | Reading(n: Addr)                  // next was there: about to load it once more
    | Handing(n: Addr, heir: Addr)      // about to store into heir's is_owned
    | Retiring(n: Addr)                 // done, the guard is about to die

  datatype State = State(
    tail: Addr,
    nodes: map<Addr, Node>,
    threads: map<Tid, Pc>,
    line: seq<Addr>,            // history: nodes in the order of their tail exchanges
    front: nat,                 // history: the waiter queue is line[front..]
    exchanged: seq<Tid>,        // history: threads in the order of their tail exchanges
    entered: seq<Tid>)          // history: threads in the order in which they got the lock

  datatype Outcome = Ok(state: State) | Fault

  datatype Action = Lock(t: Tid, n: Addr) | Go(t: Tid)

  function Init(tids: set<Tid>): State {
    State(NULL, map[], map t | t in tids :: Idle, [], 0, [], [])
  }

  predicate StandsAt(s: State, t: Tid, pc: Pc) {
    t in s.threads && s.threads[t] == pc
  }

  function Build(s: State, t: Tid, n: Addr): State {
    s.(nodes := s.nodes[n := Node(false, NULL, t, -1)], threads := s.threads[t := Arriving(n)])
  }

  function Exchange(s: State, t: Tid, n: Addr): State
    requires n in s.nodes
  {
    var queued := s.(tail := n,
                     nodes := s.nodes[n := s.nodes[n].(ticket := |s.line|)],
                     line := s.line + [n],
                     exchanged := s.exchanged + [t]);
    if s.tail == NULL then Enter(queued, t, n)
    else queued.(threads := s.threads[t := Linking(n, s.tail)])
  }

  function Enter(s: State, t: Tid, n: Addr): State {
    s.(threads := s.threads[t := Inside(n)], entered := s.entered + [t])
  }

  function Link(s: State, t: Tid, n: Addr, prev: Addr): State
    requires prev in s.nodes
  {
    s.(nodes := s.nodes[prev := s.nodes[prev].(next := n)], threads := s.threads[t := Spinning(n)])
  }

  function Unlock(s: State, t: Tid, n: Addr): State {
    if s.tail == n then s.(tail := NULL, front := s.front + 1, threads := s.threads[t := Retiring(n)])
    else s.(threads := s.threads[t := Waiting(n)])
  }

  function Hand(s: State, t: Tid, n: Addr, heir: Addr): State
    requires heir in s.nodes
  {
    s.(nodes := s.nodes[heir := s.nodes[heir].(isOwned := true)],
       front := s.front + 1,
       threads := s.threads[t := Retiring(n)])
  }

  function Retire(s: State, t: Tid, n: Addr): State {
    s.(nodes := s.nodes - {n}, threads := s.threads[t := Idle])
  }

  function Advance(s: State, t: Tid): Outcome
    requires t in s.threads
  {
    match s.threads[t]
    case Idle => Ok(s)
    case Arriving(n) => if n !in s.nodes then Fault else Ok(Exchange(s, t, n))
    case Linking(n, prev) => if prev !in s.nodes then Fault else Ok(Link(s, t, n, prev))
    case Spinning(n) =>
      if n !in s.nodes then Fault
      else if s.nodes[n].isOwned then Ok(Enter(s, t, n)) else Ok(s)
    case Inside(n) => Ok(Unlock(s, t, n))
    case Waiting(n) =>
      if n !in s.nodes then Fault
      else if s.nodes[n].next == NULL then Ok(s) else Ok(s.(threads := s.threads[t := Reading(n)]))
    case Reading(n) =>
      if n !in s.nodes then Fault else Ok(s.(threads := s.threads[t := Handing(n, s.nodes[n].next)]))
    case Handing(n, heir) => if heir !in s.nodes then Fault else Ok(Hand(s, t, n, heir))
    case Retiring(n) => if n !in s.nodes then Fault else Ok(Retire(s, t, n))
  }

  // An action that its thread cannot take now changes nothing.
  function Step(s: State, a: Action): Outcome {
    if a.t !in s.threads then Ok(s)
    else match a
      case Lock(t, n) => if s.threads[t].Idle? && n != NULL && n !in s.nodes then Ok(Build(s, t, n)) else Ok(s)
      case Go(t) => Advance(s, t)
  }

  function Exec(s: State, run: seq<Action>): Outcome
    decreases |run|
  {
    if run == [] then Ok(s)
    else match Step(s, run[0])
      case Fault => Fault
      case Ok(next) => Exec(next, run[1..])
  }

  // ----- The invariant -----

  // In the waiter queue at position k of the line.
  ghost predicate At(s: State, n: Addr, k: int) {
    n in s.nodes && s.nodes[n].ticket == k && s.front <= k < |s.line| && s.line[k] == n
  }

  ghost predicate PcOk(s: State, t: Tid)
    requires t in s.threads
  {
    var pc := s.threads[t];
    !pc.Idle? ==>
      && pc.n in s.nodes && pc.n != NULL && s.nodes[pc.n].owner == t
      && var node := s.nodes[pc.n];
         match pc
         case Arriving(n) => node.ticket == -1 && !node.isOwned && node.next == NULL
         case Linking(n, prev) => At(s, n, node.ticket) && s.front < node.ticket && prev == s.line[node.ticket - 1]
         case Spinning(n) => At(s, n, node.ticket) && (s.front < node.ticket || node.isOwned)
         case Inside(n) => At(s, n, s.front)
         case Waiting(n) => At(s, n, s.front) && s.front + 1 < |s.line|
         case Reading(n) => At(s, n, s.front) && s.front + 1 < |s.line| && node.next != NULL
         case Handing(n, heir) => At(s, n, s.front) && s.front + 1 < |s.line| && node.next == heir != NULL
         case Retiring(n) => 0 <= node.ticket < s.front
         case Idle => true
  }

  // Position k of the line: how its node hangs on the node before it.
  ghost predicate SlotOk(s: State, k: nat)
    requires s.front <= k < |s.line|
  {
    var n := s.line[k];
    && At(s, n, k)
    && s.nodes[n].owner in s.threads
    && !s.threads[s.nodes[n].owner].Idle? && s.threads[s.nodes[n].owner].n == n
    && (k == |s.line| - 1 ==> s.nodes[n].next == NULL)
    && (k > s.front ==>
          && !s.nodes[n].isOwned
          && s.line[k - 1] in s.nodes
          && ((s.threads[s.nodes[n].owner] == Linking(n, s.line[k - 1]) && s.nodes[s.line[k - 1]].next == NULL)
              || (s.threads[s.nodes[n].owner] == Spinning(n) && s.nodes[s.line[k - 1]].next == n)))
  }

  ghost predicate Inv(s: State) {
    && (forall t :: t in s.threads ==> PcOk(s, t))
    && (forall n :: n in s.nodes ==>
          s.nodes[n].owner in s.threads && !s.threads[s.nodes[n].owner].Idle? && s.threads[s.nodes[n].owner].n == n)
    && s.front <= |s.line|
    && (forall k :: s.front <= k < |s.line| ==> SlotOk(s, k))
    && s.tail == (if s.front == |s.line| then NULL else s.line[|s.line| - 1])
  }

  // The thread at the front has got the lock.
  ghost predicate FrontIsIn(s: State)
    requires s.front < |s.line|
  {
    s.line[s.front] in s.nodes &&
    (var t := s.nodes[s.line[s.front]].owner; t in s.threads && !s.threads[t].Spinning?)
  }

  // Entries follow the order of the exchanges.
  ghost predicate Fifo(s: State) {
    && |s.exchanged| == |s.line|
    && s.front <= |s.line|
    && (forall k :: s.front <= k < |s.line| ==> s.line[k] in s.nodes && s.nodes[s.line[k]].owner == s.exchanged[k])
    && |s.entered| == (if s.front < |s.line| && FrontIsIn(s) then s.front + 1 else s.front)
    && s.entered == s.exchanged[..|s.entered|]
  }

  lemma BuildKeeps(s: State, t: Tid, n: Addr)
    requires Inv(s) && StandsAt(s, t, Idle) && n != NULL && n !in s.nodes
    ensures Inv(Build(s, t, n))
  {
    var s' := Build(s, t, n);
    forall k | s'.front <= k < |s'.line| ensures SlotOk(s', k) {
      assert SlotOk(s, k);
      if k > s.front { assert SlotOk(s, k - 1); }
    }
    forall u | u in s'.threads ensures PcOk(s', u) {
      assert PcOk(s, u);
    }
  }

  lemma ExchangeKeeps(s: State, t: Tid, n: Addr)
    requires Inv(s) && StandsAt(s, t, Arriving(n))
    ensures n in s.nodes && Inv(Exchange(s, t, n))
  {
    assert PcOk(s, t);
    var s' := Exchange(s, t, n);
    assert At(s', n, |s.line|);
    if s.front < |s.line| {
      assert SlotOk(s, |s.line| - 1);
      assert PcOk(s, s.nodes[s.tail].owner) && s.tail != NULL;
    }
    forall k | s'.front <= k < |s'.line| ensures SlotOk(s', k) { ExchangeSlot(s, t, n, k); }
    hide SlotOk;
    forall u | u in s'.threads ensures PcOk(s', u) {
      if u != t { ExchangeOther(s, t, n, u); }
    }
  }

  lemma ExchangeSlot(s: State, t: Tid, n: Addr, k: nat)
    requires Inv(s) && StandsAt(s, t, Arriving(n)) && n in s.nodes && s.front <= k <= |s.line|
    ensures SlotOk(Exchange(s, t, n), k)
  {
    assert PcOk(s, t);
    if k < |s.line| { assert SlotOk(s, k); }
    if k > s.front { assert SlotOk(s, k - 1); }
    assert At(Exchange(s, t, n), n, |s.line|);
    hide PcOk;
  }

  lemma ExchangeOther(s: State, t: Tid, n: Addr, u: Tid)
    requires Inv(s) && StandsAt(s, t, Arriving(n)) && n in s.nodes
    requires u in s.threads && u != t
    ensures PcOk(Exchange(s, t, n), u)
  {
    var s' := Exchange(s, t, n);
    assert PcOk(s, u);
    var pc := s.threads[u];
    if !pc.Idle? {
      var k := s.nodes[pc.n].ticket;
      assert s'.nodes[pc.n] == s.nodes[pc.n];
      if 0 <= k < |s.line| { assert s'.line[k] == s.line[k]; }
      if 0 < k < |s.line| { assert s'.line[k - 1] == s.line[k - 1]; }
      assert At(s, pc.n, k) ==> At(s', pc.n, k);
    }
  }

  lemma LinkKeeps(s: State, t: Tid, n: Addr, prev: Addr)
    requires Inv(s) && StandsAt(s, t, Linking(n, prev))
    ensures prev in s.nodes && s.front <= s.nodes[prev].ticket && Inv(Link(s, t, n, prev))
  {
    assert PcOk(s, t);
    var k0 := s.nodes[n].ticket;
    assert SlotOk(s, k0) && SlotOk(s, k0 - 1);
    var s' := Link(s, t, n, prev);
    forall k | s'.front <= k < |s'.line| ensures SlotOk(s', k) {
      LinkSlot(s, t, n, prev, k);
    }
    hide SlotOk;
    forall u | u in s'.threads ensures PcOk(s', u) {
      assert PcOk(s, u);
    }
  }

  lemma LinkSlot(s: State, t: Tid, n: Addr, prev: Addr, k: nat)
    requires Inv(s) && StandsAt(s, t, Linking(n, prev)) && prev in s.nodes
    requires s.front <= k < |s.line|
    ensures SlotOk(Link(s, t, n, prev), k)
  {
    assert PcOk(s, t);
    var k0 := s.nodes[n].ticket;
    assert SlotOk(s, k0) && SlotOk(s, k0 - 1) && SlotOk(s, k);
    if k > s.front { assert SlotOk(s, k - 1); }
    hide PcOk;
  }

  // A step of the front thread from one place to another that changes no node.
  lemma FrontMovesTo(s: State, t: Tid, n: Addr, pc: Pc, e: seq<Tid>)
    requires Inv(s) && t in s.threads && !s.threads[t].Idle? && s.threads[t].n == n && At(s, n, s.front)
    requires !pc.Idle? && pc.n == n
    requires PcOk(s.(threads := s.threads[t := pc]), t)
    ensures Inv(s.(threads := s.threads[t := pc], entered := e))
  {
    var s' := s.(threads := s.threads[t := pc], entered := e);
    assert PcOk(s, t);
    forall k | s'.front <= k < |s'.line| ensures SlotOk(s', k) {
      assert SlotOk(s, k);
    }
    forall u | u in s'.threads ensures PcOk(s', u) {
      if u != t { assert PcOk(s, u); }
    }
  }

  lemma UnlockKeeps(s: State, t: Tid, n: Addr)
    requires Inv(s) && StandsAt(s, t, Inside(n))
    ensures Inv(Unlock(s, t, n))
  {
    var s' := Unlock(s, t, n);
    assert PcOk(s, t);
    assert SlotOk(s, s.front) && SlotOk(s, |s.line| - 1);
    if s.tail == n {
      forall u | u in s'.threads ensures PcOk(s', u) {
        assert PcOk(s, u);
      }
    } else {
      FrontMovesTo(s, t, n, Waiting(n), s.entered);
    }
  }

  // The heir is the direct successor, and it is still spinning on its own node.
  lemma HeirSpins(s: State, t: Tid, n: Addr, heir: Addr)
    requires Inv(s) && StandsAt(s, t, Handing(n, heir))
    ensures s.front + 1 < |s.line| && heir == s.line[s.front + 1] && heir in s.nodes
    ensures s.nodes[heir].owner in s.threads && s.threads[s.nodes[heir].owner] == Spinning(heir)
    ensures SlotOk(s, s.front + 1)
  {
    assert PcOk(s, t);
    assert SlotOk(s, s.front) && SlotOk(s, s.front + 1);
  }

  lemma HandKeeps(s: State, t: Tid, n: Addr, heir: Addr)
    requires Inv(s) && StandsAt(s, t, Handing(n, heir))
    ensures heir in s.nodes && Inv(Hand(s, t, n, heir))
  {
    HeirSpins(s, t, n, heir);
    assert PcOk(s, t);
    var s' := Hand(s, t, n, heir);
    forall k | s'.front <= k < |s'.line| ensures SlotOk(s', k) {
      assert SlotOk(s, k);
      if k > s'.front { assert SlotOk(s, k - 1); }
    }
    forall u | u in s'.threads ensures PcOk(s', u) {
      assert PcOk(s, u);
    }
  }

  lemma RetireKeeps(s: State, t: Tid, n: Addr)
    requires Inv(s) && StandsAt(s, t, Retiring(n))
    ensures n in s.nodes && Inv(Retire(s, t, n))
  {
    assert PcOk(s, t);
    var s' := Retire(s, t, n);
    forall k | s'.front <= k < |s'.line| ensures SlotOk(s', k) {
      assert SlotOk(s, k);
      if k > s.front { assert SlotOk(s, k - 1); }
    }
    forall u | u in s'.threads ensures PcOk(s', u) {
      if u != t { assert PcOk(s, u); }
    }
  }

  lemma AdvanceKeeps(s: State, t: Tid)
    requires Inv(s) && t in s.threads
    ensures Advance(s, t).Ok? && Inv(Advance(s, t).state)
  {
    assert PcOk(s, t);
    match s.threads[t]
    case Idle =>
    case Arriving(n) => ExchangeKeeps(s, t, n);
    case Linking(n, prev) => LinkKeeps(s, t, n, prev);
    case Spinning(n) =>
      if s.nodes[n].isOwned {
        assert SlotOk(s, s.nodes[n].ticket);
        FrontMovesTo(s, t, n, Inside(n), s.entered + [t]);
      }
    case Inside(n) => UnlockKeeps(s, t, n);
    case Waiting(n) =>
      if s.nodes[n].next != NULL { FrontMovesTo(s, t, n, Reading(n), s.entered); }
    case Reading(n) => FrontMovesTo(s, t, n, Handing(n, s.nodes[n].next), s.entered);
    case Handing(n, heir) => HandKeeps(s, t, n, heir);
    case Retiring(n) => RetireKeeps(s, t, n);
  }

  lemma StepKeeps(s: State, a: Action)
    requires Inv(s)
    ensures Step(s, a).Ok? && Inv(Step(s, a).state)
  {
    if a.t in s.threads {
      match a
      case Lock(t, n) => if s.threads[t].Idle? && n != NULL && n !in s.nodes { BuildKeeps(s, t, n); }
      case Go(t) => AdvanceKeeps(s, t);
    }
  }

  // Steps that neither add to the line, nor move its front, nor let the front thread in.
  lemma FifoStays(s: State, s': State)
    requires Fifo(s) && s'.line == s.line && s'.front == s.front
    requires s'.exchanged == s.exchanged && s'.entered == s.entered
    requires forall k :: s.front <= k < |s.line| ==>
               s.line[k] in s'.nodes && s'.nodes[s.line[k]].owner == s.nodes[s.line[k]].owner
    requires s.front < |s.line| ==> FrontIsIn(s') == FrontIsIn(s)
    ensures Fifo(s')
  {
  }

  lemma EnterFifo(s: State, t: Tid, n: Addr)
    requires Inv(s) && Fifo(s) && StandsAt(s, t, Spinning(n)) && n in s.nodes && s.nodes[n].isOwned
    ensures Fifo(Enter(s, t, n))
  {
    assert PcOk(s, t);
    assert SlotOk(s, s.nodes[n].ticket);
    assert s.line[s.front] == n && s.exchanged[s.front] == t;
    assert Enter(s, t, n).entered == s.exchanged[..s.front + 1];
  }

  lemma ExchangeFifo(s: State, t: Tid, n: Addr)
    requires Inv(s) && Fifo(s) && StandsAt(s, t, Arriving(n)) && n in s.nodes
    ensures Fifo(Exchange(s, t, n))
  {
    assert PcOk(s, t);
    var s' := Exchange(s, t, n);
    if s.front < |s.line| {
      assert SlotOk(s, s.front) && SlotOk(s, |s.line| - 1);
      assert s'.line[s.front] == s.line[s.front];
    }
    assert s.exchanged[..|s.entered|] == s'.exchanged[..|s.entered|];
    forall k | s'.front <= k < |s'.line|
      ensures s'.line[k] in s'.nodes && s'.nodes[s'.line[k]].owner == s'.exchanged[k]
    {
      if k < |s.line| { assert SlotOk(s, k); }
    }
  }

  lemma AdvanceFifo(s: State, t: Tid)
    requires Inv(s) && Fifo(s) && t in s.threads && Advance(s, t).Ok?
    ensures Fifo(Advance(s, t).state)
  {
    assert PcOk(s, t);
    hide Inv, Fifo;
    match s.threads[t]
    case Idle =>
    case Arriving(n) => ExchangeFifo(s, t, n);
    case Linking(n, prev) => LinkFifo(s, t, n, prev);
    case Spinning(n) => if s.nodes[n].isOwned { EnterFifo(s, t, n); }
    case Inside(n) => UnlockFifo(s, t, n);
    case Waiting(n) => FrontFifo(s, t, n);
    case Reading(n) => FrontFifo(s, t, n);
    case Handing(n, heir) => HandFifo(s, t, n, heir);
    case Retiring(n) => RetireFifo(s, t, n);
  }

  lemma LinkFifo(s: State, t: Tid, n: Addr, prev: Addr)
    requires Inv(s) && Fifo(s) && StandsAt(s, t, Linking(n, prev)) && Advance(s, t).Ok?
    ensures Fifo(Advance(s, t).state)
  {
    assert PcOk(s, t);
    assert SlotOk(s, s.front);
    LinkKeeps(s, t, n, prev);
    FifoStays(s, Advance(s, t).state);
  }

  lemma UnlockFifo(s: State, t: Tid, n: Addr)
    requires Inv(s) && Fifo(s) && StandsAt(s, t, Inside(n)) && Advance(s, t).Ok?
    ensures Fifo(Advance(s, t).state)
  {
    assert PcOk(s, t);
    assert SlotOk(s, s.front) && SlotOk(s, |s.line| - 1);
  }

  lemma FrontFifo(s: State, t: Tid, n: Addr)
    requires Inv(s) && Fifo(s) && t in s.threads && (s.threads[t] == Waiting(n) || s.threads[t] == Reading(n))
    requires Advance(s, t).Ok?
    ensures Fifo(Advance(s, t).state)
  {
    assert PcOk(s, t);
    assert SlotOk(s, s.front);
    FifoStays(s, Advance(s, t).state);
  }

  lemma HandFifo(s: State, t: Tid, n: Addr, heir: Addr)
    requires Inv(s) && Fifo(s) && StandsAt(s, t, Handing(n, heir)) && Advance(s, t).Ok?
    ensures Fifo(Advance(s, t).state)
  {
    assert PcOk(s, t);
    assert SlotOk(s, s.front);
    HeirSpins(s, t, n, heir);
  }

  lemma RetireFifo(s: State, t: Tid, n: Addr)
    requires Inv(s) && Fifo(s) && StandsAt(s, t, Retiring(n)) && Advance(s, t).Ok?
    ensures Fifo(Advance(s, t).state)
  {
    assert PcOk(s, t);
    if s.front < |s.line| { assert SlotOk(s, s.front); }
    forall k | s.front <= k < |s.line| ensures s.line[k] != n {
      assert SlotOk(s, k);
    }
    FifoStays(s, Advance(s, t).state);
  }

  lemma StepFifo(s: State, a: Action)
    requires Inv(s) && Fifo(s) && Step(s, a).Ok?
    ensures Fifo(Step(s, a).state)
  {
    if a.t in s.threads {
      match a
      case Lock(t, n) =>
        if s.threads[t].Idle? && n != NULL && n !in s.nodes {
          if s.front < |s.line| { assert SlotOk(s, s.front); }
          FifoStays(s, Build(s, t, n));
        }
      case Go(t) => AdvanceFifo(s, t);
    }
  }

  // ----- Every run -----

  lemma InitOk(tids: set<Tid>)
    ensures Inv(Init(tids)) && Fifo(Init(tids))
  {
  }

  lemma {:induction false} RunKeeps(s: State, run: seq<Action>)
    requires Inv(s) && Fifo(s)
    ensures Exec(s, run).Ok? && Inv(Exec(s, run).state) && Fifo(Exec(s, run).state)
    decreases |run|
  {
    if run != [] {
      StepKeeps(s, run[0]);
      StepFifo(s, run[0]);
      RunKeeps(Step(s, run[0]).state, run[1..]);
    }
  }

  // ----- Main results -----

  ghost predicate Reachable(tids: set<Tid>, s: State) {
    exists run :: Exec(Init(tids), run) == Ok(s)
  }

  // No run touches the node of a guard that has been destroyed: such a step would be a Fault.
  lemma NodesSafe(tids: set<Tid>, run: seq<Action>)
    ensures Exec(Init(tids), run).Ok?
  {
    InitOk(tids);
    RunKeeps(Init(tids), run);
  }

  ghost predicate StepTo(s: State, s': State) {
    exists a :: Step(s, a) == Ok(s')
  }

  // In past, a step leads from place i to the next one.
  ghost predicate StepAt(past: seq<State>, i: nat)
    requires i < |past| - 1
  {
    StepTo(past[i], past[i + 1])
  }

  // The states of a run, one after another.
  ghost predicate IsRun(past: seq<State>, tids: set<Tid>) {
    past != [] && past[0] == Init(tids) && forall i :: 0 <= i < |past| - 1 ==> StepAt(past, i)
  }

  lemma {:induction false} ExecSnoc(s: State, run: seq<Action>, a: Action)
    requires Exec(s, run).Ok?
    ensures Exec(s, run + [a]) == Step(Exec(s, run).state, a)
    decreases |run|
  {
    if run == [] {
      assert (run + [a])[1..] == [];
    } else {
      assert (run + [a])[1..] == run[1..] + [a];
      ExecSnoc(Step(s, run[0]).state, run[1..], a);
    }
  }

  lemma {:induction false} RunReaches(past: seq<State>, tids: set<Tid>, i: nat)
    requires IsRun(past, tids) && i < |past|
    ensures Reachable(tids, past[i])
  {
    if i == 0 {
      assert Exec(Init(tids), []) == Ok(Init(tids));
    } else {
      RunReaches(past, tids, i - 1);
      assert StepAt(past, i - 1);
      var a :| Step(past[i - 1], a) == Ok(past[i]);
      var run :| Exec(Init(tids), run) == Ok(past[i - 1]);
      ExecSnoc(Init(tids), run, a);
    }
  }

  lemma ReachableOk(tids: set<Tid>, s: State)
    requires Reachable(tids, s)
    ensures Inv(s) && Fifo(s)
  {
    var run :| Exec(Init(tids), run) == Ok(s);
    InitOk(tids);
    RunKeeps(Init(tids), run);
  }

  // Past acquire and not yet released.
  predicate Owns(pc: Pc) {
    pc.Inside? || pc.Waiting? || pc.Reading? || pc.Handing?
  }

  lemma MutualExclusion(tids: set<Tid>, s: State, t: Tid, u: Tid)
    requires Reachable(tids, s) && t in s.threads && u in s.threads
    requires Owns(s.threads[t]) && Owns(s.threads[u])
    ensures t == u
  {
    ReachableOk(tids, s);
    assert PcOk(s, t) && PcOk(s, u);
  }

  // Threads get the lock in the order of their tail exchanges, and the ones that have
  // exchanged but not yet entered are exactly the rest of that order.
  lemma StrictFifo(tids: set<Tid>, s: State)
    requires Reachable(tids, s)
    ensures s.entered <= s.exchanged
    ensures forall k :: |s.entered| <= k < |s.exchanged| ==>
              var t := s.exchanged[k];
              t in s.threads && (s.threads[t].Linking? || s.threads[t].Spinning?)
  {
    ReachableOk(tids, s);
    forall k | |s.entered| <= k < |s.exchanged|
      ensures var t := s.exchanged[k];
              t in s.threads && (s.threads[t].Linking? || s.threads[t].Spinning?)
    {
      assert SlotOk(s, k);
    }
  }

  // The store that hands the lock over hits the node of the next thread in line, which is alive
  // and still spinning; and a thread that links itself stores into a node whose thread has not left.
  lemma StoresHitLiveNodes(tids: set<Tid>, s: State, t: Tid)
    requires Reachable(tids, s) && t in s.threads
    ensures s.threads[t].Handing? ==>
              var heir := s.threads[t].heir;
              && heir in s.nodes && s.front + 1 < |s.line| && heir == s.line[s.front + 1]
              && s.nodes[heir].owner in s.threads && s.threads[s.nodes[heir].owner] == Spinning(heir)
    ensures s.threads[t].Linking? ==>
              var prev := s.threads[t].prev;
              && prev in s.nodes && s.nodes[prev].next == NULL
              && s.nodes[prev].owner in s.threads
              && !s.threads[s.nodes[prev].owner].Idle? && !s.threads[s.nodes[prev].owner].Retiring?
              && s.threads[s.nodes[prev].owner].n == prev
  {
    ReachableOk(tids, s);
    if s.threads[t].Handing? { HeirSpins(s, t, s.threads[t].n, s.threads[t].heir); }
    if s.threads[t].Linking? {
      assert PcOk(s, t);
      var k := s.nodes[s.threads[t].n].ticket;
      assert SlotOk(s, k) && SlotOk(s, k - 1);
      assert PcOk(s, s.nodes[s.threads[t].prev].owner);
    }
  }

  // ----- Handoff -----

  // The thread of the k-th place in the line.
  ghost function ThreadAt(s: State, k: nat): Tid
    requires k < |s.line| && s.line[k] in s.nodes
  {
    s.nodes[s.line[k]].owner
  }

  // How many steps the handoff still needs at most.
  ghost function Distance(s: State): nat
    requires Inv(s) && s.front < |s.line|
  {
    assert SlotOk(s, s.front);
    match s.threads[ThreadAt(s, s.front)]
    case Spinning(_) => 6
    case Inside(_) => 5
    case Waiting(n) => if s.nodes[n].next == NULL then 4 else 3
    case Reading(_) => 2
    case Handing(_, _) => 1
    case _ => 0
  }

  // Who makes the next of them: the front thread, or its successor if that has not linked itself.
  ghost function Helper(s: State): Tid
    requires Inv(s) && s.front < |s.line|
  {
    assert SlotOk(s, s.front);
    assert PcOk(s, ThreadAt(s, s.front));
    var pc := s.threads[ThreadAt(s, s.front)];
    if pc.Waiting? && s.nodes[pc.n].next == NULL then
      assert SlotOk(s, s.front + 1);
      ThreadAt(s, s.front + 1)
    else ThreadAt(s, s.front)
  }

  // The front has moved on by one, and the next thread in line, if any, has been given the lock.
  ghost predicate HandedOver(s: State, s': State) {
    && s'.front == s.front + 1 <= |s'.line| && s.line <= s'.line
    && (s'.front < |s'.line| ==> s'.line[s'.front] in s'.nodes && s'.nodes[s'.line[s'.front]].isOwned)
    && (s'.front == |s'.line| ==> s'.tail == NULL)
  }

  lemma LinkHelps(s: State)
    requires Inv(s) && s.front < |s.line| && Distance(s) == 4
    ensures var t := Helper(s);
            t in s.threads && Advance(s, t).Ok? &&
            var s' := Advance(s, t).state;
            Inv(s') && s'.line == s.line && s'.front == s.front && Distance(s') == 3
  {
    assert SlotOk(s, s.front);
    assert PcOk(s, ThreadAt(s, s.front));
    assert SlotOk(s, s.front + 1);
    AdvanceKeeps(s, Helper(s));
  }

  // The helper's next step brings the handoff closer or completes it.
  lemma HelperHelps(s: State)
    requires Inv(s) && s.front < |s.line|
    ensures var t := Helper(s);
            t in s.threads && Advance(s, t).Ok? &&
            var s' := Advance(s, t).state;
            Inv(s') && (HandedOver(s, s') || (s'.line == s.line && s'.front == s.front && Distance(s') < Distance(s)))
  {
    assert SlotOk(s, s.front);
    assert PcOk(s, ThreadAt(s, s.front));
    AdvanceKeeps(s, ThreadAt(s, s.front));
    if Distance(s) == 4 {
      LinkHelps(s);
    } else {
      var t := Helper(s);
      match s.threads[t]
      case Spinning(n) =>
      case Inside(n) => assert SlotOk(s, |s.line| - 1);
      case Waiting(n) =>
      case Reading(n) =>
      case Handing(n, heir) => HeirSpins(s, t, n, heir);
    }
  }

  // No step of any thread sets the handoff back: either it is completed or its distance has not grown.
  lemma NobodyHinders(s: State, a: Action)
    requires Inv(s) && s.front < |s.line|
    ensures Step(s, a).Ok? &&
            var s' := Step(s, a).state;
            Inv(s') && (HandedOver(s, s') || (s.line <= s'.line && s'.front == s.front && Distance(s') <= Distance(s)))
  {
    StepKeeps(s, a);
    assert SlotOk(s, s.front) && SlotOk(s, |s.line| - 1);
    assert PcOk(s, ThreadAt(s, s.front));
    if a.t in s.threads {
      assert PcOk(s, a.t);
      if a.Go? && a.t == Helper(s) {
        HelperHelps(s);
      } else if a.Go? && s.threads[a.t].Arriving? {
        ArrivalHinders(s, a.t);
      }
    }
  }

  lemma ArrivalHinders(s: State, t: Tid)
    requires Inv(s) && s.front < |s.line| && t in s.threads && s.threads[t].Arriving?
    ensures Advance(s, t).Ok? &&
            var s' := Advance(s, t).state;
            Inv(s') && s.line <= s'.line && s'.front == s.front && Distance(s') == Distance(s)
  {
    AdvanceKeeps(s, t);
    assert PcOk(s, t);
    assert SlotOk(s, s.front);
    assert SlotOk(Advance(s, t).state, s.front);
    assert PcOk(s, ThreadAt(s, s.front));
  }

  ghost predicate OnlyBy(run: seq<Action>, front: Tid, next: Tid) {
    forall i :: 0 <= i < |run| ==> run[i].Go? && (run[i].t == front || run[i].t == next)
  }

  lemma HelperIs(s: State)
    requires Inv(s) && s.front < |s.line|
    ensures SlotOk(s, s.front) && (s.front + 1 < |s.line| ==> SlotOk(s, s.front + 1))
    ensures 1 <= Distance(s) <= 6
    ensures Helper(s) == ThreadAt(s, s.front) || (s.front + 1 < |s.line| && Helper(s) == ThreadAt(s, s.front + 1))
  {
    assert SlotOk(s, s.front);
    assert PcOk(s, ThreadAt(s, s.front));
    if s.front + 1 < |s.line| { assert SlotOk(s, s.front + 1); }
  }

  // From every reachable state with a waiter queue, at most six steps by the front thread and its
  // direct successor pass the lock to exactly that successor, or empty the queue if there is none.
  lemma {:induction false} HandoffBounded(s: State) returns (run: seq<Action>)
    requires Inv(s) && s.front < |s.line|
    ensures |run| <= Distance(s) <= 6 && Exec(s, run).Ok? && HandedOver(s, Exec(s, run).state)
    ensures Exec(s, run).state.line == s.line
    ensures SlotOk(s, s.front) && (s.front + 1 < |s.line| ==> SlotOk(s, s.front + 1))
    ensures OnlyBy(run, ThreadAt(s, s.front), ThreadAt(s, if s.front + 1 < |s.line| then s.front + 1 else s.front))
    decreases Distance(s)
  {
    hide PcOk;
    assert SlotOk(s, s.front);
    if s.front + 1 < |s.line| { assert SlotOk(s, s.front + 1); }
    HelperHelps(s);
    HelperIs(s);
    hide Inv, SlotOk, Advance, Helper, Distance;
    var t := Helper(s);
    var s' := Advance(s, t).state;
    run := [Go(t)];
    assert Step(s, run[0]) == Ok(s');
    if HandedOver(s, s') {
      assert run[1..] == [];
      HandedLine(s, t);
    } else {
      var rest := HandoffBounded(s');
      run := run + rest;
      assert run[1..] == rest;
      SameOwners(s, t);
    }
  }

  lemma HandedLine(s: State, t: Tid)
    requires Inv(s) && s.front < |s.line| && t == Helper(s) && t in s.threads
    ensures Advance(s, t).Ok? ==> Advance(s, t).state.line == s.line
  {
    assert SlotOk(s, s.front);
    assert PcOk(s, ThreadAt(s, s.front));
    if s.front + 1 < |s.line| { assert SlotOk(s, s.front + 1); }
  }

  // The helper's step leaves the owners of the front nodes alone.
  lemma SameOwners(s: State, t: Tid)
    requires Inv(s) && s.front < |s.line| && t == Helper(s) && t in s.threads && Advance(s, t).Ok?
    requires var s' := Advance(s, t).state; s'.line == s.line && s'.front == s.front
    ensures var s' := Advance(s, t).state;
            forall k :: s.front <= k < |s.line| ==>
              s.line[k] in s.nodes && s.line[k] in s'.nodes && ThreadAt(s', k) == ThreadAt(s, k)
  {
    var s' := Advance(s, t).state;
    assert SlotOk(s, s.front);
    assert PcOk(s, ThreadAt(s, s.front));
    if s.front + 1 < |s.line| { assert SlotOk(s, s.front + 1); }
    forall k | s.front <= k < |s.line|
      ensures s.line[k] in s.nodes && s.line[k] in s'.nodes && ThreadAt(s', k) == ThreadAt(s, k)
    {
      assert SlotOk(s, k);
    }
  }

  // ----- Every waiter enters -----

  // How many of the steps in the run are made by the helper of their moment.
  ghost function HelpSteps(s: State, run: seq<Action>): nat
    decreases |run|
  {
    if run == [] then 0
    else match Step(s, run[0])
      case Fault => 0
      case Ok(next) => (if Helps(s, run[0]) then 1 else 0) + HelpSteps(next, run[1..])
  }

  ghost predicate Helps(s: State, a: Action) {
    a.Go? && Inv(s) && s.front < |s.line| && a.t == Helper(s)
  }

  // How many helper steps lie before place p at most: its own handoff, and six for each before it.
  ghost function Ahead(s: State, p: nat): nat
    requires Inv(s) && s.front <= p < |s.line|
  {
    6 * (p - s.front) + Distance(s)
  }

  lemma FrontGrows(s: State, a: Action)
    requires Step(s, a).Ok?
    ensures s.front <= Step(s, a).state.front && s.line <= Step(s, a).state.line
  {
  }

  // A step never makes the way of place p longer, and a helper's step makes it shorter.
  lemma StepAhead(s: State, a: Action, p: nat)
    requires Inv(s) && s.front <= p < |s.line|
    ensures Step(s, a).Ok? &&
            var s' := Step(s, a).state;
            && Inv(s') && p < |s'.line|
            && (p < s'.front || (s'.front <= p && Ahead(s', p) + (if Helps(s, a) then 1 else 0) <= Ahead(s, p)))
  {
    NobodyHinders(s, a);
    var s' := Step(s, a).state;
    HelperIs(s);
    if Helps(s, a) { HelperHelps(s); }
    if s'.front <= p < |s'.line| { HelperIs(s'); }
    hide Inv, Step, Helper, Distance, SlotOk;
  }

  // Place p has been entered, or its way has become shorter by the helpers' steps.
  lemma {:induction false} RunAhead(s: State, run: seq<Action>, p: nat)
    requires Inv(s) && Fifo(s) && p < |s.line|
    ensures Exec(s, run).Ok? &&
            var e := Exec(s, run).state;
            && Inv(e) && Fifo(e) && p < |e.line|
            && (p < e.front || (s.front <= e.front <= p && Ahead(e, p) + HelpSteps(s, run) <= Ahead(s, p)))
    decreases |run|
  {
    if run != [] {
      StepKeeps(s, run[0]);
      StepFifo(s, run[0]);
      FrontGrows(s, run[0]);
      var next := Step(s, run[0]).state;
      if s.front <= p { StepAhead(s, run[0], p); }
      hide Inv, Fifo, Step, Ahead, Helps;
      RunAhead(next, run[1..], p);
    }
  }

  // The waiter at place p of the line enters after at most six helper steps for each place before it
  // and one more, whatever the other threads do in between.
  lemma WaiterEnters(tids: set<Tid>, s: State, run: seq<Action>, p: nat)
    requires Reachable(tids, s) && s.front <= p < |s.line|
    ensures Exec(s, run).Ok? && s.line[p] in s.nodes
    ensures HelpSteps(s, run) > 6 * (p - s.front) ==>
              var e := Exec(s, run).state;
              p < |e.entered| && e.entered[p] == ThreadAt(s, p)
  {
    ReachableOk(tids, s);
    RunAhead(s, run, p);
    assert SlotOk(s, p);
    HelperIs(s);
    RunExchanged(s, run);
    if HelpSteps(s, run) > 6 * (p - s.front) { NearlyThere(Exec(s, run).state, p); }
  }

  // Whoever is at the front and nearer than six steps to the handoff is inside.
  lemma NearlyThere(s: State, p: nat)
    requires Inv(s) && Fifo(s) && p < |s.line| && (s.front <= p ==> Ahead(s, p) <= 5)
    ensures p < |s.entered| && s.entered[p] == s.exchanged[p]
  {
    if s.front <= p {
      HelperIs(s);
      assert s.front == p;
      assert SlotOk(s, p);
    }
  }

  lemma {:induction false} RunExchanged(s: State, run: seq<Action>)
    requires Exec(s, run).Ok?
    ensures s.exchanged <= Exec(s, run).state.exchanged
    decreases |run|
  {
    if run != [] { RunExchanged(Step(s, run[0]).state, run[1..]); }
  }
}
