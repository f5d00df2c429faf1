/**
 The high-load lock-free stack: split reference counts, an external one packed
 beside the head pointer and an internal one in each node, merged on pop.

 A state holds the shared memory, one program counter per thread and, at the
 end, history variables that no step reads back. One atomic access to shared
 memory is one step. Touching a node that is not allocated is a Fault, so
 memory safety is a theorem here and not an assumption.
 */
module HlStack {
  import opened Prelude

  type Addr = nat
  const NULL: Addr := 0

  // A counted pointer: the head of the stack and the link of every node.
  datatype Ref = Ref(count: int, ptr: Addr)

  datatype Node = Node(data: Option<Value>, next: Ref, count: int)

  datatype Effect = Pushed(t: Tid, v: Value) | Popped(t: Tid, v: Value) | SawEmpty(t: Tid)

  // Where a thread stands, with the local variables it still needs.
  datatype Pc =
    | Idle
    | PushTry(node: Addr)                            // about to CAS head to node
    | PullLoad                                       // about to load head
    | PullIncrement(seen: Ref)                        // about to CAS head to seen with its count raised
    | PullRead(seen: Ref)                             // holds seen.ptr, about to read its link
    | PullCas(seen: Ref, next: Ref)                   // about to CAS head from seen to next
    | PullTake(seen: Ref)                             // won the CAS, about to move the data out
    | PullMerge(seen: Ref, res: Option<Value>)        // about to merge the counts
    | PullFree(node: Addr, res: Option<Value>)       // merged to zero, about to delete
    | Release(node: Addr, seen: Ref)                  // lost the CAS, about to drop its count
    | Fence(node: Addr, seen: Ref)                    // dropped the last count, about to fence
    | Drop(node: Addr, seen: Ref)                     // about to delete

  datatype Thread = Thread(pc: Pc, returned: seq<Effect>)

  // Who is responsible for an allocated node (history variable).
  datatype Phase = Private(t: Tid) | Linked(pos: nat) | Won(t: Tid) | Shared | Doomed(t: Tid)

  datatype State = State(
    head: Ref,
    heap: map<Addr, Node>,
    threads: map<Tid, Thread>,
    chain: seq<Addr>,            // history: the linked nodes, bottom first
    phase: map<Addr, Phase>,     // history
    log: seq<Effect>)             // history: operations in the order they took effect

  datatype Outcome = Ok(state: State) | Fault

  // A new node gets any unallocated address, so a freed one may come back.
  datatype Action =
    | StartPush(t: Tid, v: Value, node: Addr)
    | StartPull(t: Tid)
    | Go(t: Tid, spurious: bool)

  function Init(tids: set<Tid>): State {
    State(Ref(0, NULL), map[], map t | t in tids :: Thread(Idle, []), [], map[], [])
  }

  // ----- The atomic steps -----

  predicate StandsAt(s: State, t: Tid, pc: Pc) {
    t in s.threads && s.threads[t].pc == pc
  }

  function At(s: State, t: Tid, pc: Pc): map<Tid, Thread>
    requires t in s.threads
  {
    s.threads[t := s.threads[t].(pc := pc)]
  }

  // The calling thread leaves its operation with the given response.
  function Back(s: State, t: Tid, e: Effect): map<Tid, Thread>
    requires t in s.threads
  {
    s.threads[t := Thread(Idle, s.threads[t].returned + [e])]
  }

  function Datum(heap: map<Addr, Node>, n: Addr): Value {
    if n in heap && heap[n].data.Some? then heap[n].data.value else 0
  }

  // A pull returns a null pointer for "empty" and for a node without data alike.
  function Response(t: Tid, res: Option<Value>): Effect {
    if res.Some? then Popped(t, res.value) else SawEmpty(t)
  }

  function PushPrepare(s: State, t: Tid, v: Value, n: Addr): State
    requires t in s.threads
  {
    s.(heap := s.heap[n := Node(Some(v), s.head, 0)],
       threads := At(s, t, PushTry(n)),
       phase := s.phase[n := Private(t)])
  }

  function PushWin(s: State, t: Tid, n: Addr): State
    requires t in s.threads
  {
    var e := Pushed(t, Datum(s.heap, n));
    s.(head := Ref(1, n),
       threads := Back(s, t, e),
       chain := s.chain + [n],
       phase := s.phase[n := Linked(|s.chain|)],
       log := s.log + [e])
  }

  function PushLose(s: State, t: Tid, n: Addr): State
    requires t in s.threads && n in s.heap
  {
    s.(heap := s.heap[n := s.heap[n].(next := s.head)])
  }

  function IncrementWin(s: State, t: Tid, seen: Ref): State
    requires t in s.threads
  {
    var up := Ref(seen.count + 1, seen.ptr);
    if seen.ptr == NULL then
      s.(head := up, threads := Back(s, t, SawEmpty(t)), log := s.log + [SawEmpty(t)])
    else
      s.(head := up, threads := At(s, t, PullRead(up)))
  }

  function CasWin(s: State, t: Tid, seen: Ref, next: Ref): State
    requires t in s.threads
  {
    s.(head := next,
       threads := At(s, t, PullTake(seen)),
       chain := if s.chain == [] then [] else s.chain[..|s.chain| - 1],
       phase := s.phase[seen.ptr := Won(t)],
       log := s.log + [Popped(t, Datum(s.heap, seen.ptr))])
  }

  function Take(s: State, t: Tid, seen: Ref): State
    requires t in s.threads && seen.ptr in s.heap
  {
    s.(heap := s.heap[seen.ptr := s.heap[seen.ptr].(data := None)],
       threads := At(s, t, PullMerge(seen, s.heap[seen.ptr].data)))
  }

  function Merge(s: State, t: Tid, seen: Ref, res: Option<Value>): State
    requires t in s.threads && seen.ptr in s.heap
  {
    var n := seen.ptr;
    var decrease := seen.count - 2;
    var was := s.heap[n].count;
    var heap := s.heap[n := s.heap[n].(count := was + decrease)];
    if was == -decrease then
      s.(heap := heap, threads := At(s, t, PullFree(n, res)), phase := s.phase[n := Doomed(t)])
    else
      s.(heap := heap, threads := Back(s, t, Response(t, res)), phase := s.phase[n := Shared])
  }

  function Decrement(s: State, t: Tid, n: Addr, seen: Ref): State
    requires t in s.threads && n in s.heap
  {
    var was := s.heap[n].count;
    var heap := s.heap[n := s.heap[n].(count := was - 1)];
    if was == 1 then
      s.(heap := heap, threads := At(s, t, Fence(n, seen)), phase := s.phase[n := Doomed(t)])
    else
      s.(heap := heap, threads := At(s, t, PullIncrement(seen)))
  }

  function Delete(s: State, n: Addr, threads: map<Tid, Thread>): State {
    s.(heap := s.heap - {n}, phase := s.phase - {n}, threads := threads)
  }

  // The next atomic step of a thread that is inside an operation.
  function Advance(s: State, t: Tid, spurious: bool): Outcome
    requires t in s.threads
  {
    match s.threads[t].pc
    case Idle => Ok(s)
    case PushTry(n) =>
      if n !in s.heap then Fault
      else if !spurious && s.head == s.heap[n].next then Ok(PushWin(s, t, n))
      else Ok(PushLose(s, t, n))
    case PullLoad => Ok(s.(threads := At(s, t, PullIncrement(s.head))))
    case PullIncrement(seen) =>
      if s.head == seen then Ok(IncrementWin(s, t, seen))
      else Ok(s.(threads := At(s, t, PullIncrement(s.head))))
    case PullRead(seen) =>
      if seen.ptr !in s.heap then Fault
      else Ok(s.(threads := At(s, t, PullCas(seen, s.heap[seen.ptr].next))))
    case PullCas(seen, next) =>
      if s.head == seen then Ok(CasWin(s, t, seen, next))
      else Ok(s.(threads := At(s, t, Release(seen.ptr, s.head))))
    case PullTake(seen) =>
      if seen.ptr !in s.heap then Fault else Ok(Take(s, t, seen))
    case PullMerge(seen, res) =>
      if seen.ptr !in s.heap then Fault else Ok(Merge(s, t, seen, res))
    case PullFree(n, res) =>
      if n !in s.heap then Fault else Ok(Delete(s, n, Back(s, t, Response(t, res))))
    case Release(n, seen) =>
      if n !in s.heap then Fault else Ok(Decrement(s, t, n, seen))
    case Fence(n, seen) =>
      if n !in s.heap then Fault else Ok(s.(threads := At(s, t, Drop(n, seen))))
    case Drop(n, seen) =>
      if n !in s.heap then Fault else Ok(Delete(s, n, At(s, t, PullIncrement(seen))))
  }

  // An action that its thread cannot take now changes nothing.
  function Step(s: State, a: Action): Outcome {
    if a.t !in s.threads then Ok(s)
    else match a
      case StartPush(t, v, n) =>
        if s.threads[t].pc.Idle? && n != NULL && n !in s.heap then Ok(PushPrepare(s, t, v, n)) else Ok(s)
      case StartPull(t) =>
        if s.threads[t].pc.Idle? then Ok(s.(threads := At(s, t, PullLoad))) else Ok(s)
      case Go(t, spurious) => Advance(s, t, spurious)
  }

  function Exec(s: State, run: seq<Action>): Outcome
    decreases |run|
  {
    if run == [] then Ok(s)
    else match Step(s, run[0])
      case Fault => Fault
      case Ok(next) => Exec(next, run[1..])
  }

  // ----- The reclamation invariant -----

  // The node a thread refers to, if any.
  function NodeOf(pc: Pc): Addr {
    match pc
    case Idle => NULL
    case PushTry(n) => n
    case PullLoad => NULL
    case PullIncrement(_) => NULL
    case PullRead(seen) => seen.ptr
    case PullCas(seen, _) => seen.ptr
    case PullTake(seen) => seen.ptr
    case PullMerge(seen, _) => seen.ptr
    case PullFree(n, _) => n
    case Release(n, _) => n
    case Fence(n, _) => n
    case Drop(n, _) => n
  }

  // The thread still counts for node n: it raised the external count and has not given it back.
  predicate Holds(pc: Pc, n: Addr) {
    (pc.PullRead? || pc.PullCas? || pc.PullTake? || pc.PullMerge? || pc.Release?) && NodeOf(pc) == n
  }

  ghost function Holders(s: State, n: Addr): set<Tid> {
    set t | t in s.threads && Holds(s.threads[t].pc, n)
  }

  ghost function Count(s: State, n: Addr): int {
    |Holders(s, n)|
  }

  // The number of holders of n after thread t turns into x.
  ghost function Moved(s: State, t: Tid, x: Thread, n: Addr): int
    requires t in s.threads
  {
    Count(s, n) - (if Holds(s.threads[t].pc, n) then 1 else 0) + (if Holds(x.pc, n) then 1 else 0)
  }

  // The counted pointer that leads to position i of the chain.
  ghost function Link(s: State, i: nat): Ref
    requires i < |s.chain|
  {
    if i == |s.chain| - 1 then s.head
    else if s.chain[i + 1] in s.heap then s.heap[s.chain[i + 1]].next
    else Ref(0, NULL)
  }

  // The pointer below the bottom of the chain.
  ghost function Bottom(s: State): Addr {
    if s.chain == [] then s.head.ptr
    else if s.chain[0] in s.heap then s.heap[s.chain[0]].next.ptr
    else NULL
  }

  // Position i of the chain is an allocated, linked node, and
  // external count - 1 + internal count = number of holders.
  ghost predicate LinkOk(s: State, i: nat)
    requires i < |s.chain|
  {
    var n := s.chain[i];
    && n in s.heap && n in s.phase && s.phase[n] == Linked(i)
    && Link(s, i).ptr == n
    && Link(s, i).count - 1 + s.heap[n].count == Count(s, n)
    && s.heap[n].count <= 0
  }

  ghost predicate ChainOk(s: State) {
    && (forall i :: 0 <= i < |s.chain| ==> LinkOk(s, i))
    && Bottom(s) == NULL
    && (forall n :: n in s.phase && s.phase[n].Linked? ==> s.phase[n].pos < |s.chain| && s.chain[s.phase[n].pos] == n)
  }

  ghost predicate Held(s: State, t: Tid, n: Addr) {
    && n in s.heap && n in s.phase
    && (s.phase[n].Linked? || s.phase[n].Shared? || (s.phase[n].Won? && s.phase[n].t != t))
  }

  ghost predicate WonBy(s: State, t: Tid, seen: Ref) {
    && seen.ptr in s.heap && seen.ptr in s.phase
    && s.phase[seen.ptr] == Won(t)
    && seen.count - 1 + s.heap[seen.ptr].count == Count(s, seen.ptr)
    && s.heap[seen.ptr].count <= 0
  }

  ghost predicate PcOk(s: State, t: Tid)
    requires t in s.threads
  {
    match s.threads[t].pc
    case Idle => true
    case PushTry(n) => n in s.heap && n in s.phase && s.phase[n] == Private(t)
    case PullLoad => true
    case PullIncrement(_) => true
    case PullRead(seen) => Held(s, t, seen.ptr)
    case PullCas(seen, next) => Held(s, t, seen.ptr) && s.heap[seen.ptr].next == next
    case PullTake(seen) => WonBy(s, t, seen) && s.heap[seen.ptr].data.Some?
    case PullMerge(seen, res) => WonBy(s, t, seen) && res.Some?
    case PullFree(n, res) => n in s.heap && n in s.phase && s.phase[n] == Doomed(t) && res.Some?
    case Release(n, _) => Held(s, t, n)
    case Fence(n, _) => n in s.heap && n in s.phase && s.phase[n] == Doomed(t)
    case Drop(n, _) => n in s.heap && n in s.phase && s.phase[n] == Doomed(t)
  }

  ghost predicate NodeOk(s: State, n: Addr)
    requires n in s.heap && n in s.phase
  {
    && n != NULL
    && match s.phase[n]
       case Private(t) =>
         && t in s.threads && s.threads[t].pc == PushTry(n)
         && s.heap[n].count == 0 && s.heap[n].data.Some? && Count(s, n) == 0
       case Linked(i) => s.heap[n].data.Some?
       case Won(t) =>
         && t in s.threads
         && (s.threads[t].pc.PullTake? || s.threads[t].pc.PullMerge?)
         && s.threads[t].pc.seen.ptr == n
       case Shared => s.heap[n].count == Count(s, n) > 0
       case Doomed(t) =>
         && t in s.threads && Count(s, n) == 0
         && (s.threads[t].pc.PullFree? || s.threads[t].pc.Fence? || s.threads[t].pc.Drop?)
         && s.threads[t].pc.node == n
  }

  ghost predicate Inv(s: State) {
    && s.phase.Keys == s.heap.Keys
    && ChainOk(s)
    && (forall t :: t in s.threads ==> PcOk(s, t))
    && (forall n :: n in s.heap ==> NodeOk(s, n))
  }

  // One thread moves: the holders of a node change by at most that thread.
  lemma HoldersAfter(s: State, s': State, t: Tid, x: Thread, n: Addr)
    requires t in s.threads && s'.threads == s.threads[t := x]
    ensures Holders(s', n) == (if Holds(x.pc, n) then Holders(s, n) + {t} else Holders(s, n) - {t})
    ensures Count(s', n) == Moved(s, t, x, n)
  {
    var rest := Holders(s, n) - {t};
    assert Holders(s', n) == (if Holds(x.pc, n) then rest + {t} else rest);
    assert Holders(s, n) == (if Holds(s.threads[t].pc, n) then rest + {t} else rest);
  }

  lemma HoldersAll(s: State, s': State, t: Tid, x: Thread)
    requires t in s.threads && s'.threads == s.threads[t := x]
    ensures forall n :: Count(s', n) == Moved(s, t, x, n)
  {
    forall n ensures Count(s', n) == Moved(s, t, x, n) {
      HoldersAfter(s, s', t, x, n);
    }
  }

  // A step of thread t that leaves node m alone.
  ghost predicate SameNode(s: State, s': State, m: Addr) {
    && (m in s.heap <==> m in s'.heap)
    && (m in s.phase <==> m in s'.phase)
    && (m in s.heap ==> s'.heap[m] == s.heap[m])
    && (m in s.phase ==> s'.phase[m] == s.phase[m])
    && Count(s', m) == Count(s, m)
  }

  // Thread t moves to x and only node n changes.
  ghost predicate Local(s: State, s': State, t: Tid, n: Addr) {
    && t in s.threads && t in s'.threads
    && s'.threads == s.threads[t := s'.threads[t]]
    && s'.phase.Keys == s'.heap.Keys
    && forall m :: m != n ==> SameNode(s, s', m)
  }

  lemma OtherThreadKeeps(s: State, s': State, t: Tid, n: Addr, u: Tid)
    requires Inv(s) && Local(s, s', t, n) && u in s.threads && u != t
    requires NodeOf(s.threads[u].pc) != n
    ensures PcOk(s', u)
  {
    assert PcOk(s, u);
    assert SameNode(s, s', NodeOf(s.threads[u].pc));
  }

  lemma OtherNodeKeeps(s: State, s': State, t: Tid, n: Addr, m: Addr)
    requires Inv(s) && Local(s, s', t, n) && m in s.heap && m != n
    requires s.phase[m].Linked? || s.phase[m].Shared? || s.phase[m].t != t
    ensures m in s'.heap && NodeOk(s', m)
  {
    assert SameNode(s, s', m);
    assert NodeOk(s, m);
  }

  // Everything that is not about t or n carries over.
  lemma Assemble(s: State, s': State, t: Tid, n: Addr)
    requires Inv(s) && Local(s, s', t, n)
    requires NodeOf(s.threads[t].pc) == n || NodeOf(s.threads[t].pc) == NULL
    requires ChainOk(s')
    requires PcOk(s', t)
    requires forall u :: u in s.threads && u != t && NodeOf(s.threads[u].pc) == n ==> PcOk(s', u)
    requires n in s'.heap ==> NodeOk(s', n)
    ensures Inv(s')
  {
    forall u | u in s'.threads ensures PcOk(s', u) {
      if u != t && NodeOf(s.threads[u].pc) != n {
        OtherThreadKeeps(s, s', t, n, u);
      }
    }
    forall m | m in s'.heap ensures NodeOk(s', m) {
      if m != n {
        assert SameNode(s, s', m);
        assert NodeOk(s, m);
        OtherNodeKeeps(s, s', t, n, m);
      }
    }
  }

  // The chain and its links stay; only the counts of node n need a look.
  lemma ChainStays(s: State, s': State, t: Tid, n: Addr)
    requires Inv(s) && Local(s, s', t, n)
    requires s'.chain == s.chain && s'.head == s.head
    requires n in s.phase && s.phase[n].Linked? ==>
               && n in s'.heap && n in s'.phase && s'.phase[n] == s.phase[n]
               && s'.heap[n].next == s.heap[n].next
               && Count(s', n) - s'.heap[n].count == Count(s, n) - s.heap[n].count
               && s'.heap[n].count <= s.heap[n].count
    requires n in s'.phase && s'.phase[n].Linked? ==> n in s.phase && s.phase[n].Linked?
    ensures ChainOk(s')
  {
    forall i | 0 <= i < |s.chain|
      ensures s.chain[i] in s.heap && s.chain[i] in s'.heap && s'.heap[s.chain[i]].next == s.heap[s.chain[i]].next
    {
      assert LinkOk(s, i);
      assert SameNode(s, s', s.chain[i]) || s.chain[i] == n;
    }
    forall i | 0 <= i < |s'.chain| ensures LinkOk(s', i) {
      assert LinkOk(s, i);
      assert SameNode(s, s', s.chain[i]) || s.chain[i] == n;
      assert Link(s', i) == Link(s, i);
    }
    forall m | m in s'.phase && s'.phase[m].Linked?
      ensures s'.phase[m].pos < |s'.chain| && s'.chain[s'.phase[m].pos] == m
    {
      assert SameNode(s, s', m) || m == n;
    }
  }

  // The head is null exactly when the chain is empty.
  lemma NullHead(s: State)
    requires Inv(s)
    ensures s.head.ptr == NULL <==> s.chain == []
    ensures s.chain != [] ==> s.chain[|s.chain| - 1] == s.head.ptr && LinkOk(s, |s.chain| - 1)
  {
    if s.chain != [] {
      assert LinkOk(s, |s.chain| - 1);
      assert NodeOk(s, s.head.ptr);
    }
  }

  lemma PrepareKeeps(s: State, t: Tid, v: Value, n: Addr)
    requires Inv(s) && StandsAt(s, t, Idle) && n != NULL && n !in s.heap
    ensures Inv(PushPrepare(s, t, v, n))
  {
    var s' := PushPrepare(s, t, v, n);
    HoldersAll(s, s', t, s'.threads[t]);
    NobodyHolds(s, n);
    ChainStays(s, s', t, n);
    Assemble(s, s', t, n);
  }

  // A node that is not allocated is referred to by nobody.
  lemma NobodyHolds(s: State, n: Addr)
    requires Inv(s) && n != NULL && n !in s.heap
    ensures Count(s, n) == 0
    ensures forall u :: u in s.threads ==> NodeOf(s.threads[u].pc) != n
  {
    forall u | u in s.threads ensures NodeOf(s.threads[u].pc) != n {
      assert PcOk(s, u);
    }
    assert Holders(s, n) == {};
  }

  lemma PushLoseKeeps(s: State, t: Tid, n: Addr)
    requires Inv(s) && StandsAt(s, t, PushTry(n))
    ensures Inv(PushLose(s, t, n))
  {
    var s' := PushLose(s, t, n);
    assert s'.threads == s.threads[t := s.threads[t]];
    HoldersAll(s, s', t, s.threads[t]);
    assert PcOk(s, t);
    assert NodeOk(s, n);
    forall u | u in s.threads && u != t ensures NodeOf(s.threads[u].pc) != n {
      assert PcOk(s, u);
    }
    ChainStays(s, s', t, n);
    Assemble(s, s', t, n);
  }

  lemma PushedChain(s: State, t: Tid, n: Addr)
    requires Inv(s) && StandsAt(s, t, PushTry(n)) && s.heap[n].next == s.head
    requires NodeOk(s, n) && s.phase[n].Private?
    requires forall m :: Count(PushWin(s, t, n), m) == Count(s, m)
    ensures ChainOk(PushWin(s, t, n))
  {
    var s' := PushWin(s, t, n);
    forall i | 0 <= i < |s'.chain| ensures LinkOk(s', i) {
      if i < |s.chain| {
        assert LinkOk(s, i);
        if i + 1 < |s.chain| { assert LinkOk(s, i + 1); }
        assert Link(s', i) == Link(s, i);
      }
    }
    if s.chain != [] { assert LinkOk(s, 0); }
  }

  lemma PushWinKeeps(s: State, t: Tid, n: Addr)
    requires Inv(s) && StandsAt(s, t, PushTry(n)) && s.heap[n].next == s.head
    ensures Inv(PushWin(s, t, n))
  {
    var s' := PushWin(s, t, n);
    HoldersAll(s, s', t, s'.threads[t]);
    assert PcOk(s, t);
    assert NodeOk(s, n);
    forall u | u in s.threads && u != t ensures NodeOf(s.threads[u].pc) != n {
      assert PcOk(s, u);
    }
    PushedChain(s, t, n);
    Assemble(s, s', t, n);
  }

  // A step that changes only where thread t stands, between two places that touch no new node.
  lemma MoveKeeps(s: State, t: Tid, x: Thread)
    requires Inv(s) && t in s.threads
    requires forall n :: Holds(x.pc, n) <==> Holds(s.threads[t].pc, n)
    requires NodeOf(s.threads[t].pc) == NodeOf(x.pc)
    requires s.threads[t].pc.Fence? ==> x.pc.Drop?
    requires x.pc.PullTake? || x.pc.PullMerge? ==> s.threads[t].pc == x.pc
    requires PcOk(s.(threads := s.threads[t := x]), t)
    requires !s.threads[t].pc.PushTry? && !s.threads[t].pc.PullTake? && !s.threads[t].pc.PullMerge?
    requires !s.threads[t].pc.PullFree? && !s.threads[t].pc.Drop?
    ensures Inv(s.(threads := s.threads[t := x]))
  {
    var s' := s.(threads := s.threads[t := x]);
    var n := NodeOf(x.pc);
    HoldersAll(s, s', t, x);
    if n in s.heap {
      assert NodeOk(s, n);
    }
    ChainStays(s, s', t, n);
    forall u | u in s.threads && u != t && NodeOf(s.threads[u].pc) == n ensures PcOk(s', u) {
      assert PcOk(s, u);
    }
    assert PcOk(s, t);
    Assemble(s, s', t, n);
  }

  // The head's own count rises together with the holders of the top node.
  lemma IncrementKeeps(s: State, t: Tid, seen: Ref)
    requires Inv(s) && StandsAt(s, t, PullIncrement(seen)) && s.head == seen
    ensures Inv(IncrementWin(s, t, seen))
  {
    var s' := IncrementWin(s, t, seen);
    var n := seen.ptr;
    HoldersAll(s, s', t, s'.threads[t]);
    NullHead(s);
    IncrementedChain(s, t, seen);
    if n in s.heap { assert NodeOk(s, n); }
    forall u | u in s.threads && u != t && NodeOf(s.threads[u].pc) == n ensures PcOk(s', u) {
      assert PcOk(s, u);
    }
    Assemble(s, s', t, n);
  }

  lemma IncrementedChain(s: State, t: Tid, seen: Ref)
    requires Inv(s) && StandsAt(s, t, PullIncrement(seen)) && s.head == seen
    requires forall m :: Count(IncrementWin(s, t, seen), m) == Count(s, m) + if m == seen.ptr != NULL then 1 else 0
    requires seen.ptr == NULL <==> s.chain == []
    ensures ChainOk(IncrementWin(s, t, seen))
  {
    var s' := IncrementWin(s, t, seen);
    forall i | 0 <= i < |s'.chain| ensures LinkOk(s', i) {
      assert LinkOk(s, i) && LinkOk(s, |s.chain| - 1);
    }
  }

  // Winning the CAS proves that the node is still on top with the count the winner saw.
  lemma WinnerOnTop(s: State, t: Tid, seen: Ref, next: Ref)
    requires Inv(s) && StandsAt(s, t, PullCas(seen, next)) && s.head == seen
    ensures s.chain != [] && s.chain[|s.chain| - 1] == seen.ptr && s.heap[seen.ptr].next == next
    ensures LinkOk(s, |s.chain| - 1) && NodeOk(s, seen.ptr)
  {
    assert PcOk(s, t);
    assert NodeOk(s, seen.ptr);
    NullHead(s);
  }

  lemma PoppedChain(s: State, t: Tid, seen: Ref, next: Ref)
    requires Inv(s) && StandsAt(s, t, PullCas(seen, next)) && s.head == seen
    requires s.chain != [] && s.chain[|s.chain| - 1] == seen.ptr && s.heap[seen.ptr].next == next
    requires forall m :: Count(CasWin(s, t, seen, next), m) == Count(s, m)
    ensures ChainOk(CasWin(s, t, seen, next))
  {
    var s' := CasWin(s, t, seen, next);
    assert LinkOk(s, |s.chain| - 1);
    forall i | 0 <= i < |s'.chain| ensures LinkOk(s', i) {
      assert LinkOk(s, i) && LinkOk(s, i + 1);
      assert Link(s', i) == Link(s, i);
    }
  }

  lemma CasWinKeeps(s: State, t: Tid, seen: Ref, next: Ref)
    requires Inv(s) && StandsAt(s, t, PullCas(seen, next)) && s.head == seen
    ensures Inv(CasWin(s, t, seen, next))
  {
    var s' := CasWin(s, t, seen, next);
    var n := seen.ptr;
    HoldersAll(s, s', t, s'.threads[t]);
    WinnerOnTop(s, t, seen, next);
    PoppedChain(s, t, seen, next);
    assert NodeOk(s, n);
    forall u | u in s.threads && u != t && NodeOf(s.threads[u].pc) == n ensures PcOk(s', u) {
      assert PcOk(s, u);
    }
    Assemble(s, s', t, n);
  }

  lemma TakeKeeps(s: State, t: Tid, seen: Ref)
    requires Inv(s) && StandsAt(s, t, PullTake(seen))
    ensures Inv(Take(s, t, seen))
  {
    var s' := Take(s, t, seen);
    var n := seen.ptr;
    HoldersAll(s, s', t, s'.threads[t]);
    assert PcOk(s, t);
    assert NodeOk(s, n);
    ChainStays(s, s', t, n);
    forall u | u in s.threads && u != t && NodeOf(s.threads[u].pc) == n ensures PcOk(s', u) {
      assert PcOk(s, u);
    }
    Assemble(s, s', t, n);
  }

  // The merge leaves an internal count equal to the number of threads still holding the node.
  lemma MergeKeeps(s: State, t: Tid, seen: Ref, res: Option<Value>)
    requires Inv(s) && StandsAt(s, t, PullMerge(seen, res))
    ensures Inv(Merge(s, t, seen, res))
    ensures Merge(s, t, seen, res).heap[seen.ptr].count == Count(Merge(s, t, seen, res), seen.ptr)
  {
    var s' := Merge(s, t, seen, res);
    var n := seen.ptr;
    HoldersAll(s, s', t, s'.threads[t]);
    assert PcOk(s, t);
    assert NodeOk(s, n);
    ChainStays(s, s', t, n);
    forall u | u in s.threads && u != t && NodeOf(s.threads[u].pc) == n
      ensures Count(s', n) > 0 && PcOk(s', u)
    {
      assert PcOk(s, u);
      assert u in Holders(s', n);
    }
    Assemble(s, s', t, n);
  }

  // A fetch that returns 1 can only come from the last holder of a merged node.
  lemma LastRelease(s: State, t: Tid, n: Addr, seen: Ref)
    requires Inv(s) && StandsAt(s, t, Release(n, seen))
    ensures n in s.heap && n in s.phase && n != NULL
    ensures s.heap[n].count == 1 ==> s.phase[n].Shared? && Count(s, n) == 1
    ensures s.phase[n].Shared? ==> s.heap[n].count == Count(s, n) > 0
    ensures s.phase[n].Shared? || s.phase[n].Linked? || (s.phase[n].Won? && s.phase[n].t != t)
  {
    assert PcOk(s, t);
    assert NodeOk(s, n);
    if s.phase[n].Linked? { assert LinkOk(s, s.phase[n].pos); }
    if s.phase[n].Won? { assert PcOk(s, s.phase[n].t); }
  }

  lemma DecrementKeeps(s: State, t: Tid, n: Addr, seen: Ref)
    requires Inv(s) && StandsAt(s, t, Release(n, seen))
    ensures Inv(Decrement(s, t, n, seen))
  {
    hide ChainOk, NodeOk, Count, Holders;
    var s' := Decrement(s, t, n, seen);
    HoldersAll(s, s', t, s'.threads[t]);
    LastRelease(s, t, n, seen);
    assert Count(s', n) == Count(s, n) - 1;
    DecrementNode(s, t, n, seen);
    assert Local(s, s', t, n);
    ChainStays(s, s', t, n);
    hide Local, Moved;
    forall u | u in s.threads && u != t && NodeOf(s.threads[u].pc) == n ensures PcOk(s', u) {
      DecrementOther(s, t, n, seen, u);
    }
    Assemble(s, s', t, n);
  }

  lemma DecrementNode(s: State, t: Tid, n: Addr, seen: Ref)
    requires Inv(s) && StandsAt(s, t, Release(n, seen)) && n in s.heap
    requires Count(Decrement(s, t, n, seen), n) == Count(s, n) - 1
    ensures n in Decrement(s, t, n, seen).heap && n in Decrement(s, t, n, seen).phase
    ensures NodeOk(Decrement(s, t, n, seen), n)
  {
    LastRelease(s, t, n, seen);
    assert NodeOk(s, n);
    hide ChainOk;
  }

  lemma DecrementOther(s: State, t: Tid, n: Addr, seen: Ref, u: Tid)
    requires Inv(s) && StandsAt(s, t, Release(n, seen)) && n in s.heap
    requires Count(Decrement(s, t, n, seen), n) == Count(s, n) - 1
    requires u in s.threads && u != t && NodeOf(s.threads[u].pc) == n
    ensures PcOk(Decrement(s, t, n, seen), u)
  {
    var s' := Decrement(s, t, n, seen);
    LastRelease(s, t, n, seen);
    assert PcOk(s, u);
    assert u in Holders(s', n);
  }

  // Only its doomer refers to a doomed node, so deleting it is safe.
  lemma DeleteKeeps(s: State, t: Tid, n: Addr, x: Thread)
    requires Inv(s) && t in s.threads
    requires s.threads[t].pc.PullFree? || s.threads[t].pc.Drop?
    requires s.threads[t].pc.node == n && (x.pc.Idle? || x.pc.PullIncrement?)
    ensures Inv(Delete(s, n, s.threads[t := x]))
  {
    var s' := Delete(s, n, s.threads[t := x]);
    HoldersAll(s, s', t, x);
    assert PcOk(s, t);
    assert NodeOk(s, n);
    forall u | u in s.threads && u != t ensures NodeOf(s.threads[u].pc) != n {
      assert PcOk(s, u);
    }
    ChainStays(s, s', t, n);
    Assemble(s, s', t, n);
  }

  // ----- Every step -----

  // The steps that only read or fence, and the lost CAS.
  lemma ReadKeeps(s: State, t: Tid, seen: Ref)
    requires Inv(s) && StandsAt(s, t, PullRead(seen))
    ensures seen.ptr in s.heap && Inv(s.(threads := At(s, t, PullCas(seen, s.heap[seen.ptr].next))))
  {
    assert PcOk(s, t);
    hide Inv;
    MoveKeeps(s, t, s.threads[t].(pc := PullCas(seen, s.heap[seen.ptr].next)));
  }

  lemma LostKeeps(s: State, t: Tid, seen: Ref, next: Ref)
    requires Inv(s) && StandsAt(s, t, PullCas(seen, next))
    ensures Inv(s.(threads := At(s, t, Release(seen.ptr, s.head))))
  {
    assert PcOk(s, t);
    hide Inv;
    MoveKeeps(s, t, s.threads[t].(pc := Release(seen.ptr, s.head)));
  }

  lemma FenceKeeps(s: State, t: Tid, n: Addr, seen: Ref)
    requires Inv(s) && StandsAt(s, t, Fence(n, seen))
    ensures n in s.heap && Inv(s.(threads := At(s, t, Drop(n, seen))))
  {
    assert PcOk(s, t);
    hide Inv;
    MoveKeeps(s, t, s.threads[t].(pc := Drop(n, seen)));
  }

  lemma ReloadKeeps(s: State, t: Tid)
    requires Inv(s) && t in s.threads && (s.threads[t].pc.PullLoad? || s.threads[t].pc.PullIncrement?)
    ensures Inv(s.(threads := At(s, t, PullIncrement(s.head))))
  {
    hide Inv;
    MoveKeeps(s, t, s.threads[t].(pc := PullIncrement(s.head)));
  }

  lemma AdvanceKeeps(s: State, t: Tid, spurious: bool)
    requires Inv(s) && t in s.threads
    ensures Advance(s, t, spurious).Ok? && Inv(Advance(s, t, spurious).state)
  {
    NodeThere(s, t);
    hide Inv;
    match s.threads[t].pc
    case Idle =>
    case PushTry(n) =>
      if !spurious && s.head == s.heap[n].next { PushWinKeeps(s, t, n); } else { PushLoseKeeps(s, t, n); }
    case PullLoad => ReloadKeeps(s, t);
    case PullIncrement(seen) => if s.head == seen { IncrementKeeps(s, t, seen); } else { ReloadKeeps(s, t); }
    case PullRead(seen) => ReadKeeps(s, t, seen);
    case PullCas(seen, next) =>
      if s.head == seen { CasWinKeeps(s, t, seen, next); } else { LostKeeps(s, t, seen, next); }
    case PullTake(seen) => TakeKeeps(s, t, seen);
    case PullMerge(seen, res) => MergeKeeps(s, t, seen, res);
    case PullFree(n, res) => DeleteKeeps(s, t, n, Back(s, t, Response(t, res))[t]);
    case Release(n, seen) => DecrementKeeps(s, t, n, seen);
    case Fence(n, seen) => FenceKeeps(s, t, n, seen);
    case Drop(n, seen) => DeleteKeeps(s, t, n, At(s, t, PullIncrement(seen))[t]);
  }

  // The node that a thread refers to is allocated.
  lemma NodeThere(s: State, t: Tid)
    requires Inv(s) && t in s.threads
    ensures var pc := s.threads[t].pc;
            !pc.Idle? && !pc.PullLoad? && !pc.PullIncrement? ==> NodeOf(pc) in s.heap
  {
    assert PcOk(s, t);
  }

  lemma StepKeeps(s: State, a: Action)
    requires Inv(s)
    ensures Step(s, a).Ok? && Inv(Step(s, a).state)
  {
    if a.t in s.threads {
      match a
      case StartPush(t, v, n) =>
        if s.threads[t].pc.Idle? && n != NULL && n !in s.heap { PrepareKeeps(s, t, v, n); }
      case StartPull(t) =>
        if s.threads[t].pc.Idle? { MoveKeeps(s, t, s.threads[t].(pc := PullLoad)); }
      case Go(t, spurious) => AdvanceKeeps(s, t, spurious);
    }
  }
}
