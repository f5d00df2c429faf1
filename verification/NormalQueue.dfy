/**
 The two-lock queue of the thread pool: pushes work at the tail under one mutex
 while pulls work at the head under another. Nodes are allocated and deleted,
 and an address may be used again; touching a node outside its life, or the data
 of a node without data, is a Fault. Every access to a shared field is a step of
 its own, so a push and a pull interleave inside their critical sections.

 A pull that finds nothing sleeps on a condition variable until a notify. It has
 the head mutex until it sleeps; push and close notify without that mutex, so a
 notify can come between the pull's test and its sleep, and then it is lost. No
 sleeper wakes without a notify.
 */
module NormalQueue {
  import opened Prelude

  type Addr = nat
  const NULL: Addr := 0

  // ticket and maker are history: the node's place in the line (-1: none yet) and its allocator.
  datatype Node = Node(data: Option<Value>, next: Addr, ticket: int, maker: Tid)

  datatype Answer = Got(v: Value) | Nothing | Closed

  datatype Pc =
    | Idle
    | PushCheck(v: Value)                           // push: about to load closed_
    | PushAlloc(v: Value)                           // about to allocate the new tail node
    | PushLock(v: Value, n: Addr)                   // new node allocated, about to lock the tail mutex
    | PushData(v: Value, n: Addr)                   // about to write tail->data
    | PushNext(v: Value, n: Addr)                   // about to write tail->next
    | PushMove(v: Value, n: Addr)                   // about to write tail
    | PushUnlock(v: Value)                          // about to unlock the tail mutex
    | PushNotify(v: Value)                          // about to notify one sleeper
    | CloseNotify                                   // close: has set closed_, about to notify all sleepers
    | PullLock(waits: bool)                         // about to lock the head mutex
    | PullSnap(waits: bool)                         // about to read tail under the tail mutex
    | PullCompare(waits: bool, snap: Addr, wasEmpty: bool)  // about to compare head with the snapshot
    | PullClosed                                    // empty: about to load closed_ in the wait condition
    | PullSleep                                     // closed_ was not set: about to sleep
    | PullAsleep                                    // asleep, without the head mutex, until a notify
    | PullRecheck                                   // the wait is over: about to load closed_
    | PopNext                                       // about to move head->next out
    | PopData(rest: Addr)                           // about to move head->data out
    | PopHead(rest: Addr, v: Value)                 // about to move rest into head, deleting the old head
    | PullUnlock(answer: Answer)                    // about to unlock the head mutex

  // sent: values whose push has returned; refused: pushes that threw; got, nothing, closed: pulls.
  datatype Thread = Thread(pc: Pc, sent: seq<Value>, refused: nat, got: seq<Value>, nothing: nat, closed: nat)

  datatype State = State(
    head: Addr,
    tail: Addr,
    heap: map<Addr, Node>,
    headLock: Option<Tid>,
    tailLock: Option<Tid>,
    closed: bool,
    threads: map<Tid, Thread>,
    line: seq<Addr>,          // history: the tail nodes in order
    front: nat,               // history: head's place in the line
    pushed: seq<Event>,       // history: values in the order in which tail moved past them
    pulled: seq<Event>)       // history: values in the order in which head moved past them

  datatype Outcome = Ok(state: State) | Fault

  // Push checks closed_, TryPush does not; n is the address that an allocation returns, or the sleeper
  // that a notify wakes.
  datatype Action =
    | Push(t: Tid, v: Value)
    | TryPush(t: Tid, v: Value)
    | Pull(t: Tid)
    | TryPull(t: Tid)
    | Close(t: Tid)
    | Go(t: Tid, n: Addr)

  function Init(tids: set<Tid>, first: Addr): State
  {
    State(first, first, map[first := Node(None, NULL, 0, 0)], None, None, false,
          map t | t in tids :: Thread(Idle, [], 0, [], 0, 0), [first], 0, [], [])
  }

  predicate StandsAt(s: State, t: Tid, pc: Pc) {
    t in s.threads && s.threads[t].pc == pc
  }

  function To(s: State, t: Tid, pc: Pc): State
    requires t in s.threads
  {
    s.(threads := s.threads[t := s.threads[t].(pc := pc)])
  }

  function Alloc(s: State, t: Tid, n: Addr): State {
    s.(heap := s.heap[n := Node(None, NULL, -1, t)])
  }

  // push throws: the value and nothing else is given up.
  function Refuse(s: State, t: Tid): State
    requires t in s.threads
  {
    s.(threads := s.threads[t := s.threads[t].(pc := Idle, refused := s.threads[t].refused + 1)])
  }

  function WriteData(s: State, t: Tid, v: Value, n: Addr): State
    requires t in s.threads && s.tail in s.heap
  {
    To(s.(heap := s.heap[s.tail := s.heap[s.tail].(data := Some(v))]), t, PushNext(v, n))
  }

  function WriteNext(s: State, t: Tid, v: Value, n: Addr): State
    requires t in s.threads && s.tail in s.heap
  {
    To(s.(heap := s.heap[s.tail := s.heap[s.tail].(next := n)]), t, PushMove(v, n))
  }

  function MoveTail(s: State, t: Tid, v: Value, n: Addr): State
    requires t in s.threads && n in s.heap
  {
    To(s.(tail := n, heap := s.heap[n := s.heap[n].(ticket := |s.line|)], line := s.line + [n],
          pushed := s.pushed + [Event(t, v)]), t, PushUnlock(v))
  }

  function UnlockTail(s: State, t: Tid, v: Value): State
    requires t in s.threads
  {
    To(s.(tailLock := None), t, PushNotify(v))
  }

  function Sent(s: State, t: Tid, v: Value): State
    requires t in s.threads
  {
    s.(threads := s.threads[t := s.threads[t].(pc := Idle, sent := s.threads[t].sent + [v])])
  }

  predicate SomeAsleep(s: State) {
    exists u :: u in s.threads && s.threads[u].pc.PullAsleep?
  }

  function Wake(s: State, u: Tid): State
    requires u in s.threads
  {
    To(s, u, PullLock(true))
  }

  // notify_one wakes one sleeper, whichever, if there is one. A choice that is none changes nothing.
  function NotifyOne(s: State, t: Tid, v: Value, u: Tid): State
    requires t in s.threads
  {
    if u in s.threads && s.threads[u].pc.PullAsleep? then Sent(Wake(s, u), t, v)
    else if SomeAsleep(s) then s
    else Sent(s, t, v)
  }

  function Woken(th: Thread): Thread {
    if th.pc.PullAsleep? then th.(pc := PullLock(true)) else th
  }

  function WakeAll(s: State): State {
    s.(threads := map t | t in s.threads :: Woken(s.threads[t]))
  }

  // notify_all, and the end of close
  function NotifyAll(s: State, t: Tid): State
    requires t in s.threads
  {
    To(WakeAll(s), t, Idle)
  }

  function Sleep(s: State, t: Tid): State
    requires t in s.threads
  {
    To(s.(headLock := None), t, PullAsleep)
  }

  function Compare(s: State, t: Tid, waits: bool, snap: Addr): State
    requires t in s.threads
  {
    if s.head == snap then To(s, t, if waits then PullClosed else PullUnlock(Nothing))
    else To(s, t, if waits then PullRecheck else PopNext)
  }

  function MoveNext(s: State, t: Tid): State
    requires t in s.threads && s.head in s.heap
  {
    To(s.(heap := s.heap[s.head := s.heap[s.head].(next := NULL)]), t, PopData(s.heap[s.head].next))
  }

  function MoveData(s: State, t: Tid, rest: Addr): State
    requires t in s.threads && s.head in s.heap && s.heap[s.head].data.Some?
  {
    To(s.(heap := s.heap[s.head := s.heap[s.head].(data := None)]), t, PopHead(rest, s.heap[s.head].data.value))
  }

  function MoveHead(s: State, t: Tid, rest: Addr, v: Value): State
    requires t in s.threads
  {
    To(s.(heap := s.heap - {s.head}, head := rest, front := s.front + 1, pulled := s.pulled + [Event(t, v)]),
       t, PullUnlock(Got(v)))
  }

  function UnlockHead(s: State, t: Tid, answer: Answer): State
    requires t in s.threads
  {
    var th := s.threads[t];
    var back := match answer
      case Got(v) => th.(pc := Idle, got := th.got + [v])
      case Nothing => th.(pc := Idle, nothing := th.nothing + 1)
      case Closed => th.(pc := Idle, closed := th.closed + 1);
    s.(headLock := None, threads := s.threads[t := back])
  }

  // A thread that needs a mutex held by another one, or sleeps, stays where it is.
  function Advance(s: State, t: Tid, addr: nat): Outcome
    requires t in s.threads
  {
    match s.threads[t].pc
    case Idle => Ok(s)
    case PushCheck(v) => Ok(if s.closed then Refuse(s, t) else To(s, t, PushAlloc(v)))
    case PushAlloc(v) =>
      if addr == NULL || addr in s.heap then Ok(s) else Ok(To(Alloc(s, t, addr), t, PushLock(v, addr)))
    case PushLock(v, n) =>
      if s.tailLock.Some? then Ok(s) else Ok(To(s.(tailLock := Some(t)), t, PushData(v, n)))
    case PushData(v, n) => if s.tail !in s.heap then Fault else Ok(WriteData(s, t, v, n))
    case PushNext(v, n) => if s.tail !in s.heap then Fault else Ok(WriteNext(s, t, v, n))
    case PushMove(v, n) => if n !in s.heap then Fault else Ok(MoveTail(s, t, v, n))
    case PushUnlock(v) => Ok(UnlockTail(s, t, v))
    case PushNotify(v) => Ok(NotifyOne(s, t, v, addr))
    case CloseNotify => Ok(NotifyAll(s, t))
    case PullLock(waits) =>
      if s.headLock.Some? then Ok(s) else Ok(To(s.(headLock := Some(t)), t, PullSnap(waits)))
    case PullSnap(waits) =>
      if s.tailLock.Some? then Ok(s) else Ok(To(s, t, PullCompare(waits, s.tail, |s.pushed| == |s.pulled|)))
    case PullCompare(waits, snap, _) => Ok(Compare(s, t, waits, snap))
    case PullClosed => Ok(To(s, t, if s.closed then PullRecheck else PullSleep))
    case PullSleep => Ok(Sleep(s, t))
    case PullAsleep => Ok(s)
    case PullRecheck => Ok(To(s, t, if s.closed then PullUnlock(Closed) else PopNext))
    case PopNext => if s.head !in s.heap then Fault else Ok(MoveNext(s, t))
    case PopData(rest) =>
      if s.head !in s.heap || s.heap[s.head].data.None? then Fault else Ok(MoveData(s, t, rest))
    case PopHead(rest, v) => if s.head !in s.heap then Fault else Ok(MoveHead(s, t, rest, v))
    case PullUnlock(answer) => Ok(UnlockHead(s, t, answer))
  }

  function Step(s: State, a: Action): Outcome {
    if a.t !in s.threads then Ok(s)
    else if !a.Go? && !s.threads[a.t].pc.Idle? then Ok(s)
    else match a
      case Push(t, v) => Ok(To(s, t, PushCheck(v)))
      case TryPush(t, v) => Ok(To(s, t, PushAlloc(v)))
      case Pull(t) => Ok(To(s, t, PullLock(true)))
      case TryPull(t) => Ok(To(s, t, PullLock(false)))
      case Close(t) => Ok(To(s.(closed := true), t, CloseNotify))
      case Go(t, n) => Advance(s, t, n)
  }

  function Exec(s: State, run: seq<Action>): Outcome
    decreases |run|
  {
    if run == [] then Ok(s)
    else match Step(s, run[0])
      case Fault => Fault
      case Ok(next) => Exec(next, run[1..])
  }

  // ----- The invariant -----

  // The thread holds the tail mutex, or the head mutex.
  predicate AtTail(pc: Pc) {
    pc.PushData? || pc.PushNext? || pc.PushMove? || pc.PushUnlock?
  }

  predicate AtHead(pc: Pc) {
    pc.PullSnap? || pc.PullCompare? || pc.PullClosed? || pc.PullSleep? || pc.PullRecheck?
    || pc.PopNext? || pc.PopData? || pc.PopHead? || pc.PullUnlock?
  }

  // The push, or the pull, that is inside its critical section now.
  function Pusher(s: State): Pc {
    if s.tailLock.Some? && s.tailLock.value in s.threads then s.threads[s.tailLock.value].pc else Idle
  }

  function Puller(s: State): Pc {
    if s.headLock.Some? && s.headLock.value in s.threads then s.threads[s.headLock.value].pc else Idle
  }

  ghost predicate LocksOk(s: State) {
    && (s.tailLock.Some? ==> s.tailLock.value in s.threads && AtTail(Pusher(s)))
    && (s.headLock.Some? ==> s.headLock.value in s.threads && AtHead(Puller(s)))
    && (forall t :: t in s.threads ==> (AtTail(s.threads[t].pc) ==> s.tailLock == Some(t)))
    && (forall t :: t in s.threads ==> (AtHead(s.threads[t].pc) ==> s.headLock == Some(t)))
  }

  // Place i of the line from the head on: a node with its value and its link, unless the push p
  // at the tail or the pull q at the head is at work on it.
  ghost predicate PlaceOk(s: State, i: nat, p: Pc, q: Pc)
    requires i < |s.line|
  {
    s.line[i] in s.heap && s.line[i] != NULL &&
    var node := s.heap[s.line[i]];
    && node.ticket == i
    && if i == |s.line| - 1 then
         && node.data == (if p.PushNext? || p.PushMove? then Some(p.v) else None)
         && node.next == (if p.PushMove? then p.n else NULL)
       else
         && |s.pushed| > i
         && node.data == (if i == s.front && q.PopHead? then None else Some(s.pushed[i].v))
         && node.next == (if i == s.front && (q.PopData? || q.PopHead?) then NULL else s.line[i + 1])
  }

  ghost predicate PcOk(s: State, t: Tid)
    requires t in s.threads
  {
    match s.threads[t].pc
    case PushLock(_, n) => Spare(s, t, n)
    case PushData(_, n) => Spare(s, t, n)
    case PushNext(_, n) => Spare(s, t, n)
    case PushMove(_, n) => Spare(s, t, n)
    case PushUnlock(v) => true
    case PullCompare(_, snap, wasEmpty) => (s.head == snap <==> wasEmpty) && (!wasEmpty ==> s.front < |s.line| - 1)
    case PullRecheck => s.closed || s.front < |s.line| - 1
    case PopNext => s.front < |s.line| - 1
    case PopData(rest) => s.front < |s.line| - 1 && rest == s.line[s.front + 1]
    case PopHead(rest, v) =>
      && s.front < |s.line| - 1 && rest == s.line[s.front + 1] && |s.pushed| > s.front && v == s.pushed[s.front].v
    case _ => true
  }

  // A node that its allocator has not put into the line yet.
  ghost predicate Spare(s: State, t: Tid, n: Addr) {
    n != NULL && n in s.heap && s.heap[n] == Node(None, NULL, -1, t)
  }

  predicate SpareOf(pc: Pc, n: Addr) {
    (pc.PushLock? || pc.PushData? || pc.PushNext? || pc.PushMove?) && pc.n == n
  }

  ghost predicate PlacesOk(s: State, p: Pc, q: Pc) {
    forall i :: s.front <= i < |s.line| ==> PlaceOk(s, i, p, q)
  }

  // Every allocated node is in the line from the head on, or its allocator still has it.
  ghost predicate HeapOk(s: State) {
    forall n :: n in s.heap ==>
      if s.heap[n].ticket == -1 then s.heap[n].maker in s.threads && SpareOf(s.threads[s.heap[n].maker].pc, n)
      else s.front <= s.heap[n].ticket < |s.line| && s.line[s.heap[n].ticket] == n
  }

  ghost predicate Inv(s: State) {
    && LocksOk(s)
    && s.front < |s.line| == |s.pushed| + 1
    && s.head == s.line[s.front] && s.tail == s.line[|s.line| - 1]
    && PlacesOk(s, Pusher(s), Puller(s))
    && HeapOk(s)
    && (forall t :: t in s.threads ==> PcOk(s, t))
    && |s.pulled| == s.front
    && (forall i :: 0 <= i < s.front ==> s.pulled[i].v == s.pushed[i].v)
  }

  lemma InitOk(tids: set<Tid>, first: Addr)
    requires first != NULL
    ensures Inv(Init(tids, first))
  {
  }

  // The mutexes after a step of t: it may take a free one or give up its own.
  lemma LocksAfter(s: State, s': State, t: Tid)
    requires LocksOk(s) && t in s.threads && t in s'.threads && s'.threads == s.threads[t := s'.threads[t]]
    requires || s'.tailLock == s.tailLock || (s.tailLock.None? && s'.tailLock == Some(t))
             || (s.tailLock == Some(t) && s'.tailLock.None?)
    requires || s'.headLock == s.headLock || (s.headLock.None? && s'.headLock == Some(t))
             || (s.headLock == Some(t) && s'.headLock.None?)
    requires AtTail(s'.threads[t].pc) <==> s'.tailLock == Some(t)
    requires AtHead(s'.threads[t].pc) <==> s'.headLock == Some(t)
    ensures LocksOk(s')
    ensures Pusher(s') == if s'.tailLock == Some(t) then s'.threads[t].pc
                      else if s'.tailLock == s.tailLock then Pusher(s) else Idle
    ensures Puller(s') == if s'.headLock == Some(t) then s'.threads[t].pc
                      else if s'.headLock == s.headLock then Puller(s) else Idle
    ensures AtTail(s.threads[t].pc) ==> Pusher(s) == s.threads[t].pc
    ensures AtHead(s.threads[t].pc) ==> Puller(s) == s.threads[t].pc
    ensures AtTail(s.threads[t].pc) <==> s.tailLock == Some(t)
    ensures AtHead(s.threads[t].pc) <==> s.headLock == Some(t)
    ensures forall u :: u in s.threads && u != t ==> !(AtHead(s.threads[t].pc) && AtHead(s.threads[u].pc))
  {
  }

  // Whoever is inside a critical section holds its mutex.
  lemma AtItsLock(s: State, t: Tid)
    requires LocksOk(s) && t in s.threads
    ensures AtTail(s.threads[t].pc) ==> Pusher(s) == s.threads[t].pc
    ensures AtHead(s.threads[t].pc) ==> Puller(s) == s.threads[t].pc
    ensures AtTail(s.threads[t].pc) <==> s.tailLock == Some(t)
    ensures AtHead(s.threads[t].pc) <==> s.headLock == Some(t)
  {
  }

  // What a step of t leaves in place for another thread.
  lemma OtherStays(s: State, s': State, t: Tid, u: Tid)
    requires u in s.threads && u in s'.threads && s'.threads[u] == s.threads[u] && PcOk(s, u)
    requires s.closed ==> s'.closed
    requires forall n :: n in s.heap && s.heap[n].ticket == -1 && s.heap[n].maker != t ==>
               n in s'.heap && s'.heap[n] == s.heap[n]
    requires u != t && s.line <= s'.line && s.pushed <= s'.pushed
    requires (s'.head == s.head && s'.front == s.front) || !AtHead(s.threads[u].pc)
    ensures PcOk(s', u)
  {
  }

  // The parts of the invariant that do not mention mutexes.
  lemma Rest(s: State, s': State, t: Tid)
    requires Inv(s) && LocksOk(s') && t in s.threads && t in s'.threads && s'.threads == s.threads[t := s'.threads[t]]
    requires PlacesOk(s', Pusher(s'), Puller(s')) && HeapOk(s') && PcOk(s', t)
    requires s'.front < |s'.line| == |s'.pushed| + 1
    requires s'.head == s'.line[s'.front] && s'.tail == s'.line[|s'.line| - 1]
    requires |s'.pulled| == s'.front && forall i :: 0 <= i < s'.front ==> s'.pulled[i].v == s'.pushed[i].v
    requires s.closed ==> s'.closed
    requires forall n :: n in s.heap && s.heap[n].ticket == -1 && s.heap[n].maker != t ==>
               n in s'.heap && s'.heap[n] == s.heap[n]
    requires s.line <= s'.line && s.pushed <= s'.pushed
    requires (s'.head == s.head && s'.front == s.front)
             || forall u :: u in s.threads && u != t ==> !AtHead(s.threads[u].pc)
    ensures Inv(s')
  {
    forall u | u in s'.threads ensures PcOk(s', u) {
      if u != t { OtherStays(s, s', t, u); }
    }
  }

  // A step of t that changes neither the list nor a node, away from the places that own a node
  // or hold part of a pop.
  predicate Plain(pc: Pc) {
    !AtTail(pc) && !pc.PushLock? && !pc.PopData? && !pc.PopHead?
  }

  // The push or the pull is at work on a node.
  predicate AtWork(p: Pc, q: Pc) {
    p.PushNext? || p.PushMove? || q.PopData? || q.PopHead?
  }

  // The places stay as they are when none of their nodes changes and the work on them does not move on.
  lemma PlacesStay(s: State, s': State, p: Pc, q: Pc, p': Pc, q': Pc)
    requires PlacesOk(s, p, q) && s'.line == s.line && s'.front == s.front && s'.pushed == s.pushed
    requires forall n :: n in s.heap ==> n in s'.heap && s'.heap[n] == s.heap[n]
    requires p' == p || (!AtWork(p, Idle) && !AtWork(p', Idle))
    requires q' == q || (!AtWork(Idle, q) && !AtWork(Idle, q'))
    ensures PlacesOk(s', p', q')
  {
    forall i | s'.front <= i < |s'.line| ensures PlaceOk(s', i, p', q') {
      assert PlaceOk(s, i, p, q);
    }
  }

  lemma MoveKeeps(s: State, t: Tid, th: Thread, headLock: Option<Tid>)
    requires Inv(s) && t in s.threads && Plain(s.threads[t].pc) && Plain(th.pc)
    requires || (headLock == s.headLock && AtHead(th.pc) == AtHead(s.threads[t].pc))
             || (s.headLock.None? && headLock == Some(t) && AtHead(th.pc))
             || (AtHead(s.threads[t].pc) && headLock.None? && !AtHead(th.pc))
    requires PcOk(s.(headLock := headLock, threads := s.threads[t := th]), t)
    ensures Inv(s.(headLock := headLock, threads := s.threads[t := th]))
  {
    var s' := s.(headLock := headLock, threads := s.threads[t := th]);
    LocksAfter(s, s', t);
    MovePlaces(s, s', t);
    hide LocksOk, Pusher, Puller, PcOk, PlacesOk, PlaceOk;
    Rest(s, s', t);
  }

  lemma MovePlaces(s: State, s': State, t: Tid)
    requires Inv(s) && LocksOk(s') && t in s.threads && t in s'.threads && s'.threads == s.threads[t := s'.threads[t]]
    requires Plain(s.threads[t].pc) && Plain(s'.threads[t].pc)
    requires s' == s.(headLock := s'.headLock, threads := s'.threads)
    requires s'.headLock == s.headLock || s'.headLock.None? || s'.headLock == Some(t)
    ensures PlacesOk(s', Pusher(s'), Puller(s'))
  {
    hide PlacesOk, PcOk, HeapOk;
    PlacesStay(s, s', Pusher(s), Puller(s), Pusher(s'), Puller(s'));
  }

  lemma AllocKeeps(s: State, t: Tid, v: Value, n: Addr)
    requires Inv(s) && StandsAt(s, t, PushAlloc(v)) && n != NULL && n !in s.heap
    ensures Inv(To(Alloc(s, t, n), t, PushLock(v, n)))
  {
    hide PlacesOk, PlaceOk, LocksOk, Pusher, Puller;
    AtItsLock(s, t);
    var s' := To(Alloc(s, t, n), t, PushLock(v, n));
    LocksAfter(s, s', t);
    hide LocksOk, Pusher, Puller;
    PlacesStay(s, s', Pusher(s), Puller(s), Pusher(s'), Puller(s'));
    Rest(s, s', t);
  }

  lemma LockTailKeeps(s: State, t: Tid, v: Value, n: Addr)
    requires Inv(s) && StandsAt(s, t, PushLock(v, n)) && s.tailLock.None?
    ensures Inv(To(s.(tailLock := Some(t)), t, PushData(v, n)))
  {
    hide PlacesOk, PlaceOk;
    var s' := To(s.(tailLock := Some(t)), t, PushData(v, n));
    assert PcOk(s, t);
    LocksAfter(s, s', t);
    assert Pusher(s) == Idle;
    hide LocksOk, Pusher, Puller;
    PlacesStay(s, s', Pusher(s), Puller(s), Pusher(s'), Puller(s'));
    Rest(s, s', t);
  }

  // A write to the data or the link of node m leaves the allocated nodes where they are.
  lemma WriteHeap(s: State, s': State, t: Tid, m: Addr)
    requires HeapOk(s) && m in s.heap && m in s'.heap && s'.heap == s.heap[m := s'.heap[m]]
    requires s'.heap[m].ticket == s.heap[m].ticket && s'.heap[m].maker == s.heap[m].maker
    requires s'.line == s.line && s'.front == s.front
    requires t in s.threads && t in s'.threads && s'.threads == s.threads[t := s'.threads[t]]
    requires forall n :: SpareOf(s.threads[t].pc, n) ==> SpareOf(s'.threads[t].pc, n)
    ensures HeapOk(s')
  {
  }

  // What the three writes of a push do to the places, whatever pull q is under way.
  lemma WriteDataPlaces(s: State, t: Tid, v: Value, n: Addr, q: Pc)
    requires t in s.threads && s.front < |s.line| && s.tail == s.line[|s.line| - 1] && PlacesOk(s, PushData(v, n), q)
    ensures s.tail in s.heap && s.heap[s.tail].ticket == |s.line| - 1
    ensures PlacesOk(WriteData(s, t, v, n), PushNext(v, n), q)
  {
    assert PlaceOk(s, |s.line| - 1, PushData(v, n), q);
    var s' := WriteData(s, t, v, n);
    forall i | s'.front <= i < |s'.line| ensures PlaceOk(s', i, PushNext(v, n), q) {
      assert PlaceOk(s, i, PushData(v, n), q);
    }
  }

  lemma WriteNextPlaces(s: State, t: Tid, v: Value, n: Addr, q: Pc)
    requires t in s.threads && s.front < |s.line| && s.tail == s.line[|s.line| - 1] && PlacesOk(s, PushNext(v, n), q)
    ensures s.tail in s.heap && s.heap[s.tail].ticket == |s.line| - 1
    ensures PlacesOk(WriteNext(s, t, v, n), PushMove(v, n), q)
  {
    assert PlaceOk(s, |s.line| - 1, PushNext(v, n), q);
    var s' := WriteNext(s, t, v, n);
    forall i | s'.front <= i < |s'.line| ensures PlaceOk(s', i, PushMove(v, n), q) {
      assert PlaceOk(s, i, PushNext(v, n), q);
    }
  }

  lemma MoveTailPlaces(s: State, t: Tid, v: Value, n: Addr, q: Pc)
    requires t in s.threads && n in s.heap && Spare(s, t, n) && s.front < |s.line| == |s.pushed| + 1
    requires PlacesOk(s, PushMove(v, n), q)
    requires q.PopData? || q.PopHead? ==> s.front < |s.line| - 1
    ensures PlacesOk(MoveTail(s, t, v, n), PushUnlock(v), q)
  {
    var s' := MoveTail(s, t, v, n);
    forall i | s'.front <= i < |s'.line| ensures PlaceOk(s', i, PushUnlock(v), q) {
      if i < |s.line| { assert PlaceOk(s, i, PushMove(v, n), q); }
    }
  }

  lemma WriteDataKeeps(s: State, t: Tid, v: Value, n: Addr)
    requires Inv(s) && StandsAt(s, t, PushData(v, n))
    ensures s.tail in s.heap && Inv(WriteData(s, t, v, n))
  {
    hide PlacesOk, PlaceOk, HeapOk, LocksOk, Pusher, Puller;
    assert PcOk(s, t);
    AtItsLock(s, t);
    WriteDataPlaces(s, t, v, n, Puller(s));
    var s' := WriteData(s, t, v, n);
    LocksAfter(s, s', t);
    hide LocksOk, Pusher, Puller;
    WriteHeap(s, s', t, s.tail);
    Rest(s, s', t);
  }

  lemma WriteNextKeeps(s: State, t: Tid, v: Value, n: Addr)
    requires Inv(s) && StandsAt(s, t, PushNext(v, n))
    ensures s.tail in s.heap && Inv(WriteNext(s, t, v, n))
  {
    hide PlacesOk, PlaceOk, HeapOk, LocksOk, Pusher, Puller;
    assert PcOk(s, t);
    AtItsLock(s, t);
    WriteNextPlaces(s, t, v, n, Puller(s));
    var s' := WriteNext(s, t, v, n);
    LocksAfter(s, s', t);
    hide LocksOk, Pusher, Puller;
    WriteHeap(s, s', t, s.tail);
    Rest(s, s', t);
  }

  lemma MoveTailHeap(s: State, t: Tid, v: Value, n: Addr)
    requires HeapOk(s) && StandsAt(s, t, PushMove(v, n)) && n in s.heap && s.heap[n].ticket == -1
    requires s.front < |s.line|
    ensures HeapOk(MoveTail(s, t, v, n))
  {
    var s' := MoveTail(s, t, v, n);
    forall m | m in s'.heap
      ensures var node := s'.heap[m];
              if node.ticket == -1 then node.maker in s'.threads && SpareOf(s'.threads[node.maker].pc, m)
              else s'.front <= s'.heap[m].ticket < |s'.line| && s'.line[s'.heap[m].ticket] == m
    {
      assert m in s.heap;
    }
  }

  // A pull in its pop is not at the last place, where a push may be at work.
  lemma PopBeforeTail(s: State)
    requires Inv(s)
    ensures Puller(s).PopData? || Puller(s).PopHead? ==> s.front < |s.line| - 1
  {
    hide HeapOk, PlacesOk;
    if s.headLock.Some? { assert PcOk(s, s.headLock.value); }
  }

  lemma MoveTailKeeps(s: State, t: Tid, v: Value, n: Addr)
    requires Inv(s) && StandsAt(s, t, PushMove(v, n))
    ensures n in s.heap && Inv(MoveTail(s, t, v, n))
  {
    hide PlacesOk, PlaceOk, HeapOk, LocksOk, Pusher, Puller;
    assert PcOk(s, t);
    AtItsLock(s, t);
    PopBeforeTail(s);
    var s' := MoveTail(s, t, v, n);
    LocksAfter(s, s', t);
    hide LocksOk, Pusher, Puller;
    MoveTailPlaces(s, t, v, n, Puller(s));
    MoveTailHeap(s, t, v, n);
    Rest(s, s', t);
  }

  lemma UnlockTailKeeps(s: State, t: Tid, v: Value)
    requires Inv(s) && StandsAt(s, t, PushUnlock(v))
    ensures Inv(UnlockTail(s, t, v))
  {
    hide PlacesOk, PlaceOk, HeapOk, PcOk;
    var s' := UnlockTail(s, t, v);
    LocksAfter(s, s', t);
    UnlockTailRest(s, t, v);
    hide LocksOk, Pusher, Puller;
    PlacesStay(s, s', Pusher(s), Puller(s), Pusher(s'), Puller(s'));
    Rest(s, s', t);
  }

  lemma UnlockTailRest(s: State, t: Tid, v: Value)
    requires HeapOk(s) && StandsAt(s, t, PushUnlock(v))
    ensures HeapOk(UnlockTail(s, t, v)) && PcOk(UnlockTail(s, t, v), t)
  {
  }

  // Head and snapshot are equal exactly if the queue was empty at the snapshot.
  lemma SnapKeeps(s: State, t: Tid, waits: bool)
    requires Inv(s) && StandsAt(s, t, PullSnap(waits))
    ensures s.head == s.tail <==> |s.pushed| == |s.pulled|
    ensures Inv(To(s, t, PullCompare(waits, s.tail, |s.pushed| == |s.pulled|)))
  {
    HeadIsTail(s);
    MoveKeeps(s, t, s.threads[t].(pc := PullCompare(waits, s.tail, |s.pushed| == |s.pulled|)), s.headLock);
  }

  lemma HeadIsTail(s: State)
    requires Inv(s)
    ensures s.head == s.tail <==> s.front == |s.line| - 1
  {
    assert PlaceOk(s, s.front, Pusher(s), Puller(s)) && PlaceOk(s, |s.line| - 1, Pusher(s), Puller(s));
  }

  // What the three accesses of a pop do to the places, whatever push p is under way.
  lemma MoveNextPlaces(s: State, t: Tid, p: Pc)
    requires t in s.threads && s.front < |s.line| - 1 && s.head == s.line[s.front] && PlacesOk(s, p, PopNext)
    ensures s.head in s.heap && s.heap[s.head].ticket == s.front && s.heap[s.head].next == s.line[s.front + 1]
    ensures PlacesOk(MoveNext(s, t), p, PopData(s.heap[s.head].next))
  {
    assert PlaceOk(s, s.front, p, PopNext);
    var s' := MoveNext(s, t);
    forall i | s'.front <= i < |s'.line| ensures PlaceOk(s', i, p, PopData(s.heap[s.head].next)) {
      assert PlaceOk(s, i, p, PopNext);
    }
  }

  lemma MoveDataPlaces(s: State, t: Tid, rest: Addr, p: Pc)
    requires t in s.threads && s.front < |s.line| - 1 && s.head == s.line[s.front] && PlacesOk(s, p, PopData(rest))
    ensures s.head in s.heap && s.heap[s.head].ticket == s.front
    ensures |s.pushed| > s.front && s.heap[s.head].data == Some(s.pushed[s.front].v)
    ensures PlacesOk(MoveData(s, t, rest), p, PopHead(rest, s.heap[s.head].data.value))
  {
    assert PlaceOk(s, s.front, p, PopData(rest));
    var s' := MoveData(s, t, rest);
    forall i | s'.front <= i < |s'.line| ensures PlaceOk(s', i, p, PopHead(rest, s.heap[s.head].data.value)) {
      assert PlaceOk(s, i, p, PopData(rest));
    }
  }

  lemma MoveNextKeeps(s: State, t: Tid)
    requires Inv(s) && StandsAt(s, t, PopNext)
    ensures s.head in s.heap && Inv(MoveNext(s, t))
  {
    hide PlacesOk, PlaceOk, HeapOk, LocksOk, Pusher, Puller;
    assert PcOk(s, t);
    AtItsLock(s, t);
    MoveNextPlaces(s, t, Pusher(s));
    var s' := MoveNext(s, t);
    assert PcOk(s', t);
    hide PcOk;
    LocksAfter(s, s', t);
    hide LocksOk, Pusher, Puller;
    WriteHeap(s, s', t, s.head);
    Rest(s, s', t);
  }

  lemma MoveDataKeeps(s: State, t: Tid, rest: Addr)
    requires Inv(s) && StandsAt(s, t, PopData(rest))
    ensures s.head in s.heap && s.heap[s.head].data.Some? && Inv(MoveData(s, t, rest))
  {
    hide PlacesOk, PlaceOk, HeapOk, LocksOk, Pusher, Puller;
    assert PcOk(s, t);
    AtItsLock(s, t);
    MoveDataPlaces(s, t, rest, Pusher(s));
    var s' := MoveData(s, t, rest);
    LocksAfter(s, s', t);
    hide LocksOk, Pusher, Puller;
    WriteHeap(s, s', t, s.head);
    Rest(s, s', t);
  }

  lemma MoveHeadPlaces(s: State, t: Tid, rest: Addr, v: Value, p: Pc)
    requires t in s.threads && s.front < |s.line| - 1 && s.head == s.line[s.front]
    requires PlacesOk(s, p, PopHead(rest, v))
    ensures PlacesOk(MoveHead(s, t, rest, v), p, PullUnlock(Got(v)))
    ensures s.head in s.heap && s.heap[s.head].ticket == s.front
  {
    var s' := MoveHead(s, t, rest, v);
    assert PlaceOk(s, s.front, p, PopHead(rest, v));
    forall i | s'.front <= i < |s'.line| ensures PlaceOk(s', i, p, PullUnlock(Got(v))) {
      assert PlaceOk(s, i, p, PopHead(rest, v));
    }
  }

  lemma MoveHeadHeap(s: State, t: Tid, rest: Addr, v: Value)
    requires HeapOk(s) && StandsAt(s, t, PopHead(rest, v))
    requires s.front < |s.line| && s.head == s.line[s.front] && s.head in s.heap && s.heap[s.head].ticket == s.front
    ensures HeapOk(MoveHead(s, t, rest, v))
  {
  }

  lemma MoveHeadKeeps(s: State, t: Tid, rest: Addr, v: Value)
    requires Inv(s) && StandsAt(s, t, PopHead(rest, v))
    ensures s.head in s.heap && Inv(MoveHead(s, t, rest, v))
  {
    hide PlacesOk, PlaceOk, HeapOk, LocksOk, Pusher, Puller;
    assert PcOk(s, t);
    AtItsLock(s, t);
    var s' := MoveHead(s, t, rest, v);
    LocksAfter(s, s', t);
    hide LocksOk, Pusher, Puller;
    MoveHeadPlaces(s, t, rest, v, Pusher(s));
    MoveHeadHeap(s, t, rest, v);
    Rest(s, s', t);
  }

  lemma PushSideKeeps(s: State, t: Tid, addr: Addr)
    requires Inv(s) && t in s.threads
    requires var pc := s.threads[t].pc; pc.PushCheck? || pc.PushAlloc? || pc.PushLock? || AtTail(pc)
    ensures Advance(s, t, addr).Ok? && Inv(Advance(s, t, addr).state)
  {
    hide Inv;
    match s.threads[t].pc
    case PushCheck(v) =>
      var s' := if s.closed then Refuse(s, t) else To(s, t, PushAlloc(v));
      MoveKeeps(s, t, s'.threads[t], s.headLock);
    case PushAlloc(v) => if addr != NULL && addr !in s.heap { AllocKeeps(s, t, v, addr); }
    case PushLock(v, n) => if s.tailLock.None? { LockTailKeeps(s, t, v, n); }
    case PushData(v, n) => WriteDataKeeps(s, t, v, n);
    case PushNext(v, n) => WriteNextKeeps(s, t, v, n);
    case PushMove(v, n) => MoveTailKeeps(s, t, v, n);
    case PushUnlock(v) => UnlockTailKeeps(s, t, v);
  }

  lemma WakeKeeps(s: State, u: Tid)
    requires Inv(s) && StandsAt(s, u, PullAsleep)
    ensures Inv(Wake(s, u))
  {
    hide Inv;
    MoveKeeps(s, u, s.threads[u].(pc := PullLock(true)), s.headLock);
  }

  lemma SentKeeps(s: State, t: Tid, v: Value)
    requires Inv(s) && StandsAt(s, t, PushNotify(v))
    ensures Inv(Sent(s, t, v))
  {
    hide Inv;
    MoveKeeps(s, t, Sent(s, t, v).threads[t], s.headLock);
  }

  lemma NotifyOneKeeps(s: State, t: Tid, v: Value, u: Tid)
    requires Inv(s) && StandsAt(s, t, PushNotify(v))
    ensures Inv(NotifyOne(s, t, v, u))
  {
    hide Inv;
    if u in s.threads && s.threads[u].pc.PullAsleep? {
      WakeKeeps(s, u);
      SentKeeps(Wake(s, u), t, v);
    } else {
      SentKeeps(s, t, v);
    }
  }

  // Sleepers own no node and no mutex.
  lemma WakeAllKeeps(s: State)
    requires Inv(s)
    ensures Inv(WakeAll(s))
  {
    var s' := WakeAll(s);
    hide PlacesOk, PlaceOk;
    WakeAllLocks(s);
    forall u | u in s'.threads ensures PcOk(s', u) { assert PcOk(s, u); }
    hide PcOk, LocksOk, Pusher, Puller;
    PlacesStay(s, s', Pusher(s), Puller(s), Pusher(s'), Puller(s'));
  }

  lemma WakeAllLocks(s: State)
    requires LocksOk(s)
    ensures LocksOk(WakeAll(s)) && Pusher(WakeAll(s)) == Pusher(s) && Puller(WakeAll(s)) == Puller(s)
  {
  }

  lemma NotifyAllKeeps(s: State, t: Tid)
    requires Inv(s) && StandsAt(s, t, CloseNotify)
    ensures Inv(NotifyAll(s, t))
  {
    hide Inv;
    WakeAllKeeps(s);
    MoveKeeps(WakeAll(s), t, WakeAll(s).threads[t].(pc := Idle), s.headLock);
  }

  lemma NotifySideKeeps(s: State, t: Tid, addr: nat)
    requires Inv(s) && t in s.threads && (s.threads[t].pc.PushNotify? || s.threads[t].pc.CloseNotify?)
    ensures Advance(s, t, addr).Ok? && Inv(Advance(s, t, addr).state)
  {
    hide Inv;
    match s.threads[t].pc
    case PushNotify(v) => NotifyOneKeeps(s, t, v, addr);
    case CloseNotify => NotifyAllKeeps(s, t);
  }

  lemma PopSideKeeps(s: State, t: Tid, addr: Addr)
    requires Inv(s) && t in s.threads
    requires var pc := s.threads[t].pc; pc.PopNext? || pc.PopData? || pc.PopHead? || pc.PullUnlock?
    ensures Advance(s, t, addr).Ok? && Inv(Advance(s, t, addr).state)
  {
    hide Inv;
    match s.threads[t].pc
    case PopNext => MoveNextKeeps(s, t);
    case PopData(rest) => MoveDataKeeps(s, t, rest);
    case PopHead(rest, v) => MoveHeadKeeps(s, t, rest, v);
    case PullUnlock(answer) => MoveKeeps(s, t, UnlockHead(s, t, answer).threads[t], None);
  }

  lemma LockHeadKeeps(s: State, t: Tid, waits: bool)
    requires Inv(s) && StandsAt(s, t, PullLock(waits)) && s.headLock.None?
    ensures Inv(To(s.(headLock := Some(t)), t, PullSnap(waits)))
  {
    hide Inv;
    MoveKeeps(s, t, s.threads[t].(pc := PullSnap(waits)), Some(t));
  }

  lemma CompareKeeps(s: State, t: Tid, waits: bool, snap: Addr, wasEmpty: bool)
    requires Inv(s) && StandsAt(s, t, PullCompare(waits, snap, wasEmpty))
    ensures Inv(Compare(s, t, waits, snap))
  {
    assert PcOk(s, t);
    hide Inv;
    MoveKeeps(s, t, Compare(s, t, waits, snap).threads[t], s.headLock);
  }

  lemma WaitMoreKeeps(s: State, t: Tid)
    requires Inv(s) && StandsAt(s, t, PullClosed)
    ensures Inv(To(s, t, if s.closed then PullRecheck else PullSleep))
  {
    hide Inv;
    MoveKeeps(s, t, s.threads[t].(pc := if s.closed then PullRecheck else PullSleep), s.headLock);
  }

  lemma SleepKeeps(s: State, t: Tid)
    requires Inv(s) && StandsAt(s, t, PullSleep)
    ensures Inv(Sleep(s, t))
  {
    hide Inv;
    MoveKeeps(s, t, s.threads[t].(pc := PullAsleep), None);
  }

  lemma RecheckKeeps(s: State, t: Tid)
    requires Inv(s) && StandsAt(s, t, PullRecheck)
    ensures Inv(To(s, t, if s.closed then PullUnlock(Closed) else PopNext))
  {
    assert PcOk(s, t);
    hide Inv;
    MoveKeeps(s, t, s.threads[t].(pc := if s.closed then PullUnlock(Closed) else PopNext), s.headLock);
  }

  lemma WaitSideKeeps(s: State, t: Tid, addr: Addr)
    requires Inv(s) && t in s.threads
    requires var pc := s.threads[t].pc;
             || pc.PullLock? || pc.PullSnap? || pc.PullCompare? || pc.PullClosed?
             || pc.PullSleep? || pc.PullAsleep? || pc.PullRecheck?
    ensures Advance(s, t, addr).Ok? && Inv(Advance(s, t, addr).state)
  {
    hide Inv;
    match s.threads[t].pc
    case PullLock(waits) => if s.headLock.None? { LockHeadKeeps(s, t, waits); }
    case PullSnap(waits) => if s.tailLock.None? { SnapKeeps(s, t, waits); }
    case PullCompare(waits, snap, wasEmpty) => CompareKeeps(s, t, waits, snap, wasEmpty);
    case PullClosed => WaitMoreKeeps(s, t);
    case PullSleep => SleepKeeps(s, t);
    case PullAsleep =>
    case PullRecheck => RecheckKeeps(s, t);
  }

  lemma AdvanceKeeps(s: State, t: Tid, addr: Addr)
    requires Inv(s) && t in s.threads
    ensures Advance(s, t, addr).Ok? && Inv(Advance(s, t, addr).state)
  {
    hide Inv;
    var pc := s.threads[t].pc;
    if pc.PushCheck? || pc.PushAlloc? || pc.PushLock? || AtTail(pc) {
      PushSideKeeps(s, t, addr);
    } else if pc.PopNext? || pc.PopData? || pc.PopHead? || pc.PullUnlock? {
      PopSideKeeps(s, t, addr);
    } else if pc.PushNotify? || pc.CloseNotify? {
      NotifySideKeeps(s, t, addr);
    } else if !pc.Idle? {
      WaitSideKeeps(s, t, addr);
    }
  }

  lemma StepKeeps(s: State, a: Action)
    requires Inv(s)
    ensures Step(s, a).Ok? && Inv(Step(s, a).state)
  {
    hide Inv, Advance;
    if a.t in s.threads && (a.Go? || s.threads[a.t].pc.Idle?) {
      match a
      case Go(t, n) => AdvanceKeeps(s, t, n);
      case Close(t) =>
        CloseKeeps(s);
        EnterKeeps(s.(closed := true), t, CloseNotify);
      case Push(t, v) => EnterKeeps(s, t, PushCheck(v));
      case TryPush(t, v) => EnterKeeps(s, t, PushAlloc(v));
      case Pull(t) => EnterKeeps(s, t, PullLock(true));
      case TryPull(t) => EnterKeeps(s, t, PullLock(false));
    }
  }

  lemma EnterKeeps(s: State, t: Tid, pc: Pc)
    requires Inv(s) && StandsAt(s, t, Idle) && (pc.PushCheck? || pc.PushAlloc? || pc.PullLock? || pc.CloseNotify?)
    ensures Inv(To(s, t, pc))
  {
    hide Inv;
    MoveKeeps(s, t, s.threads[t].(pc := pc), s.headLock);
  }

  lemma CloseKeeps(s: State)
    requires Inv(s)
    ensures Inv(s.(closed := true))
  {
    var s' := s.(closed := true);
    forall i | s'.front <= i < |s'.line| ensures PlaceOk(s', i, Pusher(s'), Puller(s')) {
      assert PlaceOk(s, i, Pusher(s), Puller(s));
    }
    forall u | u in s'.threads ensures PcOk(s', u) { assert PcOk(s, u); }
  }
}
