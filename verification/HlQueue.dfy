/**
 The high-load lock-free queue: a pusher stores its value into the tail node,
 links a new node behind it and moves the tail on; any thread may do the last
 two for another. Nodes are never reused here, so a node is its index in nodes.
 */
module HlQueue {
  import opened Prelude

  const NULL := -1

  datatype Ref = Ref(ptr: int, count: int)

  // Free: no pull has claimed the node. By: thread t has, and is about to take the data.
  datatype Claim = Free | By(t: Tid) | Emptied

  // pos, first, claim and maker are history: the place in the chain (-1: none), the first value
  // ever stored with its pusher, the pull that claimed the node, and the thread that allocated it.
  datatype Node = Node(data: Option<Value>, next: Ref, pos: int, first: Option<Event>, claim: Claim, maker: Tid)

  // What became of a push's value: not stored yet, first in its node, or stored into an emptied node.
  datatype Fate = Unstored | Won | Lost

  datatype Pc =
    | Idle
    | PushIncrement(v: Value, spare: int, seen: Ref)                    // about to raise the tail's count
    | PushFill(v: Value, spare: int, seen: Ref)                         // about to CAS data
    | PushLink(v: Value, spare: int, seen: Ref, fate: Fate)             // about to CAS next
    | PushTail(v: Value, spare: int, seen: Ref, next: Ref, fate: Fate)  // about to CAS the tail
    | PullIncrement(seen: Ref)                                          // about to raise the head's count
    | PullCheck(seen: Ref)                                              // about to load the tail
    | PullNext(seen: Ref)                                               // about to load next
    | PullCas(seen: Ref, next: Ref)                                     // about to CAS the head
    | PullTake(seen: Ref)                                               // about to exchange data

  // What the completed operations of a thread came to.
  datatype Thread = Thread(pc: Pc, stored: seq<Value>, dropped: seq<Value>, pulled: seq<Value>, empties: nat)

  datatype State = State(
    head: Ref,
    tail: Ref,
    nodes: seq<Node>,
    threads: map<Tid, Thread>,
    chain: seq<int>,      // history: the linked nodes in order
    h: nat,               // history: head's place in the chain
    k: nat,               // history: tail's place in the chain
    enq: seq<Event>,      // history: values in the order in which the tail passed them
    deq: seq<Event>)      // history: values in the order in which pulls claimed them

  datatype Action = Push(t: Tid, v: Value) | Pull(t: Tid) | Go(t: Tid)

  function NewNode(t: Tid): Node {
    Node(None, Ref(NULL, 0), -1, None, Free, t)
  }

  function Init(tids: set<Tid>): State {
    State(Ref(0, 0), Ref(0, 0), [NewNode(0).(pos := 0)],
          map t | t in tids :: Thread(Idle, [], [], [], 0), [0], 0, 0, [], [])
  }

  // ----- The atomic steps -----

  predicate StandsAt(s: State, t: Tid, pc: Pc) {
    t in s.threads && s.threads[t].pc == pc
  }

  predicate Has(s: State, n: int) {
    0 <= n < |s.nodes|
  }

  function To(s: State, t: Tid, pc: Pc): State
    requires t in s.threads
  {
    s.(threads := s.threads[t := s.threads[t].(pc := pc)])
  }

  function Alloc(s: State, t: Tid): State {
    s.(nodes := s.nodes + [NewNode(t)])
  }

  function StartPush(s: State, t: Tid, v: Value): State
    requires t in s.threads
  {
    To(Alloc(s, t), t, PushIncrement(v, |s.nodes|, s.tail))
  }

  function IncrementTail(s: State, t: Tid, v: Value, spare: int, seen: Ref): State
    requires t in s.threads
  {
    if s.tail == seen then
      var up := Ref(seen.ptr, seen.count + 1);
      To(s.(tail := up), t, PushFill(v, spare, up))
    else To(s, t, PushIncrement(v, spare, s.tail))
  }

  function Fill(s: State, t: Tid, v: Value, spare: int, seen: Ref): State
    requires t in s.threads && Has(s, seen.ptr)
  {
    var node := s.nodes[seen.ptr];
    if node.data.None? then
      var filled := node.(data := Some(v), first := if node.first.None? then Some(Event(t, v)) else node.first);
      To(s.(nodes := s.nodes[seen.ptr := filled]), t,
         PushLink(v, spare, seen, if node.first.None? then Won else Lost))
    else To(s, t, PushLink(v, spare, seen, Unstored))
  }

  // The CAS on next: a pusher that has stored its value gives up its own node if it loses; one
  // that has not allocates another if it wins.
  function Link(s: State, t: Tid, v: Value, spare: int, seen: Ref, fate: Fate): State
    requires t in s.threads && Has(s, seen.ptr) && Has(s, spare)
  {
    var node := s.nodes[seen.ptr];
    if node.next == Ref(NULL, 0) then
      var last := s.nodes[spare].(pos := |s.chain|);
      var linked := s.(nodes := s.nodes[seen.ptr := node.(next := Ref(spare, 0))][spare := last],
                       chain := s.chain + [spare]);
      if fate.Unstored? then To(Alloc(linked, t), t, PushTail(v, |s.nodes|, seen, Ref(spare, 0), fate))
      else To(linked, t, PushTail(v, spare, seen, Ref(spare, 0), fate))
    else To(s, t, PushTail(v, spare, seen, node.next, fate))
  }

  // A pusher leaves set_new_tail: it returns if its value is stored and starts over otherwise.
  function LeaveTail(s: State, t: Tid, v: Value, spare: int, seen: Ref, fate: Fate): State
    requires t in s.threads
  {
    var th := s.threads[t];
    match fate
    case Unstored => To(s, t, PushIncrement(v, spare, seen))
    case Won => s.(threads := s.threads[t := th.(pc := Idle, stored := th.stored + [v])])
    case Lost => s.(threads := s.threads[t := th.(pc := Idle, dropped := th.dropped + [v])])
  }

  function PassTail(s: State, next: Ref): State
    requires Has(s, s.tail.ptr)
  {
    var first := s.nodes[s.tail.ptr].first;
    s.(tail := next, k := s.k + 1, enq := s.enq + if first.Some? then [first.value] else [])
  }

  function SetTail(s: State, t: Tid, v: Value, spare: int, seen: Ref, next: Ref, fate: Fate): State
    requires t in s.threads && Has(s, s.tail.ptr)
  {
    if s.tail == seen then LeaveTail(PassTail(s, next), t, v, spare, seen, fate)
    else if s.tail.ptr == seen.ptr then To(s, t, PushTail(v, spare, s.tail, next, fate))
    else LeaveTail(s, t, v, spare, s.tail, fate)
  }

  function IncrementHead(s: State, t: Tid, seen: Ref): State
    requires t in s.threads
  {
    if s.head == seen then
      var up := Ref(seen.ptr, seen.count + 1);
      To(s.(head := up), t, PullCheck(up))
    else To(s, t, PullIncrement(s.head))
  }

  function Check(s: State, t: Tid, seen: Ref): State
    requires t in s.threads
  {
    var th := s.threads[t];
    if s.tail.ptr == seen.ptr then s.(threads := s.threads[t := th.(pc := Idle, empties := th.empties + 1)])
    else To(s, t, PullNext(seen))
  }

  function PassHead(s: State, t: Tid, seen: Ref, next: Ref): State
    requires t in s.threads && Has(s, seen.ptr)
  {
    if s.head == seen then
      var node := s.nodes[seen.ptr];
      var v := if node.first.Some? then node.first.value.v else 0;
      To(s.(head := next, h := s.h + 1, nodes := s.nodes[seen.ptr := node.(claim := By(t))],
            deq := s.deq + [Event(t, v)]), t, PullTake(seen))
    else To(s, t, PullIncrement(s.head))
  }

  function Take(s: State, t: Tid, seen: Ref): State
    requires t in s.threads && Has(s, seen.ptr)
  {
    var th, node := s.threads[t], s.nodes[seen.ptr];
    s.(nodes := s.nodes[seen.ptr := node.(data := None, claim := Emptied)],
       threads := s.threads[t := if node.data.Some? then th.(pc := Idle, pulled := th.pulled + [node.data.value])
                                 else th.(pc := Idle, empties := th.empties + 1)])
  }

  // An action that its thread cannot take now changes nothing.
  function Step(s: State, a: Action): State {
    if a.t !in s.threads then s
    else match a
      case Push(t, v) => if s.threads[t].pc.Idle? then StartPush(s, t, v) else s
      case Pull(t) => if s.threads[t].pc.Idle? then To(s, t, PullIncrement(s.head)) else s
      case Go(t) =>
        match s.threads[t].pc
        case Idle => s
        case PushIncrement(v, spare, seen) => IncrementTail(s, t, v, spare, seen)
        case PushFill(v, spare, seen) => if Has(s, seen.ptr) then Fill(s, t, v, spare, seen) else s
        case PushLink(v, spare, seen, fate) =>
          if Has(s, seen.ptr) && Has(s, spare) then Link(s, t, v, spare, seen, fate) else s
        case PushTail(v, spare, seen, next, fate) =>
          if Has(s, s.tail.ptr) then SetTail(s, t, v, spare, seen, next, fate) else s
        case PullIncrement(seen) => IncrementHead(s, t, seen)
        case PullCheck(seen) => Check(s, t, seen)
        case PullNext(seen) => if Has(s, seen.ptr) then To(s, t, PullCas(seen, s.nodes[seen.ptr].next)) else s
        case PullCas(seen, next) => if Has(s, seen.ptr) then PassHead(s, t, seen, next) else s
        case PullTake(seen) => if Has(s, seen.ptr) then Take(s, t, seen) else s
  }

  function Exec(s: State, run: seq<Action>): State
    decreases |run|
  {
    if run == [] then s else Exec(Step(s, run[0]), run[1..])
  }

  // ----- The invariant -----

  // Place i of the chain: its link, its filling and who may take its data.
  ghost predicate PlaceOk(s: State, i: nat)
    requires i < |s.chain|
  {
    Has(s, s.chain[i]) &&
    var node := s.nodes[s.chain[i]];
    && node.pos == i
    && node.next == (if i + 1 < |s.chain| then Ref(s.chain[i + 1], 0) else Ref(NULL, 0))
    && (i + 1 < |s.chain| ==> node.first.Some?)
    && (i > s.k ==> node.first.None?)
    && (node.claim.Free? <==> i >= s.h)
    && (i >= s.h ==> node.data == DataOf(node.first))
    && (node.claim.By? ==> node.data == DataOf(node.first) && node.data.Some?)
  }

  function DataOf(first: Option<Event>): Option<Value> {
    match first case None => None case Some(e) => Some(e.v)
  }

  ghost predicate ShapeOk(s: State) {
    && s.h <= s.k < |s.chain| <= s.k + 2
    && s.head.ptr == s.chain[s.h] && s.tail.ptr == s.chain[s.k]
    && (forall i :: 0 <= i < |s.chain| ==> PlaceOk(s, i))
    && (forall n :: 0 <= n < |s.nodes| ==>
          s.nodes[n].pos < |s.chain| && (s.nodes[n].pos >= 0 ==> s.chain[s.nodes[n].pos] == n))
  }

  ghost predicate Reached(s: State, n: int, bound: int) {
    Has(s, n) && 0 <= s.nodes[n].pos <= bound && s.nodes[n].pos < |s.chain| && s.chain[s.nodes[n].pos] == n
  }

  ghost predicate Owned(s: State, n: int, t: Tid) {
    Has(s, n) && s.nodes[n].pos == -1 && s.nodes[n] == NewNode(t)
  }

  ghost predicate Successor(s: State, n: int, next: Ref) {
    Has(s, n) && 0 <= s.nodes[n].pos && s.nodes[n].pos + 1 < |s.chain| && next == Ref(s.chain[s.nodes[n].pos + 1], 0)
  }

  ghost predicate PcOk(s: State, t: Tid)
    requires t in s.threads
  {
    match s.threads[t].pc
    case Idle => true
    case PushIncrement(_, spare, _) => Owned(s, spare, t)
    case PushFill(_, spare, seen) => Owned(s, spare, t) && Reached(s, seen.ptr, s.k)
    case PushLink(v, spare, seen, fate) =>
      && Owned(s, spare, t) && Reached(s, seen.ptr, s.k) && s.nodes[seen.ptr].first.Some?
      && (fate.Won? ==> s.nodes[seen.ptr].first == Some(Event(t, v)))
    case PushTail(v, spare, seen, next, fate) =>
      && (fate.Unstored? ==> Owned(s, spare, t)) && Reached(s, seen.ptr, s.k) && Successor(s, seen.ptr, next)
      && (fate.Won? ==> s.nodes[seen.ptr].first == Some(Event(t, v)))
    case PullIncrement(_) => true
    case PullCheck(seen) => Reached(s, seen.ptr, s.h)
    case PullNext(seen) => Reached(s, seen.ptr, s.h) && s.nodes[seen.ptr].pos < s.k
    case PullCas(seen, next) => Reached(s, seen.ptr, s.h) && s.nodes[seen.ptr].pos < s.k && Successor(s, seen.ptr, next)
    case PullTake(seen) => Reached(s, seen.ptr, s.h - 1) && s.nodes[seen.ptr].claim == By(t)
  }

  // The pusher whose value stands first in the tail node is still at work on it.
  ghost predicate TailOwnerOk(s: State) {
    s.k < |s.chain| && Has(s, s.chain[s.k]) && s.nodes[s.chain[s.k]].first.Some? ==>
      var first := s.nodes[s.chain[s.k]].first.value;
      first.t in s.threads && Winner(s.threads[first.t].pc, s.chain[s.k], first.v)
  }

  predicate Winner(pc: Pc, n: int, v: Value) {
    (pc.PushLink? || pc.PushTail?) && pc.fate.Won? && pc.seen.ptr == n && pc.v == v
  }

  ghost predicate Inv(s: State) {
    && ShapeOk(s)
    && (forall t :: t in s.threads ==> PcOk(s, t))
    && TailOwnerOk(s)
  }

  lemma InitOk(tids: set<Tid>)
    ensures Inv(Init(tids))
  {
  }

  // What no step of another thread takes back from thread u.
  ghost predicate Grows(s: State, s': State, u: Tid) {
    && s.chain <= s'.chain && s.k <= s'.k && s.h <= s'.h && |s.nodes| <= |s'.nodes|
    && forall n :: 0 <= n < |s.nodes| ==> NodeGrows(s.nodes[n], s'.nodes[n], u)
  }

  ghost predicate NodeGrows(node: Node, node': Node, u: Tid) {
    && (node.pos >= 0 ==> node'.pos == node.pos)
    && (node.first.Some? ==> node'.first == node.first)
    && (node.claim == By(u) ==> node'.claim == By(u))
    && (node.maker == u && node.pos == -1 ==> node' == node)
  }

  lemma PcStays(s: State, s': State, u: Tid)
    requires ShapeOk(s) && u in s.threads && u in s'.threads && s'.threads[u].pc == s.threads[u].pc
    requires PcOk(s, u) && Grows(s, s', u)
    ensures PcOk(s', u)
  {
    var pc := s.threads[u].pc;
    if pc.PushLink? || pc.PushTail? || pc.PushFill? || pc.PullCheck? || pc.PullNext? || pc.PullCas? || pc.PullTake? {
      if Has(s, pc.seen.ptr) { assert NodeGrows(s.nodes[pc.seen.ptr], s'.nodes[pc.seen.ptr], u); }
    }
    if pc.PushIncrement? || pc.PushFill? || pc.PushLink? || pc.PushTail? {
      if Has(s, pc.spare) { assert NodeGrows(s.nodes[pc.spare], s'.nodes[pc.spare], u); }
    }
  }

  // A step that changes only t's place and, maybe, a counter beside head or tail.
  lemma MoveKeeps(s: State, t: Tid, head: Ref, tail: Ref, th: Thread)
    requires Inv(s) && t in s.threads && head.ptr == s.head.ptr && tail.ptr == s.tail.ptr
    requires !Winner(s.threads[t].pc, s.tail.ptr, if s.threads[t].pc.PushTail? then s.threads[t].pc.v else 0)
             || (s.threads[t].pc.PushTail? && th.pc.PushTail? && th.pc.fate == s.threads[t].pc.fate
                 && th.pc.v == s.threads[t].pc.v && th.pc.seen.ptr == s.threads[t].pc.seen.ptr)
    requires !s.threads[t].pc.PushLink?
    requires var s' := s.(head := head, tail := tail, threads := s.threads[t := th]); PcOk(s', t)
    ensures Inv(s.(head := head, tail := tail, threads := s.threads[t := th]))
  {
    var s' := s.(head := head, tail := tail, threads := s.threads[t := th]);
    forall i | 0 <= i < |s'.chain| ensures PlaceOk(s', i) { assert PlaceOk(s, i); }
    forall u | u in s'.threads ensures PcOk(s', u) {
      if u != t {
        assert PcOk(s, u);
        PcStays(s, s', u);
      }
    }
    assert PlaceOk(s, s.k);
  }

  lemma AllocKeeps(s: State, t: Tid)
    requires Inv(s) && t in s.threads
    ensures Inv(Alloc(s, t)) && Owned(Alloc(s, t), |s.nodes|, t)
  {
    var s' := Alloc(s, t);
    forall i | 0 <= i < |s'.chain| ensures PlaceOk(s', i) { assert PlaceOk(s, i); }
    forall u | u in s'.threads ensures PcOk(s', u) {
      assert PcOk(s, u);
      PcStays(s, s', u);
    }
    assert PlaceOk(s, s.k);
  }

  // Data is absent from the tail node only before its first filling, and from an earlier node
  // only after a pull has emptied it.
  lemma FillMeaning(s: State, n: int)
    requires Inv(s) && Reached(s, n, s.k) && s.nodes[n].data.None?
    ensures s.nodes[n].first.None? <==> s.tail.ptr == n
    ensures s.nodes[n].first.Some? ==> s.nodes[n].claim.Emptied? && s.nodes[n].pos < s.h
  {
    assert PlaceOk(s, s.nodes[n].pos) && PlaceOk(s, s.k);
  }

  lemma FillGrows(s: State, t: Tid, v: Value, spare: int, seen: Ref, u: Tid)
    requires t in s.threads && Reached(s, seen.ptr, s.k)
    ensures Grows(s, Fill(s, t, v, spare, seen), u)
  {
    var s' := Fill(s, t, v, spare, seen);
    forall n | 0 <= n < |s.nodes| ensures NodeGrows(s.nodes[n], s'.nodes[n], u) {
    }
  }

  lemma FillKeeps(s: State, t: Tid, v: Value, spare: int, seen: Ref)
    requires Inv(s) && StandsAt(s, t, PushFill(v, spare, seen))
    ensures Has(s, seen.ptr) && Inv(Fill(s, t, v, spare, seen))
  {
    assert PcOk(s, t);
    var n := seen.ptr;
    var s' := Fill(s, t, v, spare, seen);
    if s.nodes[n].data.None? { FillMeaning(s, n); }
    assert PlaceOk(s, s.nodes[n].pos) && PlaceOk(s, s.k);
    forall i | 0 <= i < |s'.chain| ensures PlaceOk(s', i) { assert PlaceOk(s, i); }
    assert PcOk(s', t);
    hide PlaceOk, PcOk, Grows;
    forall u | u in s'.threads ensures PcOk(s', u) {
      if u != t {
        assert PcOk(s, u);
        FillGrows(s, t, v, spare, seen, u);
        PcStays(s, s', u);
      }
    }
  }

  lemma TakeKeeps(s: State, t: Tid, seen: Ref)
    requires Inv(s) && StandsAt(s, t, PullTake(seen))
    ensures Has(s, seen.ptr) && s.nodes[seen.ptr].data.Some?
    ensures s.nodes[seen.ptr].data == DataOf(s.nodes[seen.ptr].first)
    ensures Inv(Take(s, t, seen))
  {
    assert PcOk(s, t);
    var n := seen.ptr;
    var s' := Take(s, t, seen);
    assert PlaceOk(s, s.nodes[n].pos) && PlaceOk(s, s.k);
    forall i | 0 <= i < |s'.chain| ensures PlaceOk(s', i) { assert PlaceOk(s, i); }
    forall u | u in s'.threads ensures PcOk(s', u) {
      if u != t {
        assert PcOk(s, u);
        PcStays(s, s', u);
      }
    }
  }

  lemma PassHeadKeeps(s: State, t: Tid, seen: Ref, next: Ref)
    requires Inv(s) && StandsAt(s, t, PullCas(seen, next)) && s.head == seen
    ensures Has(s, seen.ptr) && s.nodes[seen.ptr].first.Some? && next.ptr != NULL && s.nodes[seen.ptr].pos == s.h < s.k
    ensures Inv(PassHead(s, t, seen, next))
  {
    assert PcOk(s, t);
    var n := seen.ptr;
    assert PlaceOk(s, s.nodes[n].pos) && PlaceOk(s, s.k) && PlaceOk(s, s.h) && PlaceOk(s, s.h + 1);
    var s' := PassHead(s, t, seen, next);
    forall i | 0 <= i < |s'.chain| ensures PlaceOk(s', i) { assert PlaceOk(s, i); }
    assert PcOk(s', t);
    hide PlaceOk, PcOk, Grows;
    forall u | u in s'.threads ensures PcOk(s', u) {
      if u != t {
        assert PcOk(s, u);
        PassHeadGrows(s, t, seen, next, u);
        PcStays(s, s', u);
      }
    }
  }

  lemma PassHeadGrows(s: State, t: Tid, seen: Ref, next: Ref, u: Tid)
    requires t in s.threads && Has(s, seen.ptr) && s.nodes[seen.ptr].claim.Free? && s.nodes[seen.ptr].pos >= 0
    ensures Grows(s, PassHead(s, t, seen, next), u)
  {
    forall n | 0 <= n < |s.nodes| ensures NodeGrows(s.nodes[n], PassHead(s, t, seen, next).nodes[n], u) {}
  }

  function Linked(s: State, t: Tid, v: Value, spare: int, other: int, seen: Ref, fate: Fate): State
    requires t in s.threads && Has(s, seen.ptr) && Has(s, spare)
  {
    var node, last := s.nodes[seen.ptr], s.nodes[spare].(pos := |s.chain|);
    To(s.(nodes := s.nodes[seen.ptr := node.(next := Ref(spare, 0))][spare := last],
          chain := s.chain + [spare]), t, PushTail(v, other, seen, Ref(spare, 0), fate))
  }

  // A null next belongs to the last node, which is the tail.
  lemma NullNextIsLast(s: State, n: int)
    requires Inv(s) && Reached(s, n, s.k) && s.nodes[n].next == Ref(NULL, 0)
    ensures s.nodes[n].pos == s.k == |s.chain| - 1 && n == s.chain[s.k]
  {
    assert PlaceOk(s, s.nodes[n].pos);
    assert s.nodes[n].pos + 1 < |s.chain| ==> PlaceOk(s, s.nodes[n].pos + 1);
  }

  lemma LinkedKeeps(s: State, t: Tid, v: Value, spare: int, other: int, seen: Ref, fate: Fate)
    requires Inv(s) && StandsAt(s, t, PushLink(v, spare, seen, fate))
    requires Has(s, seen.ptr) && s.nodes[seen.ptr].next == Ref(NULL, 0)
    requires fate.Unstored? ==> other != spare && Owned(s, other, t)
    ensures Has(s, spare) && Inv(Linked(s, t, v, spare, other, seen, fate))
  {
    assert PcOk(s, t);
    var n := seen.ptr;
    NullNextIsLast(s, n);
    var s' := Linked(s, t, v, spare, other, seen, fate);
    forall i | 0 <= i < |s'.chain| ensures PlaceOk(s', i) {
      if i < |s.chain| { assert PlaceOk(s, i); }
    }
    forall u | u in s'.threads ensures PcOk(s', u) {
      if u != t {
        assert PcOk(s, u);
        PcStays(s, s', u);
      }
    }
    assert PlaceOk(s, s.k);
  }

  lemma LinkKeeps(s: State, t: Tid, v: Value, spare: int, seen: Ref, fate: Fate)
    requires Inv(s) && StandsAt(s, t, PushLink(v, spare, seen, fate))
    ensures Has(s, seen.ptr) && Has(s, spare) && Inv(Link(s, t, v, spare, seen, fate))
  {
    assert PcOk(s, t);
    var n := seen.ptr;
    if s.nodes[n].next == Ref(NULL, 0) {
      if fate.Unstored? {
        var s1 := Alloc(s, t);
        AllocKeeps(s, t);
        LinkedKeeps(s1, t, v, spare, |s.nodes|, seen, fate);
        assert Linked(s1, t, v, spare, |s.nodes|, seen, fate) == Link(s, t, v, spare, seen, fate);
      } else {
        LinkedKeeps(s, t, v, spare, spare, seen, fate);
      }
    } else {
      LinkLostKeeps(s, t, v, spare, seen, fate);
    }
  }

  lemma LinkLostKeeps(s: State, t: Tid, v: Value, spare: int, seen: Ref, fate: Fate)
    requires Inv(s) && StandsAt(s, t, PushLink(v, spare, seen, fate))
    requires Has(s, seen.ptr) && Has(s, spare) && s.nodes[seen.ptr].next != Ref(NULL, 0)
    ensures Inv(Link(s, t, v, spare, seen, fate))
  {
    assert PcOk(s, t);
    var s' := Link(s, t, v, spare, seen, fate);
    assert PlaceOk(s, s.nodes[seen.ptr].pos);
    forall i | 0 <= i < |s'.chain| ensures PlaceOk(s', i) { assert PlaceOk(s, i); }
    forall u | u in s'.threads ensures PcOk(s', u) {
      if u != t {
        assert PcOk(s, u);
        PcStays(s, s', u);
      }
    }
    assert PlaceOk(s, s.k);
  }

  // Moving the tail: from a node to that node's successor, past a filled node.
  lemma SetTailKeeps(s: State, t: Tid, v: Value, spare: int, seen: Ref, next: Ref, fate: Fate)
    requires Inv(s) && StandsAt(s, t, PushTail(v, spare, seen, next, fate)) && s.tail == seen
    ensures Has(s, s.tail.ptr) && s.nodes[s.tail.ptr].first.Some?
    ensures s.k + 1 < |s.chain| && next == Ref(s.chain[s.k + 1], 0)
    ensures Inv(SetTail(s, t, v, spare, seen, next, fate))
  {
    assert PcOk(s, t);
    var s' := SetTail(s, t, v, spare, seen, next, fate);
    assert PlaceOk(s, s.k) && PlaceOk(s, s.k + 1);
    forall i | 0 <= i < |s'.chain| ensures PlaceOk(s', i) { assert PlaceOk(s, i); }
    forall u | u in s'.threads ensures PcOk(s', u) {
      if u != t {
        assert PcOk(s, u);
        PcStays(s, s', u);
      }
    }
  }

  lemma StepKeeps(s: State, a: Action)
    requires Inv(s)
    ensures Inv(Step(s, a))
  {
    if a.t in s.threads {
      var t := a.t;
      assert PcOk(s, t);
      match a
      case Push(_, v) =>
        if s.threads[t].pc.Idle? {
          AllocKeeps(s, t);
          MoveKeeps(Alloc(s, t), t, s.head, s.tail, s.threads[t].(pc := PushIncrement(v, |s.nodes|, s.tail)));
        }
      case Pull(_) =>
        if s.threads[t].pc.Idle? { MoveKeeps(s, t, s.head, s.tail, s.threads[t].(pc := PullIncrement(s.head))); }
      case Go(_) => GoKeeps(s, t);
    }
  }

  lemma GoKeeps(s: State, t: Tid)
    requires Inv(s) && t in s.threads
    ensures Inv(Step(s, Go(t)))
  {
    var s' := Step(s, Go(t));
    match s.threads[t].pc
    case Idle =>
    case PushIncrement(v, spare, seen) => IncrementTailKeeps(s, t);
    case PushFill(v, spare, seen) => FillKeeps(s, t, v, spare, seen);
    case PushLink(v, spare, seen, fate) => LinkKeeps(s, t, v, spare, seen, fate);
    case PushTail(v, spare, seen, next, fate) =>
      if s.tail == seen { SetTailKeeps(s, t, v, spare, seen, next, fate); }
      else { SetTailLostKeeps(s, t, v, spare, seen, next, fate); }
    case PullIncrement(seen) => PullMoveKeeps(s, t);
    case PullCheck(seen) => PullMoveKeeps(s, t);
    case PullNext(seen) => PullMoveKeeps(s, t);
    case PullCas(seen, next) =>
      if s.head == seen { PassHeadKeeps(s, t, seen, next); }
      else { PullMoveKeeps(s, t); }
    case PullTake(seen) => TakeKeeps(s, t, seen);
  }

  lemma IncrementTailKeeps(s: State, t: Tid)
    requires Inv(s) && t in s.threads && s.threads[t].pc.PushIncrement?
    ensures Inv(Step(s, Go(t)))
  {
    assert PcOk(s, t);
    assert PlaceOk(s, s.k);
    MoveKeeps(s, t, s.head, Step(s, Go(t)).tail, Step(s, Go(t)).threads[t]);
  }

  lemma SetTailLostKeeps(s: State, t: Tid, v: Value, spare: int, seen: Ref, next: Ref, fate: Fate)
    requires Inv(s) && StandsAt(s, t, PushTail(v, spare, seen, next, fate)) && s.tail != seen
    ensures Has(s, s.tail.ptr) && Inv(SetTail(s, t, v, spare, seen, next, fate))
  {
    assert PcOk(s, t);
    assert PlaceOk(s, s.k);
    MoveKeeps(s, t, s.head, s.tail, SetTail(s, t, v, spare, seen, next, fate).threads[t]);
  }

  // Steps of a pull that neither claim nor take.
  lemma PullMoveKeeps(s: State, t: Tid)
    requires Inv(s) && t in s.threads
    requires var pc := s.threads[t].pc;
             pc.PullIncrement? || pc.PullCheck? || pc.PullNext? || (pc.PullCas? && s.head != pc.seen)
    ensures Inv(Step(s, Go(t)))
  {
    assert PcOk(s, t);
    assert PlaceOk(s, s.h) && PlaceOk(s, s.k);
    if s.threads[t].pc.PullNext? { assert PlaceOk(s, s.nodes[s.threads[t].pc.seen.ptr].pos); }
    hide PlaceOk, TailOwnerOk;
    MoveKeeps(s, t, Step(s, Go(t)).head, s.tail, Step(s, Go(t)).threads[t]);
  }
}
