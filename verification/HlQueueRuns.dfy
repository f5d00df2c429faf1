/**
 What holds in every run of the high-load queue: it refines a sequence of values,
 the chain never breaks, and a push is lost exactly when it comes too late.
 */
module HlQueueRuns {
  import opened Prelude
  import opened HlQueue

  // ----- The history -----

  // A push whose value the tail has passed but which has not returned.
  function PendingPush(s: State, t: Tid): seq<Value>
    requires t in s.threads
  {
    var pc := s.threads[t].pc;
    if (pc.PushLink? || pc.PushTail?) && pc.fate.Won? && Has(s, pc.seen.ptr) && s.nodes[pc.seen.ptr].pos < s.k
    then [pc.v] else []
  }

  // A pull that has claimed a node but has not taken its data.
  function PendingPull(s: State, t: Tid): seq<Value>
    requires t in s.threads
  {
    var pc := s.threads[t].pc;
    if pc.PullTake? && Has(s, pc.seen.ptr) && s.nodes[pc.seen.ptr].first.Some?
    then [s.nodes[pc.seen.ptr].first.value.v] else []
  }

  // The values between head and tail: the first ones stored in their nodes.
  function Contents(s: State): seq<Value> {
    if s.h <= s.k then seq(s.k - s.h, i requires 0 <= i < s.k - s.h => FirstAt(s, s.h + i)) else []
  }

  function FirstAt(s: State, i: nat): Value {
    if i < |s.chain| && Has(s, s.chain[i]) && s.nodes[s.chain[i]].first.Some?
    then s.nodes[s.chain[i]].first.value.v else 0
  }

  ghost predicate LogsOk(s: State) {
    && |s.enq| == s.k <= |s.chain| && |s.deq| == s.h <= s.k
    && (forall i :: 0 <= i < s.k ==> Has(s, s.chain[i]) && s.nodes[s.chain[i]].first == Some(s.enq[i]))
    && (forall i :: 0 <= i < s.h ==> s.deq[i].v == s.enq[i].v)
  }

  ghost predicate ThreadLogOk(s: State, t: Tid)
    requires t in s.threads
  {
    && Of(s.enq, t) == s.threads[t].stored + PendingPush(s, t)
    && Of(s.deq, t) == s.threads[t].pulled + PendingPull(s, t)
  }

  ghost predicate Logged(s: State) {
    LogsOk(s) && forall t :: t in s.threads ==> ThreadLogOk(s, t)
  }

  // A step of t that lets neither head nor tail pass a node.
  lemma LogStays(s: State, s': State, t: Tid)
    requires Inv(s) && Logged(s) && t in s.threads && t in s'.threads
    requires s'.threads == s.threads[t := s'.threads[t]]
    requires SameLog(s, s') && forall u :: Grows(s, s', u) || u == t
    requires s'.threads[t].stored + PendingPush(s', t) == s.threads[t].stored + PendingPush(s, t)
    requires s'.threads[t].pulled + PendingPull(s', t) == s.threads[t].pulled + PendingPull(s, t)
    ensures Logged(s')
  {
    forall u | u in s'.threads ensures ThreadLogOk(s', u) {
      assert ThreadLogOk(s, u);
      if u != t { PendingStays(s, s', u); }
    }
  }

  lemma PendingStays(s: State, s': State, u: Tid)
    requires Inv(s) && u in s.threads && u in s'.threads && s'.threads[u].pc == s.threads[u].pc
    requires Grows(s, s', u) && s'.k == s.k
    ensures PendingPush(s', u) == PendingPush(s, u) && PendingPull(s', u) == PendingPull(s, u)
  {
    assert PcOk(s, u);
    var pc := s.threads[u].pc;
    if pc.PushLink? || pc.PushTail? || pc.PullTake? {
      assert NodeGrows(s.nodes[pc.seen.ptr], s'.nodes[pc.seen.ptr], u);
      if pc.PullTake? { assert PlaceOk(s, s.nodes[pc.seen.ptr].pos); }
    }
  }

  lemma SetTailLogs(s: State, t: Tid, v: Value, spare: int, seen: Ref, next: Ref, fate: Fate)
    requires LogsOk(s) && t in s.threads && s.tail == seen && Has(s, s.tail.ptr) && s.k < |s.chain|
    requires s.chain[s.k] == s.tail.ptr && s.nodes[s.tail.ptr].first.Some?
    ensures LogsOk(SetTail(s, t, v, spare, seen, next, fate))
  {
  }

  lemma SetTailLog(s: State, t: Tid, v: Value, spare: int, seen: Ref, next: Ref, fate: Fate)
    requires Inv(s) && Logged(s) && StandsAt(s, t, PushTail(v, spare, seen, next, fate))
    requires s.tail == seen
    requires Has(s, s.tail.ptr)
    ensures Logged(SetTail(s, t, v, spare, seen, next, fate))
  {
    SetTailKeeps(s, t, v, spare, seen, next, fate);
    var s' := SetTail(s, t, v, spare, seen, next, fate);
    var e := s.nodes[s.tail.ptr].first.value;
    assert PlaceOk(s, s.k) && s.chain[s.k] == s.tail.ptr && s.k < |s.chain|;
    assert s'.enq == s.enq + [e];
    SetTailLogs(s, t, v, spare, seen, next, fate);
    hide LogsOk, SetTail;
    forall u | u in s'.threads ensures ThreadLogOk(s', u) {
      assert ThreadLogOk(s, u) && PcOk(s, u);
      OfAppend(s.enq, e, u);
      PassedTail(s, s', t, u);
    }
  }

  // The one push whose value the tail passes becomes pending, or returns at once if it made the step.
  lemma PassedTail(s: State, s': State, t: Tid, u: Tid)
    requires Inv(s) && t in s.threads && s.threads[t].pc.PushTail? && s.tail == s.threads[t].pc.seen
    requires Has(s, s.tail.ptr) && s.nodes[s.tail.ptr].first.Some? && u in s.threads
    requires var pc := s.threads[t].pc; s' == SetTail(s, t, pc.v, pc.spare, s.tail, pc.next, pc.fate)
    ensures u in s'.threads
    ensures var e := s.nodes[s.tail.ptr].first.value;
            s'.threads[u].stored + PendingPush(s', u) ==
            s.threads[u].stored + PendingPush(s, u) + if e.t == u then [e.v] else []
    ensures s'.threads[u].pulled + PendingPull(s', u) == s.threads[u].pulled + PendingPull(s, u)
  {
    WhoseFirst(s, u);
    assert PcOk(s, t) && PlaceOk(s, s.k);
    hide Inv, PlaceOk, PcOk;
  }

  // The value in the tail node is u's exactly if u stands behind its store there, still unanswered.
  lemma WhoseFirst(s: State, u: Tid)
    requires Inv(s) && u in s.threads && Has(s, s.tail.ptr) && s.nodes[s.tail.ptr].first.Some?
    ensures var e, pc := s.nodes[s.tail.ptr].first.value, s.threads[u].pc;
            && s.nodes[s.tail.ptr].pos == s.k
            && ((pc.PushLink? || pc.PushTail?) && pc.fate.Won? ==>
                  && Has(s, pc.seen.ptr) && s.nodes[pc.seen.ptr].pos <= s.k
                  && (s.nodes[pc.seen.ptr].pos == s.k ==> pc.seen.ptr == s.tail.ptr && e == Event(u, pc.v)))
            && (e.t == u ==> Winner(pc, s.tail.ptr, e.v))
  {
    assert PcOk(s, u) && PlaceOk(s, s.k);
    var pc := s.threads[u].pc;
    if (pc.PushLink? || pc.PushTail?) && pc.fate.Won? {
      assert PlaceOk(s, s.nodes[pc.seen.ptr].pos);
    }
  }

  lemma PassHeadLog(s: State, t: Tid, seen: Ref, next: Ref)
    requires Inv(s) && Logged(s) && StandsAt(s, t, PullCas(seen, next))
    requires s.head == seen && Has(s, seen.ptr)
    ensures Logged(PassHead(s, t, seen, next))
  {
    PassHeadKeeps(s, t, seen, next);
    var s' := PassHead(s, t, seen, next);
    assert PlaceOk(s, s.h) && s.chain[s.h] == seen.ptr;
    hide Inv, ThreadLogOk;
    forall u | u in s'.threads ensures ThreadLogOk(s', u) {
      PassHeadThread(s, t, seen, next, u);
    }
    PassHeadLogs(s, t, seen, next);
    hide PassHead, LogsOk;
  }

  lemma PassHeadLogs(s: State, t: Tid, seen: Ref, next: Ref)
    requires LogsOk(s) && t in s.threads && s.head == seen && Has(s, seen.ptr) && s.h < s.k
    requires s.chain[s.h] == seen.ptr && s.nodes[seen.ptr].first.Some?
    ensures LogsOk(PassHead(s, t, seen, next))
  {
  }

  lemma PassHeadThread(s: State, t: Tid, seen: Ref, next: Ref, u: Tid)
    requires u in s.threads && ThreadLogOk(s, u)
    requires Inv(s) && StandsAt(s, t, PullCas(seen, next)) && s.head == seen && Has(s, seen.ptr)
    requires s.nodes[seen.ptr].first.Some? && s.nodes[seen.ptr].claim.Free?
    ensures u in PassHead(s, t, seen, next).threads && ThreadLogOk(PassHead(s, t, seen, next), u)
  {
    var s' := PassHead(s, t, seen, next);
    hide Inv;
    OfAppend(s.deq, Event(t, s.nodes[seen.ptr].first.value.v), u);
    if u != t { PassHeadOther(s, t, seen, next, u); }
  }

  lemma PassHeadOther(s: State, t: Tid, seen: Ref, next: Ref, u: Tid)
    requires Inv(s) && t in s.threads && s.head == seen && Has(s, seen.ptr)
    requires s.nodes[seen.ptr].claim.Free? && u in s.threads && u != t
    ensures var s' := PassHead(s, t, seen, next);
            PendingPush(s', u) == PendingPush(s, u) && PendingPull(s', u) == PendingPull(s, u)
  {
    assert PlaceOk(s, s.h);
    PendingStays(s, PassHead(s, t, seen, next), u);
  }

  lemma SetTailPending(s: State, t: Tid, v: Value, spare: int, seen: Ref, next: Ref, fate: Fate)
    requires StandsAt(s, t, PushTail(v, spare, seen, next, fate)) && s.tail != seen
    requires Has(s, s.tail.ptr) && s.nodes[s.tail.ptr].pos == s.k && Reached(s, seen.ptr, s.k)
    requires s.k < |s.chain| && s.chain[s.k] == s.tail.ptr
    ensures var s' := SetTail(s, t, v, spare, seen, next, fate);
            && t in s'.threads && s' == s.(threads := s.threads[t := s'.threads[t]])
            && s'.threads[t].stored + PendingPush(s', t) == s.threads[t].stored + PendingPush(s, t)
            && s'.threads[t].pulled == s.threads[t].pulled && PendingPull(s', t) == PendingPull(s, t)
  {
  }

  lemma ThreadOnly(s: State, s': State, t: Tid)
    requires LogsOk(s) && t in s'.threads && s' == s.(threads := s.threads[t := s'.threads[t]])
    ensures SameLog(s, s') && forall u :: Grows(s, s', u)
  {
  }

  // The exit of set_new_tail that did not move the tail: the tail is beyond the node.
  lemma SetTailLostLog(s: State, t: Tid, v: Value, spare: int, seen: Ref, next: Ref, fate: Fate)
    requires Inv(s) && Logged(s) && StandsAt(s, t, PushTail(v, spare, seen, next, fate))
    requires s.tail != seen
    requires Has(s, s.tail.ptr)
    ensures Logged(SetTail(s, t, v, spare, seen, next, fate))
  {
    var s' := SetTail(s, t, v, spare, seen, next, fate);
    assert Reached(s, seen.ptr, s.k) && s.tail.ptr == s.chain[s.k] && s.nodes[s.tail.ptr].pos == s.k by {
      assert PcOk(s, t) && PlaceOk(s, s.k);
    }
    SetTailPending(s, t, v, spare, seen, next, fate);
    ThreadOnly(s, s', t);
    hide Inv, Logged, SetTail, PendingPush, PendingPull, Grows;
    LogStays(s, s', t);
  }

  lemma FillSameLog(s: State, t: Tid, v: Value, spare: int, seen: Ref)
    requires LogsOk(s) && t in s.threads && Has(s, seen.ptr)
    ensures SameLog(s, Fill(s, t, v, spare, seen))
  {
  }

  lemma FillPending(s: State, t: Tid, v: Value, spare: int, seen: Ref)
    requires StandsAt(s, t, PushFill(v, spare, seen)) && Reached(s, seen.ptr, s.k)
    requires s.nodes[seen.ptr].first.None? ==> s.nodes[seen.ptr].pos >= s.k
    ensures var s' := Fill(s, t, v, spare, seen);
            && t in s'.threads && s'.threads == s.threads[t := s'.threads[t]]
            && s'.threads[t].stored == s.threads[t].stored && s'.threads[t].pulled == s.threads[t].pulled
            && PendingPush(s', t) == PendingPush(s, t) && PendingPull(s', t) == PendingPull(s, t)
  {
  }

  lemma FillLog(s: State, t: Tid, v: Value, spare: int, seen: Ref)
    requires Inv(s) && Logged(s) && StandsAt(s, t, PushFill(v, spare, seen)) && Has(s, seen.ptr)
    ensures Logged(Fill(s, t, v, spare, seen))
  {
    var s' := Fill(s, t, v, spare, seen);
    assert Reached(s, seen.ptr, s.k) && PlaceOk(s, s.nodes[seen.ptr].pos) by { assert PcOk(s, t); }
    FillPending(s, t, v, spare, seen);
    FillSameLog(s, t, v, spare, seen);
    forall u ensures Grows(s, s', u) { FillGrows(s, t, v, spare, seen, u); }
    hide Inv, Logged, Fill, PendingPush, PendingPull, Grows;
    LogStays(s, s', t);
  }

  lemma LinkSameLog(s: State, t: Tid, v: Value, spare: int, seen: Ref, fate: Fate)
    requires LogsOk(s) && t in s.threads && Has(s, seen.ptr) && Has(s, spare)
    ensures SameLog(s, Link(s, t, v, spare, seen, fate))
  {
  }

  lemma LinkGrows(s: State, t: Tid, v: Value, spare: int, seen: Ref, fate: Fate, u: Tid)
    requires t in s.threads && Reached(s, seen.ptr, s.k) && Owned(s, spare, t) && u != t
    ensures Grows(s, Link(s, t, v, spare, seen, fate), u)
  {
    var s' := Link(s, t, v, spare, seen, fate);
    forall n | 0 <= n < |s.nodes| ensures NodeGrows(s.nodes[n], s'.nodes[n], u) {
    }
  }

  lemma LinkPending(s: State, t: Tid, v: Value, spare: int, seen: Ref, fate: Fate)
    requires StandsAt(s, t, PushLink(v, spare, seen, fate))
    requires Reached(s, seen.ptr, s.k) && Owned(s, spare, t)
    ensures var s' := Link(s, t, v, spare, seen, fate);
            && t in s'.threads && s'.threads == s.threads[t := s'.threads[t]]
            && s'.threads[t].stored == s.threads[t].stored && s'.threads[t].pulled == s.threads[t].pulled
            && PendingPush(s', t) == PendingPush(s, t) && PendingPull(s', t) == PendingPull(s, t)
  {
  }

  // Head, tail and the first values of the nodes before the tail stay as they are.
  ghost predicate SameLog(s: State, s': State) {
    && s'.h == s.h && s'.k == s.k && s'.enq == s.enq && s'.deq == s.deq
    && s.k <= |s.chain| && s.chain <= s'.chain
    && forall i :: 0 <= i < s.k ==>
         Has(s, s.chain[i]) && Has(s', s.chain[i]) && s'.nodes[s.chain[i]].first == s.nodes[s.chain[i]].first
  }

  lemma LinkLog(s: State, t: Tid, v: Value, spare: int, seen: Ref, fate: Fate)
    requires Inv(s) && Logged(s) && StandsAt(s, t, PushLink(v, spare, seen, fate))
    requires Has(s, seen.ptr) && Has(s, spare)
    ensures Logged(Link(s, t, v, spare, seen, fate))
  {
    var s' := Link(s, t, v, spare, seen, fate);
    assert Reached(s, seen.ptr, s.k) && Owned(s, spare, t) by { assert PcOk(s, t); }
    LinkSameLog(s, t, v, spare, seen, fate);
    LinkPending(s, t, v, spare, seen, fate);
    forall u | u != t ensures Grows(s, s', u) { LinkGrows(s, t, v, spare, seen, fate, u); }
    hide Inv, Logged, Link, PendingPush, PendingPull, Grows;
    LogStays(s, s', t);
  }

  lemma TakePending(s: State, t: Tid, seen: Ref)
    requires LogsOk(s) && StandsAt(s, t, PullTake(seen)) && Reached(s, seen.ptr, s.h - 1)
    requires s.nodes[seen.ptr].claim == By(t)
    requires s.nodes[seen.ptr].data.Some? && s.nodes[seen.ptr].data == DataOf(s.nodes[seen.ptr].first)
    ensures var s' := Take(s, t, seen);
            && SameLog(s, s') && (forall u :: Grows(s, s', u) || u == t)
            && t in s'.threads && s'.threads == s.threads[t := s'.threads[t]]
            && s'.threads[t].stored == s.threads[t].stored && PendingPush(s', t) == PendingPush(s, t)
            && s'.threads[t].pulled + PendingPull(s', t) == s.threads[t].pulled + PendingPull(s, t)
  {
    var s' := Take(s, t, seen);
    assert s'.threads[t].pulled == s.threads[t].pulled + [s.nodes[seen.ptr].data.value];
    forall u | u != t ensures Grows(s, s', u) {
      forall n | 0 <= n < |s.nodes| ensures NodeGrows(s.nodes[n], s'.nodes[n], u) {}
    }
  }

  lemma TakeLog(s: State, t: Tid, seen: Ref)
    requires Inv(s) && Logged(s) && StandsAt(s, t, PullTake(seen)) && Has(s, seen.ptr)
    ensures Logged(Take(s, t, seen))
  {
    TakeKeeps(s, t, seen);
    assert Reached(s, seen.ptr, s.h - 1) by { assert PcOk(s, t); }
    TakePending(s, t, seen);
    hide Inv, Logged, Take, PendingPush, PendingPull, Grows;
    LogStays(s, Take(s, t, seen), t);
  }

  // Steps between two places at which nothing is pending.
  lemma MoveLog(s: State, s': State, t: Tid)
    requires Inv(s) && Logged(s) && t in s.threads && t in s'.threads
    requires s'.threads == s.threads[t := s'.threads[t]] && s.nodes <= s'.nodes && s'.chain == s.chain
    requires s'.h == s.h && s'.k == s.k && s'.enq == s.enq && s'.deq == s.deq
    requires s'.threads[t].stored == s.threads[t].stored && s'.threads[t].pulled == s.threads[t].pulled
    requires var pc, pc' := s.threads[t].pc, s'.threads[t].pc;
             && !pc.PushLink? && !pc.PushTail? && !pc.PullTake?
             && !pc'.PushLink? && !pc'.PushTail? && !pc'.PullTake?
    ensures Logged(s')
  {
    LogStays(s, s', t);
  }

  lemma StepLog(s: State, a: Action)
    requires Inv(s) && Logged(s)
    ensures Logged(Step(s, a))
  {
    if a.t in s.threads {
      match a
      case Push(t, _) => if s.threads[t].pc.Idle? { MoveLog(s, Step(s, a), t); }
      case Pull(t) => if s.threads[t].pc.Idle? { MoveLog(s, Step(s, a), t); }
      case Go(t) => GoLog(s, t);
    }
  }

  lemma GoLog(s: State, t: Tid)
    requires Inv(s) && Logged(s) && t in s.threads
    ensures Logged(Step(s, Go(t)))
  {
    hide Inv, Logged;
    match s.threads[t].pc
    case Idle =>
    case PushIncrement(v, spare, seen) => MoveLog(s, Step(s, Go(t)), t);
    case PushFill(v, spare, seen) => FillKeeps(s, t, v, spare, seen); FillLog(s, t, v, spare, seen);
    case PushLink(v, spare, seen, fate) => LinkKeeps(s, t, v, spare, seen, fate); LinkLog(s, t, v, spare, seen, fate);
    case PushTail(v, spare, seen, next, fate) =>
      if s.tail == seen {
        SetTailKeeps(s, t, v, spare, seen, next, fate);
        SetTailLog(s, t, v, spare, seen, next, fate);
      }
      else { SetTailLostKeeps(s, t, v, spare, seen, next, fate); SetTailLostLog(s, t, v, spare, seen, next, fate); }
    case PullIncrement(seen) => MoveLog(s, Step(s, Go(t)), t);
    case PullCheck(seen) => MoveLog(s, Step(s, Go(t)), t);
    case PullNext(seen) => PullMoveKeeps(s, t); MoveLog(s, Step(s, Go(t)), t);
    case PullCas(seen, next) =>
      if s.head == seen { PassHeadKeeps(s, t, seen, next); PassHeadLog(s, t, seen, next); }
      else { MoveLog(s, Step(s, Go(t)), t); }
    case PullTake(seen) => TakeKeeps(s, t, seen); TakeLog(s, t, seen);
  }

  // ----- Main results -----

  lemma {:induction false} RunKeeps(s: State, run: seq<Action>)
    requires Inv(s) && Logged(s)
    ensures Inv(Exec(s, run)) && Logged(Exec(s, run))
    decreases |run|
  {
    if run != [] {
      StepKeeps(s, run[0]);
      StepLog(s, run[0]);
      RunKeeps(Step(s, run[0]), run[1..]);
    }
  }

  ghost predicate Reachable(tids: set<Tid>, s: State) {
    exists run :: Exec(Init(tids), run) == s
  }

  ghost predicate StepTo(s: State, s': State) {
    exists a :: Step(s, a) == s'
  }

  // In past, a step leads from place i to the next one.
  ghost predicate StepAt(past: seq<State>, i: nat)
    requires i < |past| - 1
  {
    StepTo(past[i], past[i + 1])
  }

  // The states of a run, one after another.
  ghost predicate IsRun(past: seq<State>, tids: set<Tid>) {
    past != [] && past[0] == Init(tids) && forall i :: 0 <= i < |past| - 1 ==> StepAt(past, i)
  }

  lemma {:induction false} RunReaches(past: seq<State>, tids: set<Tid>, i: nat)
    requires IsRun(past, tids) && i < |past|
    ensures Reachable(tids, past[i])
  {
    if i == 0 {
      assert Exec(Init(tids), []) == Init(tids);
    } else {
      RunReaches(past, tids, i - 1);
      assert StepAt(past, i - 1);
      var a :| Step(past[i - 1], a) == past[i];
      var _ := Onward(tids, past[i - 1], a);
    }
  }

  // The histories only grow in a run.
  lemma {:induction false} RunGrows(past: seq<State>, tids: set<Tid>, i: nat, j: nat)
    requires IsRun(past, tids) && i <= j < |past|
    ensures past[i].enq <= past[j].enq && past[i].deq <= past[j].deq
    decreases j
  {
    if i < j {
      RunGrows(past, tids, i, j - 1);
      RunReaches(past, tids, j - 1);
      ReachableOk(tids, past[j - 1]);
      assert StepAt(past, j - 1);
      var a :| Step(past[j - 1], a) == past[j];
      SizesStep(past[j - 1], a);
    }
  }

  lemma ReachableOk(tids: set<Tid>, s: State)
    requires Reachable(tids, s)
    ensures Inv(s) && Logged(s)
  {
    var run :| Exec(Init(tids), run) == s;
    InitOk(tids);
    RunKeeps(Init(tids), run);
  }

  // The values the tail has passed are the values the pulls have claimed, in the same order,
  // followed by the present contents.
  lemma FifoOrder(tids: set<Tid>, s: State)
    requires Reachable(tids, s)
    ensures seq(|s.enq|, i requires 0 <= i < |s.enq| => s.enq[i].v)
            == seq(|s.deq|, i requires 0 <= i < |s.deq| => s.deq[i].v) + Contents(s)
  {
    ReachableOk(tids, s);
    ContentsAre(s);
  }

  lemma ContentsAre(s: State)
    requires Logged(s)
    ensures |s.enq| == s.k && |s.deq| == s.h <= s.k && |Contents(s)| == s.k - s.h
    ensures forall i :: 0 <= i < s.k - s.h ==> Contents(s)[i] == s.enq[s.h + i].v
    ensures forall i :: 0 <= i < s.h ==> s.deq[i].v == s.enq[i].v
  {
    forall i | 0 <= i < s.k - s.h ensures Contents(s)[i] == s.enq[s.h + i].v {
      assert s.nodes[s.chain[s.h + i]].first == Some(s.enq[s.h + i]);
      assert Contents(s)[i] == FirstAt(s, s.h + i);
    }
  }

  // Every completed push that filled its node first, and every completed pull, has its event in
  // these orders, each once; a push or pull still inside has at most the one it has caused.
  lemma Linearizable(tids: set<Tid>, s: State, t: Tid)
    requires Reachable(tids, s) && t in s.threads
    ensures Of(s.enq, t) == s.threads[t].stored + PendingPush(s, t) && |PendingPush(s, t)| <= 1
    ensures Of(s.deq, t) == s.threads[t].pulled + PendingPull(s, t) && |PendingPull(s, t)| <= 1
  {
    ReachableOk(tids, s);
    assert ThreadLogOk(s, t);
  }

  // What a step does to the abstract queue: nothing at all, one value more at the end, or one less at
  // the front, with the history changed accordingly.
  ghost predicate Refines(s: State, s': State) {
    || (Contents(s') == Contents(s) && s'.enq == s.enq && s'.deq == s.deq)
    || (exists e :: s'.enq == s.enq + [e] && s'.deq == s.deq && Contents(s') == Contents(s) + [e.v])
    || (exists e :: s'.deq == s.deq + [e] && s'.enq == s.enq && Contents(s) == [e.v] + Contents(s'))
  }

  // Every step refines the abstract queue, and a pull that is answered "empty" finds the queue empty
  // at that very step.
  lemma StepRefines(tids: set<Tid>, s: State, a: Action)
    requires Reachable(tids, s)
    ensures Refines(s, Step(s, a))
    ensures var s' := Step(s, a);
            a.t in s.threads && a.t in s'.threads && s'.threads[a.t].empties > s.threads[a.t].empties
            ==> s.threads[a.t].pc.PullCheck? && Contents(s) == []
  {
    ReachableOk(tids, s);
    QueueStep(s, a);
    if a.t in s.threads { EmptyExact(s, a); }
  }

  lemma QueueStep(s: State, a: Action)
    requires Inv(s) && Logged(s)
    ensures Refines(s, Step(s, a))
  {
    hide Inv, Logged, Step, Contents, Refines;
    StepKeeps(s, a);
    StepLog(s, a);
    SizesStep(s, a);
    ContentsAre(s);
    ContentsAre(Step(s, a));
    ContentsMove(s, Step(s, a), Contents(s), Contents(Step(s, a)));
  }

  lemma ContentsMove(s: State, s': State, before: seq<Value>, after: seq<Value>)
    requires before == Contents(s) && after == Contents(s')
    requires |s.enq| == s.k && |s.deq| == s.h <= s.k && |before| == s.k - s.h
    requires |s'.enq| == s'.k && |s'.deq| == s'.h <= s'.k && |after| == s'.k - s'.h
    requires forall i :: 0 <= i < s.k - s.h ==> before[i] == s.enq[s.h + i].v
    requires forall i :: 0 <= i < s'.k - s'.h ==> after[i] == s'.enq[s'.h + i].v
    requires forall i :: 0 <= i < s'.h ==> s'.deq[i].v == s'.enq[i].v
    requires || (s'.enq == s.enq && s'.deq == s.deq && s'.h == s.h && s'.k == s.k)
             || (s.enq <= s'.enq && s'.deq == s.deq && s'.h == s.h && s'.k == s.k + 1)
             || (s'.enq == s.enq && s.deq <= s'.deq && s'.h == s.h + 1 && s'.k == s.k)
    ensures Refines(s, s')
  {
    hide Contents;
    if s'.h == s.h + 1 {
      var e := s'.deq[s.h];
      assert s'.deq == s.deq + [e];
      assert before[0] == s.enq[s.h + 0].v;
      assert before == [e.v] + after;
    } else if s'.k == s.k + 1 {
      var e := s'.enq[s.k];
      assert s'.enq == s.enq + [e];
      assert after == before + [e.v];
    } else {
      assert after == before;
    }
  }

  lemma SizesStep(s: State, a: Action)
    requires Inv(s) && Logged(s)
    ensures var s' := Step(s, a);
            || (s'.enq == s.enq && s'.deq == s.deq && s'.h == s.h && s'.k == s.k)
            || (s.enq <= s'.enq && s'.deq == s.deq && s'.h == s.h && s'.k == s.k + 1)
            || (s'.enq == s.enq && s.deq <= s'.deq && s'.h == s.h + 1 && s'.k == s.k)
  {
    hide Inv, Logged;
  }

  lemma EmptyExact(s: State, a: Action)
    requires Inv(s) && Logged(s) && a.t in s.threads
    ensures var s' := Step(s, a);
            a.t in s'.threads && s'.threads[a.t].empties > s.threads[a.t].empties
            ==> s.threads[a.t].pc.PullCheck? && Contents(s) == []
  {
    hide Inv, Logged, Contents, Step;
    EmptiesGrow(s, a);
    if a.Go? && s.threads[a.t].pc.PullTake? { TakeKeeps(s, a.t, s.threads[a.t].pc.seen); }
    if a.Go? && s.threads[a.t].pc.PullCheck? && s.tail.ptr == s.threads[a.t].pc.seen.ptr { HeadAtTail(s, a.t); }
  }

  // The two answers that look like "empty": the tail is at the node in hand, or the node has no data.
  lemma EmptiesGrow(s: State, a: Action)
    requires a.t in s.threads
    ensures var s' := Step(s, a);
            a.t in s'.threads && s'.threads[a.t].empties > s.threads[a.t].empties ==>
              var pc := s.threads[a.t].pc;
              a.Go? && ((pc.PullCheck? && s.tail.ptr == pc.seen.ptr)
                        || (pc.PullTake? && Has(s, pc.seen.ptr) && s.nodes[pc.seen.ptr].data.None?))
  {
    match s.threads[a.t].pc
    case PushLink(_, _, _, _) =>
    case PushTail(_, _, _, _, _) =>
    case PullCas(_, _) =>
    case PullTake(_) =>
    case _ =>
  }

  // A pull that finds its head at the tail has the last place in hand: head and tail are there.
  lemma HeadAtTail(s: State, t: Tid)
    requires Inv(s) && t in s.threads && s.threads[t].pc.PullCheck? && s.tail.ptr == s.threads[t].pc.seen.ptr
    ensures s.h == s.k && Contents(s) == []
  {
    assert PcOk(s, t);
    assert PlaceOk(s, s.k) && PlaceOk(s, s.nodes[s.tail.ptr].pos);
  }

  // The chain never breaks: head does not pass tail, a linked node has been filled, a pull about to
  // move head has a real successor to move it to, and one that has claimed a node finds its data.
  lemma ChainHolds(tids: set<Tid>, s: State, t: Tid)
    requires Reachable(tids, s) && t in s.threads
    ensures s.h <= s.k < |s.chain| && s.head.ptr == s.chain[s.h] && s.tail.ptr == s.chain[s.k]
    ensures forall i :: 0 <= i < |s.chain| - 1 ==>
              && Has(s, s.chain[i]) && s.nodes[s.chain[i]].first.Some?
              && s.nodes[s.chain[i]].next == Ref(s.chain[i + 1], 0)
    ensures s.threads[t].pc.PullCas? && s.head == s.threads[t].pc.seen ==> Has(s, s.threads[t].pc.next.ptr)
    ensures s.threads[t].pc.PullTake? ==>
              Has(s, s.threads[t].pc.seen.ptr) && s.nodes[s.threads[t].pc.seen.ptr].data.Some?
    ensures s.threads[t].pc.PushTail? && s.tail == s.threads[t].pc.seen ==>
              Has(s, s.tail.ptr) && s.threads[t].pc.next == s.nodes[s.tail.ptr].next
  {
    ReachableOk(tids, s);
    assert PcOk(s, t);
    forall i | 0 <= i < |s.chain| - 1
      ensures Has(s, s.chain[i]) && s.nodes[s.chain[i]].first.Some?
      ensures s.nodes[s.chain[i]].next == Ref(s.chain[i + 1], 0)
    {
      assert PlaceOk(s, i);
    }
    match s.threads[t].pc
    case PullCas(seen, next) => PassHeadFacts(s, t, seen, next);
    case PullTake(seen) => TakeKeeps(s, t, seen);
    case PushTail(_, _, seen, next, _) => assert PlaceOk(s, s.k);
    case _ =>
  }

  lemma PassHeadFacts(s: State, t: Tid, seen: Ref, next: Ref)
    requires Inv(s) && StandsAt(s, t, PullCas(seen, next))
    ensures Has(s, next.ptr)
  {
    assert PcOk(s, t);
    assert PlaceOk(s, s.nodes[seen.ptr].pos + 1);
  }

  // A push enters the queue exactly if the tail still points to its node at the moment it stores
  // its value there. Otherwise a pull has emptied the node before and the value is lost.
  lemma StoredIffTailStays(tids: set<Tid>, s: State, t: Tid)
    requires Reachable(tids, s) && t in s.threads && s.threads[t].pc.PushFill?
    requires Has(s, s.threads[t].pc.seen.ptr) && s.nodes[s.threads[t].pc.seen.ptr].data.None?
    ensures var pc := s.threads[t].pc;
            var s' := Step(s, Go(t));
            && s'.nodes[pc.seen.ptr].data == Some(pc.v)
            && s'.threads[t].pc.PushLink?
            && (s'.threads[t].pc.fate.Won? <==> s.tail.ptr == pc.seen.ptr)
            && (s'.threads[t].pc.fate.Lost? <==> s.tail.ptr != pc.seen.ptr)
            && (s'.threads[t].pc.fate.Lost? ==> s.nodes[pc.seen.ptr].claim.Emptied? && s.nodes[pc.seen.ptr].pos < s.h)
  {
    ReachableOk(tids, s);
    assert PcOk(s, t);
    FillMeaning(s, s.threads[t].pc.seen.ptr);
  }

  // ----- A push can be lost -----

  lemma {:induction false} ExecSnoc(s: State, run: seq<Action>, a: Action)
    ensures Exec(s, run + [a]) == Step(Exec(s, run), a)
    decreases |run|
  {
    if run == [] {
      assert (run + [a])[1..] == [];
    } else {
      assert (run + [a])[1..] == run[1..] + [a];
      ExecSnoc(Step(s, run[0]), run[1..], a);
    }
  }

  lemma Onward(tids: set<Tid>, s: State, a: Action) returns (s': State)
    requires Reachable(tids, s)
    ensures s' == Step(s, a) && Reachable(tids, s')
  {
    var run :| Exec(Init(tids), run) == s;
    ExecSnoc(Init(tids), run, a);
    s' := Step(s, a);
  }

  // After thread 0 has stopped before its store and thread 1 has pushed 8.
  function Halfway(): State {
    State(Ref(0, 0), Ref(2, 0),
          [Node(Some(8), Ref(2, 0), 0, Some(Event(1, 8)), Free, 0), NewNode(0), NewNode(1).(pos := 1)],
          map[0 := Thread(PushFill(7, 1, Ref(0, 1)), [], [], [], 0), 1 := Thread(Idle, [8], [], [], 0)],
          [0, 2], 0, 1, [Event(1, 8)], [])
  }

  // Thread 0 is about to store 7 into the first node.
  function Started(): State {
    State(Ref(0, 0), Ref(0, 1), [NewNode(0).(pos := 0), NewNode(0)],
          map[0 := Thread(PushFill(7, 1, Ref(0, 1)), [], [], [], 0), 1 := Thread(Idle, [], [], [], 0)],
          [0], 0, 0, [], [])
  }

  lemma ReachStart()
    ensures Reachable({0, 1}, Started())
  {
    var s := Init({0, 1});
    assert Exec(s, []) == s;
    s := Onward({0, 1}, s, Push(0, 7));
    s := Onward({0, 1}, s, Go(0));
    assert s.threads == Started().threads && s.nodes == Started().nodes;
  }

  lemma ReachHalfway()
    ensures Reachable({0, 1}, Halfway())
  {
    ReachStart();
    hide Reachable, Exec;
    var s := Onward({0, 1}, Started(), Push(1, 8));
    s := Onward({0, 1}, s, Go(1));
    assert s.threads[1].pc == PushFill(8, 2, Ref(0, 2));
    s := Onward({0, 1}, s, Go(1));
    assert s.threads[1].pc == PushLink(8, 2, Ref(0, 2), Won);
    s := Onward({0, 1}, s, Go(1));
    assert s.threads[1].pc == PushTail(8, 2, Ref(0, 2), Ref(2, 0), Won) && s.tail == Ref(0, 2);
    s := Onward({0, 1}, s, Go(1));
    assert s.threads[1].stored == [8] && s.chain == [0, 2] && s.enq == [Event(1, 8)];
    assert s.nodes == Halfway().nodes && s.threads == Halfway().threads;
    assert s == Halfway();
  }

  // After thread 1 has pulled 8 again.
  function Emptied8(): State {
    Halfway().(head := Ref(2, 0), h := 1, deq := [Event(1, 8)],
               nodes := [Node(None, Ref(2, 0), 0, Some(Event(1, 8)), Emptied, 0), NewNode(0), NewNode(1).(pos := 1)],
               threads := map[0 := Thread(PushFill(7, 1, Ref(0, 1)), [], [], [], 0),
                              1 := Thread(Idle, [8], [], [8], 0)])
  }

  lemma ReachEmptied()
    ensures Reachable({0, 1}, Emptied8())
  {
    ReachHalfway();
    hide Reachable, Exec;
    var s := Onward({0, 1}, Halfway(), Pull(1));
    s := Onward({0, 1}, s, Go(1));
    s := Onward({0, 1}, s, Go(1));
    s := Onward({0, 1}, s, Go(1));
    assert s.threads[1].pc == PullCas(Ref(0, 1), Ref(2, 0)) && s.head == Ref(0, 1);
    s := Onward({0, 1}, s, Go(1));
    s := Onward({0, 1}, s, Go(1));
    assert s.nodes[0] == Emptied8().nodes[0] && s.threads[1].pulled == [8] && s.deq == [Event(1, 8)];
    assert s.nodes == Emptied8().nodes;
    assert s.threads == Emptied8().threads;
    assert s == Emptied8();
  }

  // Thread 0 stores 7 into the node that thread 1 has emptied, and its push returns; 7 is never
  // in the queue.
  lemma PushIsLost() returns (s: State)
    ensures Reachable({0, 1}, s)
    ensures 0 in s.threads && s.threads[0].pc.Idle? && s.threads[0].dropped == [7]
    ensures 1 in s.threads && s.threads[1].pc.Idle? && s.threads[1].pulled == [8]
    ensures Contents(s) == [] && s.enq == [Event(1, 8)]
  {
    ReachEmptied();
    hide Reachable, Exec;
    s := Onward({0, 1}, Emptied8(), Go(0));
    s := Onward({0, 1}, s, Go(0));
    assert s.threads[0].pc == PushTail(7, 1, Ref(0, 1), Ref(2, 0), Lost);
    s := Onward({0, 1}, s, Go(0));
  }
}
