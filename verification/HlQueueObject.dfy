/**
 The lock-free queue as an object: push and pull in the form the source gives
 them, with a burst of other threads' steps before every atomic access. Against
 any finite list of bursts both return, a push by helping a stopped pusher on.
 */
module HlQueueObject {
  import opened Prelude
  import opened HlQueue
  import opened HlQueueRuns

  class QueueObject {
    // shared memory
    var head: Ref
    var tail: Ref
    var nodes: seq<Node>
    // where each thread stands, and the history variables
    var threads: map<Tid, Thread>
    var chain: seq<int>
    var h: nat
    var k: nat
    var enq: seq<Event>
    var deq: seq<Event>
    // what the other threads will still do
    var env: seq<seq<Action>>
    // history: the threads, and every state so far, the present one last
    ghost const tids: set<Tid>
    ghost var past: seq<State>

    function View(): State
      reads this
    {
      State(head, tail, nodes, threads, chain, h, k, enq, deq)
    }

    ghost predicate Valid()
      reads this
    {
      Inv(View()) && Logged(View()) && IsRun(past, tids) && past != [] && past[|past| - 1] == View()
    }

    constructor (tids: set<Tid>, env: seq<seq<Action>>)
      ensures Valid() && View() == Init(tids) && this.env == env && this.tids == tids
    {
      var s := Init(tids);
      head, tail, nodes, threads, chain := s.head, s.tail, s.nodes, s.threads, s.chain;
      h, k, enq, deq := s.h, s.k, s.enq, s.deq;
      this.env := env;
      this.tids, past := tids, [s];
      new;
      InitOk(tids);
    }

    // The step a has just led from the last recorded state to the present one.
    ghost method Record(a: Action)
      requires IsRun(past, tids) && Step(past[|past| - 1], a) == View()
      modifies this`past
      ensures past == old(past) + [View()] && IsRun(past, tids)
    {
      hide Step, Init;
      assert StepTo(past[|past| - 1], View());
      ghost var was := past;
      past := past + [View()];
      forall i | 0 <= i < |past| - 1 ensures StepAt(past, i) {
        if i < |was| - 1 { assert StepAt(was, i); }
      }
    }

    // The step a of some thread.
    method Become(a: Action)
      requires Valid() && Inv(Step(View(), a)) && Logged(Step(View(), a))
      modifies this
      ensures Valid() && old(past) <= past && View() == Step(old(View()), a) && env == old(env)
    {
      hide Inv, Logged, Step, IsRun;
      var s := Step(View(), a);
      head, tail, nodes, threads, chain := s.head, s.tail, s.nodes, s.threads, s.chain;
      h, k, enq, deq := s.h, s.k, s.enq, s.deq;
      Record(a);
    }

    method OtherStep(t: Tid, a: Action)
      requires Valid() && t in threads && a.t != t
      modifies this
      ensures Valid() && old(past) <= past && t in threads && threads[t] == old(threads[t]) && env == old(env)
    {
      StepKeeps(View(), a);
      StepLog(View(), a);
      OthersStep(View(), a, t);
      hide Inv, Logged, Step, IsRun;
      Become(a);
    }

    // The other threads run for one burst; thread t stays where it is.
    method Interfere(t: Tid)
      requires Valid() && t in threads
      modifies this
      ensures Valid() && old(past) <= past && t in threads && threads[t] == old(threads[t])
      ensures if old(env) == [] then env == [] && View() == old(View()) else |env| < |old(env)|
    {
      hide Inv, Logged, IsRun;
      if env != [] {
        var burst := env[0];
        env := env[1..];
        for i := 0 to |burst|
          invariant Valid() && old(past) <= past
          invariant t in threads && threads[t] == old(threads[t]) && env == old(env)[1..]
        {
          if burst[i].t != t { OtherStep(t, burst[i]); }
        }
      }
    }

    // ----- Atomic accesses of a push -----

    // new node{} and tail.load()
    method AllocAndLoadTail(t: Tid, v: Value) returns (spare: int, seen: Ref)
      requires Valid() && StandsAt(View(), t, Idle)
      modifies this
      ensures Valid() && past == old(past) + [View()] && env == old(env) && View() == StartPush(old(View()), t, v)
      ensures spare == |old(nodes)| && seen == tail && enq == old(enq)
      ensures t in threads && threads[t] == old(threads[t]).(pc := PushIncrement(v, spare, seen))
    {
      StepKeeps(View(), HlQueue.Push(t, v));
      StepLog(View(), HlQueue.Push(t, v));
      hide Inv, Logged, IsRun;
      spare := |nodes|;
      nodes := nodes + [NewNode(t)];
      seen := tail;
      threads := threads[t := threads[t].(pc := PushIncrement(v, spare, seen))];
      Record(HlQueue.Push(t, v));
    }

    // The CAS of increase_count on tail
    method CasTailCount(t: Tid, v: Value, spare: int, seen: Ref) returns (ok: bool, now: Ref)
      requires Valid() && StandsAt(View(), t, PushIncrement(v, spare, seen))
      modifies this
      ensures Valid() && past == old(past) + [View()] && env == old(env)
      ensures ok == (old(tail) == seen) && now == old(tail)
      ensures View() == IncrementTail(old(View()), t, v, spare, seen)
    {
      hide Inv, Logged, Step, IsRun;
      IncrementTailOk(View(), t, v, spare, seen);
      now := tail;
      ok := tail == seen;
      if ok {
        tail := Ref(seen.ptr, seen.count + 1);
        threads := threads[t := threads[t].(pc := PushFill(v, spare, tail))];
      } else {
        threads := threads[t := threads[t].(pc := PushIncrement(v, spare, tail))];
      }
      Record(Go(t));
    }

    // data.compare_exchange_strong(nullptr, value)
    method CasData(t: Tid, v: Value, spare: int, seen: Ref) returns (ok: bool)
      requires Valid() && StandsAt(View(), t, PushFill(v, spare, seen))
      modifies this
      ensures Valid() && past == old(past) + [View()] && env == old(env)
      ensures Has(old(View()), seen.ptr) && ok == old(nodes[seen.ptr].data.None?) && tail == old(tail)
      ensures t in threads && threads[t].pc.PushLink? && (threads[t].pc.fate.Unstored? <==> !ok)
      ensures threads[t] == old(threads[t]).(pc := PushLink(v, spare, seen, threads[t].pc.fate))
      ensures View() == Fill(old(View()), t, v, spare, seen)
      ensures ok ==> Stores(old(View()), t, v) && (threads[t].pc.fate.Won? <==> InTime(old(View()), t))
      ensures ok ==> old(InTime(View(), t) || Gone(View(), t))
    {
      FillFate(View(), t, v, spare, seen);
      FillOk(View(), t, v, spare, seen);
      hide Inv, Logged, IsRun, Step, Stores, InTime, Gone;
      var node := nodes[seen.ptr];
      ok := node.data.None?;
      if ok {
        var first := node.first.None?;
        nodes := nodes[seen.ptr := node.(data := Some(v), first := if first then Some(Event(t, v)) else node.first)];
        threads := threads[t := threads[t].(pc := PushLink(v, spare, seen, if first then Won else Lost))];
      } else {
        threads := threads[t := threads[t].(pc := PushLink(v, spare, seen, Unstored))];
      }
      Record(Go(t));
    }

    // next.compare_exchange_strong(nullptr, new_node), and what each branch does with its node
    method CasNext(t: Tid, v: Value, spare: int, seen: Ref, fate: Fate) returns (next: Ref, other: int)
      requires Valid() && StandsAt(View(), t, PushLink(v, spare, seen, fate))
      modifies this
      ensures Valid() && past == old(past) + [View()] && env == old(env) && tail == old(tail)
      ensures Has(old(View()), seen.ptr) && Has(old(View()), spare)
      ensures View() == Link(old(View()), t, v, spare, seen, fate)
      ensures t in threads && threads[t] == old(threads[t]).(pc := PushTail(v, other, seen, next, fate))
    {
      hide Inv, Logged, Step, IsRun;
      LinkOk(View(), t, v, spare, seen, fate);
      var node := nodes[seen.ptr];
      next, other := node.next, spare;
      if node.next == Ref(NULL, 0) {
        next := Ref(spare, 0);
        nodes := nodes[seen.ptr := node.(next := next)];
        nodes := nodes[spare := nodes[spare].(pos := |chain|)];
        chain := chain + [spare];
        if fate.Unstored? {
          other := |nodes|;
          nodes := nodes + [NewNode(t)];
        }
      }
      threads := threads[t := threads[t].(pc := PushTail(v, other, seen, next, fate))];
      Record(Go(t));
    }

    // tail.compare_exchange_strong(old, new) in set_new_tail, and the exit from its loop
    method CasTail(t: Tid, v: Value, spare: int, seen: Ref, next: Ref, fate: Fate) returns (leave: bool, now: Ref)
      requires Valid() && StandsAt(View(), t, PushTail(v, spare, seen, next, fate))
      modifies this
      ensures Valid() && past == old(past) + [View()] && env == old(env)
      ensures now == (if old(tail) == seen then seen else old(tail))
      ensures leave == (old(tail) == seen || old(tail.ptr) != seen.ptr)
      ensures Has(old(View()), old(tail.ptr)) && View() == SetTail(old(View()), t, v, spare, seen, next, fate)
      ensures t in threads
      ensures threads[t] == if leave then Left(old(threads[t]), v, spare, now, fate)
                            else old(threads[t]).(pc := PushTail(v, spare, now, next, fate))
      ensures nodes == old(nodes) && tail == (if old(tail) == seen then next else old(tail))
    {
      hide Inv, Logged, Step, IsRun;
      SetTailOk(View(), t, v, spare, seen, next, fate);
      now := if tail == seen then seen else tail;
      leave := tail == seen || tail.ptr != seen.ptr;
      if tail == seen {
        enq := enq + [nodes[tail.ptr].first.value];
        k := k + 1;
        tail := next;
      }
      var th := threads[t];
      if !leave { th := th.(pc := PushTail(v, spare, now, next, fate)); }
      else if fate.Unstored? { th := th.(pc := PushIncrement(v, spare, now)); }
      else if fate.Won? { th := th.(pc := Idle, stored := th.stored + [v]); }
      else { th := th.(pc := Idle, dropped := th.dropped + [v]); }
      threads := threads[t := th];
      Record(Go(t));
    }

    // ----- push -----

    // increase_count(tail, old)
    method IncreaseTailCount(t: Tid, v: Value, spare: int, seen0: Ref) returns (seen: Ref)
      requires Valid() && StandsAt(View(), t, PushIncrement(v, spare, seen0))
      modifies this
      ensures Valid() && old(past) <= past
      ensures t in threads && threads[t] == old(threads[t]).(pc := PushFill(v, spare, seen)) && tail == seen
      ensures if old(env) == [] then env == [] && tail == seen && nodes == old(nodes) && tail.ptr == old(tail.ptr)
              else |env| < |old(env)|
    {
      hide Inv, Logged, IsRun;
      seen := seen0;
      var ok := false;
      while !ok
        invariant Valid() && old(past) <= past && t in threads
        invariant var pc := if ok then PushFill(v, spare, tail) else PushIncrement(v, spare, seen);
                  threads[t] == old(threads[t]).(pc := pc)
        invariant ok ==> tail == Ref(seen.ptr, seen.count + 1)
        invariant |env| <= |old(env)| && (ok && old(env) != [] ==> |env| < |old(env)|)
        invariant old(env) == [] ==> env == [] && nodes == old(nodes) && tail.ptr == old(tail.ptr)
        decreases |env|, !ok && tail != seen, !ok
      {
        Interfere(t);
        var won, now := CasTailCount(t, v, spare, seen);
        ok := won;
        if !ok { seen := now; }
      }
      seen := Ref(seen.ptr, seen.count + 1);
    }

    // set_new_tail(old, new)
    method SetNewTail(t: Tid, v: Value, spare: int, seen0: Ref, next: Ref, fate: Fate) returns (seen: Ref)
      requires Valid() && StandsAt(View(), t, PushTail(v, spare, seen0, next, fate))
      modifies this
      ensures Valid() && old(past) <= past && t in threads && |env| <= |old(env)|
      ensures threads[t] == Left(old(threads[t]), v, spare, seen, fate) && tail.ptr != seen0.ptr
      ensures old(env) == [] && old(tail) == seen0 ==> env == [] && EmptyTail() && Passed(old(View()), View())
    {
      hide Inv, Logged, IsRun, EmptyTail, Passed;
      seen := seen0;
      var leave := false;
      while !leave
        invariant Valid() && old(past) <= past && t in threads && |env| <= |old(env)|
        invariant threads[t] == if leave then Left(old(threads[t]), v, spare, seen, fate)
                                else old(threads[t]).(pc := PushTail(v, spare, seen, next, fate))
        invariant if leave then tail.ptr != seen0.ptr else seen.ptr == seen0.ptr
        invariant old(env) == [] && old(tail) == seen0 ==>
                    && env == [] && (!leave ==> tail == seen && View() == old(View()))
                    && (leave ==> EmptyTail() && Passed(old(View()), View()))
        decreases |env|, !leave && tail != seen, !leave
      {
        leave, seen := TailRound(t, v, spare, seen, next, fate);
      }
    }

    // One round of that loop.
    method TailRound(t: Tid, v: Value, spare: int, seen0: Ref, next: Ref, fate: Fate) returns (leave: bool, seen: Ref)
      requires Valid() && StandsAt(View(), t, PushTail(v, spare, seen0, next, fate))
      modifies this
      ensures Valid() && old(past) <= past && t in threads
      ensures threads[t] == if leave then Left(old(threads[t]), v, spare, seen, fate)
                            else old(threads[t]).(pc := PushTail(v, spare, seen, next, fate))
      ensures if leave then tail.ptr != seen0.ptr else tail == seen && seen.ptr == seen0.ptr
      ensures if old(env) == []
              then env == [] && (old(tail) == seen0 ==> leave && EmptyTail() && Passed(old(View()), View()))
              else |env| < |old(env)|
    {
      hide Inv, Logged, IsRun, SetTail, Left;
      Interfere(t);
      if tail == seen0 {
        SuccessorEmpty(View(), t, v, spare, seen0, next, fate);
        PassesTail(View(), t, v, spare, seen0, next, fate);
      }
      leave, seen := CasTail(t, v, spare, seen0, next, fate);
    }

    // The tail node has no data yet.
    predicate EmptyTail()
      reads this
    {
      Has(View(), tail.ptr) && nodes[tail.ptr].data.None?
    }

    // hl_queue::push. It returns, whatever finite number of steps the others take. At the recorded
    // state at it stores its value into a node without data. If the tail is still there, the value
    // enters the queue; if not, a pull has emptied the node, and the value is lost. Alone it always
    // enters the queue, as the last one.
    method Push(t: Tid, v: Value) returns (ghost at: nat)
      requires Valid() && StandsAt(View(), t, Idle)
      modifies this
      ensures Valid() && old(past) <= past && |old(past)| <= at < |past| - 1 && t in threads
      ensures Stores(past[at], t, v) && (InTime(past[at], t) || Gone(past[at], t))
      ensures threads[t] == Pushed(old(threads[t]), v, InTime(past[at], t))
      ensures Of(enq, t) == Of(old(enq), t) + if InTime(past[at], t) then [v] else []
      ensures old(env) == [] ==>
                && InTime(past[at], t) && enq != [] && enq[|enq| - 1] == Event(t, v)
                && Contents(View()) != [] && Contents(View())[|Contents(View())| - 1] == v
    {
      hide Inv, Logged, IsRun, Stores, InTime, Gone, Contents, Of, Pushed, LastIs;
      ghost var start := View();
      at := StartAndLoop(t, v);
      PushCounts(start, View(), t, v, InTime(past[at], t));
      if old(env) == [] { LastIsLast(View(), t, v); }
    }

    method StartAndLoop(t: Tid, v: Value) returns (ghost at: nat)
      requires Valid() && StandsAt(View(), t, Idle)
      modifies this
      ensures Valid() && old(past) <= past && |old(past)| <= at < |past| - 1 && Outcome(old(threads[t]), t, v, at)
      ensures old(env) == [] ==> InTime(past[at], t) && LastIs(View(), t, v)
    {
      hide Inv, Logged, IsRun, InTime, LastIs, Outcome, StartPush;
      var spare, seen := AllocAndLoadTail(t, v);
      assert threads[t].(pc := Idle) == old(threads[t]);
      at := PushLoop(t, v, spare, seen);
    }

    method PushLoop(t: Tid, v: Value, spare0: int, seen0: Ref) returns (ghost at: nat)
      requires Valid() && StandsAt(View(), t, PushIncrement(v, spare0, seen0))
      modifies this
      ensures Valid() && old(past) <= past && |old(past)| <= at < |past| - 1
      ensures Outcome(old(threads[t]).(pc := Idle), t, v, at)
      ensures old(env) == [] ==> InTime(past[at], t) && LastIs(View(), t, v)
    {
      hide Inv, Logged, IsRun, EmptyTail, Outcome, InTime, LastIs;
      var spare, seen, done := spare0, seen0, false;
      at := 0;
      while !done
        invariant Valid() && old(past) <= past && t in threads
        invariant if done then |old(past)| <= at < |past| - 1 && Outcome(old(threads[t]).(pc := Idle), t, v, at)
                  else threads[t] == old(threads[t]).(pc := PushIncrement(v, spare, seen))
        invariant old(env) == [] ==> env == [] && (done ==> InTime(past[at], t) && LastIs(View(), t, v))
        decreases |env|, !done && !EmptyTail(), !done
      {
        done, spare, seen, at := TryPush(t, v, spare, seen);
      }
    }

    // The push of t stored its value at the recorded state at, and what became of it.
    ghost predicate Outcome(th: Thread, t: Tid, v: Value, at: nat)
      requires at < |past|
      reads this
    {
      && t in threads && Stores(past[at], t, v) && (InTime(past[at], t) || Gone(past[at], t))
      && threads[t] == Pushed(th, v, InTime(past[at], t))
    }

    // One round: store the value, or help the pusher that has stored its own.
    method TryPush(t: Tid, v: Value, spare0: int, seen0: Ref)
      returns (done: bool, spare: int, seen: Ref, ghost at: nat)
      requires Valid() && StandsAt(View(), t, PushIncrement(v, spare0, seen0))
      modifies this
      ensures Valid() && old(past) <= past && t in threads
      ensures if done then |old(past)| <= at < |past| - 1 && Outcome(old(threads[t]).(pc := Idle), t, v, at)
              else threads[t] == old(threads[t]).(pc := PushIncrement(v, spare, seen))
      ensures |env| < |old(env)| || (env == old(env) == [] && (!done ==> !old(EmptyTail()) && EmptyTail()))
      ensures old(env) == [] && done ==> InTime(past[at], t) && LastIs(View(), t, v)
    {
      hide Inv, Logged, IsRun, Stores, InTime, Gone, LastIs;
      var fate;
      seen, fate, at := StoreValue(t, v, spare0, seen0);
      spare, seen := LinkAndPass(t, v, spare0, seen, fate);
      done := !fate.Unstored?;
    }

    // The first half: raise the tail's count and try to store the value in its node.
    method StoreValue(t: Tid, v: Value, spare: int, seen0: Ref) returns (seen: Ref, fate: Fate, ghost at: nat)
      requires Valid() && StandsAt(View(), t, PushIncrement(v, spare, seen0))
      modifies this
      ensures Valid() && old(past) <= past && |old(past)| <= at < |past|
      ensures t in threads && threads[t] == old(threads[t]).(pc := PushLink(v, spare, seen, fate))
      ensures !fate.Unstored? ==>
                && Stores(past[at], t, v) && (InTime(past[at], t) || Gone(past[at], t))
                && (fate.Won? <==> InTime(past[at], t))
      ensures if old(env) == []
              then env == [] && tail == seen && (if old(EmptyTail()) then fate.Won? else fate.Unstored?)
              else |env| < |old(env)|
    {
      hide Inv, Logged, IsRun, Fill, Stores, Gone;
      seen := IncreaseTailCount(t, v, spare, seen0);
      Interfere(t);
      assert old(env) == [] ==> EmptyTail() == old(EmptyTail());
      at := |past| - 1;
      var filled := CasData(t, v, spare, seen);
      fate := threads[t].pc.fate;
    }

    // The second half: link a node behind it and move the tail on, for itself or for another pusher.
    method LinkAndPass(t: Tid, v: Value, spare0: int, seen0: Ref, fate: Fate) returns (spare: int, seen: Ref)
      requires Valid() && StandsAt(View(), t, PushLink(v, spare0, seen0, fate))
      modifies this
      ensures Valid() && old(past) <= past && |old(past)| < |past| && |env| <= |old(env)|
      ensures t in threads && threads[t] == Left(old(threads[t]), v, spare, seen, fate)
      ensures old(env) == [] && old(tail) == seen0 ==> env == [] && EmptyTail() && (fate.Won? ==> LastIs(View(), t, v))
    {
      hide Inv, Logged, IsRun, Link, EmptyTail, Passed, LastIs;
      Interfere(t);
      var next;
      next, spare := CasNext(t, v, spare0, seen0, fate);
      if tail == seen0 { WonIsLast(View(), t); }
      seen := SetNewTail(t, v, spare, seen0, next, fate);
    }

    // ----- Atomic accesses of a pull -----

    // head.load() on entry
    method LoadHead(t: Tid) returns (seen: Ref)
      requires Valid() && StandsAt(View(), t, Idle)
      modifies this
      ensures Valid() && past == old(past) + [View()] && env == old(env) && seen == head
      ensures View() == To(old(View()), t, PullIncrement(seen))
    {
      StepKeeps(View(), HlQueue.Pull(t));
      StepLog(View(), HlQueue.Pull(t));
      hide Inv, Logged, IsRun;
      seen := head;
      threads := threads[t := threads[t].(pc := PullIncrement(seen))];
      Record(HlQueue.Pull(t));
    }

    // The CAS of increase_count on head
    method CasHeadCount(t: Tid, seen: Ref) returns (ok: bool, now: Ref)
      requires Valid() && StandsAt(View(), t, PullIncrement(seen))
      modifies this
      ensures Valid() && past == old(past) + [View()] && env == old(env)
      ensures ok == (old(head) == seen) && now == old(head)
      ensures View() == IncrementHead(old(View()), t, seen)
    {
      hide Inv, Logged, Step, IsRun;
      IncrementHeadOk(View(), t, seen);
      now := head;
      ok := head == seen;
      if ok {
        head := Ref(seen.ptr, seen.count + 1);
        threads := threads[t := threads[t].(pc := PullCheck(head))];
      } else {
        threads := threads[t := threads[t].(pc := PullIncrement(head))];
      }
      Record(Go(t));
    }

    // tail.load() and the comparison with the node in hand
    method TailIs(t: Tid, seen: Ref) returns (isEmpty: bool)
      requires Valid() && StandsAt(View(), t, PullCheck(seen))
      modifies this
      ensures Valid() && past == old(past) + [View()] && env == old(env)
      ensures head == old(head) && isEmpty == (old(tail.ptr) == seen.ptr)
      ensures isEmpty ==> Contents(old(View())) == []
      ensures View() == Check(old(View()), t, seen)
    {
      hide Inv, Logged, Step, IsRun;
      CheckOk(View(), t, seen);
      isEmpty := tail.ptr == seen.ptr;
      var th := threads[t];
      th := if isEmpty then th.(pc := Idle, empties := th.empties + 1) else th.(pc := PullNext(seen));
      threads := threads[t := th];
      Record(Go(t));
    }

    // next.load()
    method LoadNext(t: Tid, seen: Ref) returns (next: Ref)
      requires Valid() && StandsAt(View(), t, PullNext(seen))
      modifies this
      ensures Valid() && past == old(past) + [View()] && env == old(env) && head == old(head)
      ensures Has(old(View()), seen.ptr) && next == old(nodes[seen.ptr].next)
      ensures View() == To(old(View()), t, PullCas(seen, next))
    {
      StepKeeps(View(), Go(t));
      StepLog(View(), Go(t));
      assert PcOk(View(), t);
      hide Inv, Logged, IsRun;
      next := nodes[seen.ptr].next;
      threads := threads[t := threads[t].(pc := PullCas(seen, next))];
      Record(Go(t));
    }

    // head.compare_exchange_strong(old, next)
    method CasHead(t: Tid, seen: Ref, next: Ref) returns (ok: bool, now: Ref)
      requires Valid() && StandsAt(View(), t, PullCas(seen, next))
      modifies this
      ensures Valid() && past == old(past) + [View()] && env == old(env)
      ensures ok == (old(head) == seen) && now == old(head)
      ensures Has(old(View()), seen.ptr) && View() == PassHead(old(View()), t, seen, next)
      ensures ok ==> next.ptr != NULL && old(nodes[seen.ptr].first.Some?)
    {
      hide Inv, Logged, IsRun;
      StepKeeps(View(), Go(t));
      StepLog(View(), Go(t));
      CasHeadFacts(View(), t, seen, next);
      now := head;
      ok := head == seen;
      if ok {
        head := next;
        h := h + 1;
        deq := deq + [Event(t, nodes[seen.ptr].first.value.v)];
        nodes := nodes[seen.ptr := nodes[seen.ptr].(claim := By(t))];
        threads := threads[t := threads[t].(pc := PullTake(seen))];
      } else {
        threads := threads[t := threads[t].(pc := PullIncrement(head))];
      }
      Record(Go(t));
    }

    // data.exchange(nullptr)
    method ExchangeData(t: Tid, seen: Ref) returns (res: Option<Value>)
      requires Valid() && StandsAt(View(), t, PullTake(seen))
      modifies this
      ensures Valid() && past == old(past) + [View()] && env == old(env) && res.Some?
      ensures Has(old(View()), seen.ptr) && res == old(nodes[seen.ptr].data) && View() == Take(old(View()), t, seen)
    {
      hide Inv, Logged, Step, IsRun;
      TakeOk(View(), t, seen);
      var node := nodes[seen.ptr];
      res := node.data;
      nodes := nodes[seen.ptr := node.(data := None, claim := Emptied)];
      threads := threads[t := threads[t].(pc := Idle, pulled := threads[t].pulled + [res.value])];
      Record(Go(t));
    }

    // ----- pull -----

    // increase_count(head, old)
    method IncreaseHeadCount(t: Tid, seen0: Ref) returns (seen: Ref)
      requires Valid() && StandsAt(View(), t, PullIncrement(seen0))
      modifies this
      ensures Valid() && old(past) <= past && |old(past)| < |past|
      ensures t in threads && threads[t] == old(threads[t]).(pc := PullCheck(seen))
      ensures head == seen && |env| <= |old(env)|
      ensures old(env) == [] ==> env == [] && enq == old(enq) && deq == old(deq)
    {
      hide Inv, Logged, IsRun;
      seen := seen0;
      var ok := false;
      while !ok
        invariant Valid() && old(past) <= past && |env| <= |old(env)| && (ok ==> |old(past)| < |past|)
        invariant t in threads
        invariant threads[t] == old(threads[t]).(pc := if ok then PullCheck(head) else PullIncrement(seen))
        invariant ok ==> head == Ref(seen.ptr, seen.count + 1)
        invariant old(env) == [] ==> env == [] && enq == old(enq) && deq == old(deq)
        decreases |env|, !ok && head != seen, !ok
      {
        Interfere(t);
        var won, now := CasHeadCount(t, seen);
        ok := won;
        if !ok { seen := now; }
      }
      seen := Ref(seen.ptr, seen.count + 1);
    }

    // hl_queue::pull. The step from the recorded state at to the next one decides it: either it loads
    // the tail of an empty queue, and the answer is nothing, or it takes the first value off. Alone
    // it does that to the queue as it was at the call.
    method Pull(t: Tid) returns (res: Option<Value>, ghost at: nat)
      requires Valid() && StandsAt(View(), t, Idle)
      modifies this
      ensures Valid() && old(past) <= past && |old(past)| <= at < |past| - 1
      ensures Decides(past[at], past[at + 1], t, res)
      ensures t in threads && threads[t] == Pulled(old(threads[t]), res)
      ensures old(env) == [] ==> TakesOff(old(Contents(View())), Contents(View()), res)
    {
      ghost var start := View();
      hide Inv, Logged, IsRun, Contents, Decides, Pulled;
      var seen := LoadHead(t);
      SameQueue(start, View());
      assert threads[t].(pc := Idle) == start.threads[t];
      var done := false;
      res, at := None, 0;
      while !done
        invariant Valid() && old(past) <= past && |past| > |old(past)| && t in threads
        invariant if done then |old(past)| <= at < |past| - 1 && Decides(past[at], past[at + 1], t, res)
                               && threads[t] == Pulled(start.threads[t], res)
                  else threads[t] == start.threads[t].(pc := PullIncrement(seen))
        invariant old(env) == [] ==> env == []
        invariant old(env) == [] && !done ==> Contents(View()) == Contents(start)
        invariant old(env) == [] && done ==> TakesOff(Contents(start), Contents(View()), res)
        decreases |env|, !done
      {
        done, res, seen, at := TryPull(t, seen);
      }
    }

    // One round: raise the head's count, look at the tail, and try to move the head.
    method TryPull(t: Tid, seen0: Ref) returns (done: bool, res: Option<Value>, seen: Ref, ghost at: nat)
      requires Valid() && StandsAt(View(), t, PullIncrement(seen0))
      modifies this
      ensures Valid() && old(past) <= past && |old(past)| < |past| && t in threads && |env| <= |old(env)|
      ensures if done then |old(past)| <= at < |past| - 1 && Decides(past[at], past[at + 1], t, res)
                           && threads[t] == Pulled(old(threads[t]).(pc := Idle), res)
              else |env| < |old(env)| && threads[t] == old(threads[t]).(pc := PullIncrement(seen))
      ensures old(env) == [] ==>
                done && env == [] && TakesOff(old(Contents(View())), Contents(View()), res)
    {
      hide Inv, Logged, IsRun, Contents, Decides, Pulled;
      ghost var start := View();
      var isEmpty;
      seen, isEmpty, at := LookAtTail(t, seen0);
      if isEmpty {
        done, res := true, None;
      } else {
        done, res, seen, at := MoveHead(t, seen);
      }
    }

    method LookAtTail(t: Tid, seen0: Ref) returns (seen: Ref, isEmpty: bool, ghost at: nat)
      requires Valid() && StandsAt(View(), t, PullIncrement(seen0))
      modifies this
      ensures Valid() && old(past) <= past && |old(past)| <= at == |past| - 2 && t in threads && |env| <= |old(env)|
      ensures if isEmpty then Decides(past[at], past[at + 1], t, None)
                              && threads[t] == Pulled(old(threads[t]).(pc := Idle), None)
              else threads[t] == old(threads[t]).(pc := PullNext(seen))
      ensures old(env) == [] ==> env == [] && head == seen && Contents(View()) == old(Contents(View()))
      ensures old(env) == [] && isEmpty ==> Contents(View()) == []
    {
      hide Inv, Logged, IsRun, Contents;
      ghost var start := View();
      seen := IncreaseHeadCount(t, seen0);
      Interfere(t);
      ghost var here := View();
      isEmpty := TailIs(t, seen);
      at := |past| - 2;
      assert past[at] == here;
      if old(env) == [] { SameQueue(start, View()); }
      SameQueue(here, View());
    }

    method MoveHead(t: Tid, seen0: Ref) returns (done: bool, res: Option<Value>, seen: Ref, ghost at: nat)
      requires Valid() && StandsAt(View(), t, PullNext(seen0))
      modifies this
      ensures Valid() && old(past) <= past && |old(past)| < |past| && t in threads && |env| <= |old(env)|
      ensures if done then |old(past)| <= at < |past| - 1 && Decides(past[at], past[at + 1], t, res) && res.Some?
                           && threads[t] == Pulled(old(threads[t]).(pc := Idle), res)
              else (|env| < |old(env)| || old(env) == []) && threads[t] == old(threads[t]).(pc := PullIncrement(seen))
      ensures old(env) == [] && old(head) == seen0 ==>
                && done && env == [] && old(Contents(View())) == [res.value] + Contents(View())
    {
      hide Inv, Logged, IsRun, Contents, Decides;
      ghost var start := View();
      Interfere(t);
      var next := LoadNext(t, seen0);
      if old(env) == [] { SameQueue(start, View()); }
      ghost var v;
      done, seen, at, v := SwingHead(t, seen0, next);
      res := None;
      if done {
        ghost var taken := View();
        res := TakeValue(t, seen0, v);
        if old(env) == [] { SameQueue(taken, View()); }
      }
    }

    // The head moves off the node in hand, if it is still there.
    method SwingHead(t: Tid, seen0: Ref, next: Ref) returns (done: bool, now: Ref, ghost at: nat, ghost v: Value)
      requires Valid() && StandsAt(View(), t, PullCas(seen0, next))
      modifies this
      ensures Valid() && old(past) <= past && |old(past)| - 1 <= at == |past| - 2 && t in threads
      ensures if done then Decides(past[at], past[at + 1], t, Some(v)) && PendingPull(View(), t) == [v]
                           && threads[t] == old(threads[t]).(pc := PullTake(seen0))
              else threads[t] == old(threads[t]).(pc := PullIncrement(now))
      ensures if old(env) == [] then env == [] && (old(head) == seen0 ==> done) else |env| < |old(env)|
      ensures old(env) == [] && done ==> old(Contents(View())) == [v] + Contents(View())
    {
      hide Inv, Logged, IsRun, Contents;
      Interfere(t);
      ghost var here := View();
      done, now := CasHead(t, seen0, next);
      at, v := |past| - 2, 0;
      assert past[at] == here;
      if done {
        v := here.nodes[seen0.ptr].first.value.v;
        OneLess(here, View(), Event(t, v));
      }
    }

    // The value that the pull has claimed is still there.
    method TakeValue(t: Tid, seen: Ref, ghost v: Value) returns (res: Option<Value>)
      requires Valid() && StandsAt(View(), t, PullTake(seen)) && PendingPull(View(), t) == [v]
      modifies this
      ensures Valid() && old(past) <= past && |old(past)| < |past| && t in threads && res == Some(v)
      ensures threads[t] == Pulled(old(threads[t]).(pc := Idle), res) && |env| <= |old(env)|
      ensures old(env) == [] ==> env == [] && enq == old(enq) && deq == old(deq)
    {
      hide Inv, Logged, IsRun;
      ghost var start, i := View(), |past| - 1;
      Interfere(t);
      RunGrows(past, tids, i, |past| - 1);
      ClaimStays(start, View(), t);
      TakesFirst(View(), t, seen);
      res := ExchangeData(t, seen);
    }
  }

  // The steps of one thread, with what the methods need to know of them.
  lemma IncrementTailOk(s: State, t: Tid, v: Value, spare: int, seen: Ref)
    requires Inv(s) && Logged(s) && t in s.threads && s.threads[t].pc == PushIncrement(v, spare, seen)
    ensures var s' := IncrementTail(s, t, v, spare, seen); Step(s, Go(t)) == s' && Inv(s') && Logged(s')
  {
    hide Inv, Logged, IsRun;
    StepKeeps(s, Go(t));
    StepLog(s, Go(t));
  }

  lemma IncrementHeadOk(s: State, t: Tid, seen: Ref)
    requires Inv(s) && Logged(s) && t in s.threads && s.threads[t].pc == PullIncrement(seen)
    ensures var s' := IncrementHead(s, t, seen); Step(s, Go(t)) == s' && Inv(s') && Logged(s')
  {
    hide Inv, Logged, IsRun;
    StepKeeps(s, Go(t));
    StepLog(s, Go(t));
  }

  lemma TakeOk(s: State, t: Tid, seen: Ref)
    requires Inv(s) && Logged(s) && t in s.threads && s.threads[t].pc == PullTake(seen)
    ensures Has(s, seen.ptr) && s.nodes[seen.ptr].data.Some?
    ensures var s' := Take(s, t, seen); Step(s, Go(t)) == s' && Inv(s') && Logged(s')
  {
    hide Inv, Logged, Take;
    TakeKeeps(s, t, seen);
    TakeLog(s, t, seen);
  }

  lemma CheckOk(s: State, t: Tid, seen: Ref)
    requires Inv(s) && Logged(s) && t in s.threads && s.threads[t].pc == PullCheck(seen)
    ensures var s' := Check(s, t, seen); Step(s, Go(t)) == s' && Inv(s') && Logged(s')
    ensures s.tail.ptr == seen.ptr ==> Contents(s) == []
  {
    hide Inv, Logged, IsRun;
    StepKeeps(s, Go(t));
    StepLog(s, Go(t));
    EmptyExact(s, Go(t));
  }

  lemma SetTailOk(s: State, t: Tid, v: Value, spare: int, seen: Ref, next: Ref, fate: Fate)
    requires Inv(s) && Logged(s) && t in s.threads && s.threads[t].pc == PushTail(v, spare, seen, next, fate)
    ensures Has(s, s.tail.ptr)
    ensures var s' := SetTail(s, t, v, spare, seen, next, fate); Step(s, Go(t)) == s' && Inv(s') && Logged(s')
    ensures s.tail == seen ==> s.nodes[s.tail.ptr].first.Some?
  {
    hide Inv, Logged, IsRun;
    if s.tail == seen { SetTailKeeps(s, t, v, spare, seen, next, fate); }
    else { SetTailLostKeeps(s, t, v, spare, seen, next, fate); }
    StepLog(s, Go(t));
  }

  lemma LinkOk(s: State, t: Tid, v: Value, spare: int, seen: Ref, fate: Fate)
    requires Inv(s) && Logged(s) && t in s.threads && s.threads[t].pc == PushLink(v, spare, seen, fate)
    ensures Has(s, seen.ptr) && Has(s, spare) && seen.ptr != spare
    ensures var s' := Link(s, t, v, spare, seen, fate); Step(s, Go(t)) == s' && Inv(s') && Logged(s')
  {
    assert PcOk(s, t);
    hide Inv, Logged, IsRun;
    LinkKeeps(s, t, v, spare, seen, fate);
    StepLog(s, Go(t));
  }

  // Thread th after it has left set_new_tail.
  function Left(th: Thread, v: Value, spare: int, seen: Ref, fate: Fate): Thread {
    match fate
    case Unstored => th.(pc := PushIncrement(v, spare, seen))
    case Won => th.(pc := Idle, stored := th.stored + [v])
    case Lost => th.(pc := Idle, dropped := th.dropped + [v])
  }

  lemma CasHeadFacts(s: State, t: Tid, seen: Ref, next: Ref)
    requires Inv(s) && t in s.threads && s.threads[t].pc == PullCas(seen, next)
    ensures Has(s, seen.ptr) && next.ptr != NULL && (s.head == seen ==> s.nodes[seen.ptr].first.Some?)
  {
    PassHeadFacts(s, t, seen, next);
    assert PcOk(s, t);
    if s.head == seen { PassHeadKeeps(s, t, seen, next); }
  }

  // The node behind the tail is another one and has not been filled.
  lemma SuccessorEmpty(s: State, t: Tid, v: Value, spare: int, seen: Ref, next: Ref, fate: Fate)
    requires Inv(s) && t in s.threads && s.threads[t].pc == PushTail(v, spare, seen, next, fate) && s.tail == seen
    ensures Has(s, next.ptr) && s.nodes[next.ptr].data.None? && next.ptr != seen.ptr
  {
    assert PlaceOk(s, s.k);
    SetTailKeeps(s, t, v, spare, seen, next, fate);
    assert PlaceOk(s, s.k + 1);
  }

  // A step of another thread leaves thread t where it is.
  lemma OthersStep(s: State, a: Action, t: Tid)
    requires t in s.threads && a.t != t
    ensures t in Step(s, a).threads && Step(s, a).threads[t] == s.threads[t]
  {
  }

  // Thread t is about to store its value v into a node, and will find it without data.
  predicate Stores(s: State, t: Tid, v: Value) {
    && t in s.threads && s.threads[t].pc.PushFill? && s.threads[t].pc.v == v
    && Has(s, s.threads[t].pc.seen.ptr) && s.nodes[s.threads[t].pc.seen.ptr].data.None?
  }

  // The tail is still at that node, or a pull has emptied it.
  predicate InTime(s: State, t: Tid) {
    t in s.threads && s.threads[t].pc.PushFill? && s.tail.ptr == s.threads[t].pc.seen.ptr
  }

  predicate Gone(s: State, t: Tid) {
    && t in s.threads && s.threads[t].pc.PushFill? && Has(s, s.threads[t].pc.seen.ptr)
    && s.nodes[s.threads[t].pc.seen.ptr].claim.Emptied?
  }

  // Thread th after a push of v.
  function Pushed(th: Thread, v: Value, inTime: bool): Thread {
    if inTime then th.(stored := th.stored + [v]) else th.(dropped := th.dropped + [v])
  }

  lemma FillOk(s: State, t: Tid, v: Value, spare: int, seen: Ref)
    requires Inv(s) && Logged(s) && StandsAt(s, t, PushFill(v, spare, seen))
    ensures Has(s, seen.ptr)
    ensures var s' := Fill(s, t, v, spare, seen); Step(s, Go(t)) == s' && Inv(s') && Logged(s')
  {
    hide Inv, Logged, Fill;
    FillKeeps(s, t, v, spare, seen);
    StepLog(s, Go(t));
  }

  lemma FillFate(s: State, t: Tid, v: Value, spare: int, seen: Ref)
    requires Inv(s) && StandsAt(s, t, PushFill(v, spare, seen))
    ensures Has(s, seen.ptr)
    ensures s.nodes[seen.ptr].data.None? ==>
              && Stores(s, t, v) && (InTime(s, t) || Gone(s, t))
              && (s.nodes[seen.ptr].first.None? <==> InTime(s, t))
  {
    assert PcOk(s, t);
    hide Inv;
    if s.nodes[seen.ptr].data.None? { FillMeaning(s, seen.ptr); }
  }

  // The tail has passed the node at which it was.
  predicate Passed(s: State, s': State) {
    && Has(s, s.tail.ptr) && s.nodes[s.tail.ptr].first.Some? && s'.k == s.k + 1 && s'.h == s.h
    && s'.enq == s.enq + [s.nodes[s.tail.ptr].first.value]
  }

  // The last push that the tail has passed is t's push of v, and its value is in the queue.
  predicate LastIs(s: State, t: Tid, v: Value) {
    s.h < s.k && s.enq != [] && s.enq[|s.enq| - 1] == Event(t, v)
  }

  lemma LastIsLast(s: State, t: Tid, v: Value)
    requires Logged(s) && LastIs(s, t, v)
    ensures s.enq != [] && s.enq[|s.enq| - 1] == Event(t, v)
    ensures Contents(s) != [] && Contents(s)[|Contents(s)| - 1] == v
  {
    ContentsAre(s);
  }

  // A push of t that has returned has added its event, once, or none.
  lemma PushCounts(s: State, s': State, t: Tid, v: Value, inTime: bool)
    requires Logged(s) && Logged(s') && StandsAt(s, t, Idle) && t in s'.threads
    requires s'.threads[t] == Pushed(s.threads[t], v, inTime)
    ensures Of(s'.enq, t) == Of(s.enq, t) + if inTime then [v] else []
  {
    assert ThreadLogOk(s, t) && ThreadLogOk(s', t);
  }

  lemma PassesTail(s: State, t: Tid, v: Value, spare: int, seen: Ref, next: Ref, fate: Fate)
    requires Inv(s) && StandsAt(s, t, PushTail(v, spare, seen, next, fate)) && s.tail == seen
    ensures Has(s, s.tail.ptr) && Passed(s, SetTail(s, t, v, spare, seen, next, fate))
  {
    SetTailKeeps(s, t, v, spare, seen, next, fate);
    assert PlaceOk(s, s.k) && PlaceOk(s, s.k + 1);
  }

  // The tail passes the node of a push that has won, with its event.
  lemma WonIsLast(s: State, t: Tid)
    requires Inv(s) && t in s.threads && s.threads[t].pc.PushTail? && s.tail == s.threads[t].pc.seen
    ensures s.threads[t].pc.fate.Won? ==> forall s' :: Passed(s, s') ==> LastIs(s', t, s.threads[t].pc.v)
  {
    assert PcOk(s, t);
  }

  // The step from s to s' decides a pull of t.
  predicate Decides(s: State, s': State, t: Tid, res: Option<Value>) {
    match res
    case None => t in s.threads && s.threads[t].pc.PullCheck? && Contents(s) == []
    case Some(v) => s'.deq == s.deq + [Event(t, v)] && Contents(s) == [v] + Contents(s')
  }

  // A pull takes the first value off, or nothing exactly if there is none.
  predicate TakesOff(before: seq<Value>, after: seq<Value>, res: Option<Value>) {
    if before == [] then res.None? && after == [] else res == Some(before[0]) && after == before[1..]
  }

  // Thread th after a pull.
  function Pulled(th: Thread, res: Option<Value>): Thread {
    if res.Some? then th.(pulled := th.pulled + [res.value]) else th.(empties := th.empties + 1)
  }

  lemma OneLess(s: State, s': State, e: Event)
    requires Logged(s) && Logged(s') && s'.enq == s.enq && s'.deq == s.deq + [e]
    ensures Contents(s) == [e.v] + Contents(s')
  {
    ContentsAre(s);
    ContentsAre(s');
    hide Contents, Logged;
    var was, now := Contents(s), Contents(s');
    assert was[0] == s.enq[s.h + 0].v == s'.deq[s.h].v;
    forall i | 0 <= i < |now| ensures was[i + 1] == now[i] {
      assert was[i + 1] == s.enq[s.h + (i + 1)].v;
    }
    assert was == [was[0]] + was[1..];
  }

  // The value that a pull has claimed and not yet taken does not change.
  lemma ClaimStays(s: State, s': State, t: Tid)
    requires Logged(s) && Logged(s') && t in s.threads && t in s'.threads && s'.threads[t] == s.threads[t]
    requires s.deq <= s'.deq && PendingPull(s, t) != []
    ensures PendingPull(s', t) == PendingPull(s, t)
  {
    assert ThreadLogOk(s, t) && ThreadLogOk(s', t);
    OfPrefix(s.deq, s'.deq, t);
    var n, p, p' := |s.threads[t].pulled|, PendingPull(s, t), PendingPull(s', t);
    assert |p| == 1 && |p'| <= 1 && p <= p' by {
      assert Of(s.deq, t)[n..] == p && Of(s'.deq, t)[n..] == p';
    }
  }

  lemma TakesFirst(s: State, t: Tid, seen: Ref)
    requires Inv(s) && StandsAt(s, t, PullTake(seen))
    ensures Has(s, seen.ptr) && s.nodes[seen.ptr].data.Some? && PendingPull(s, t) == [s.nodes[seen.ptr].data.value]
  {
    TakeKeeps(s, t, seen);
    hide Inv;
    var node := s.nodes[seen.ptr];
    assert node.first.Some? && node.data == Some(node.first.value.v);
  }

  lemma SameQueue(s: State, s': State)
    requires Logged(s) && Logged(s') && s'.enq == s.enq && s'.deq == s.deq
    ensures Contents(s') == Contents(s)
  {
    ContentsAre(s);
    ContentsAre(s');
    hide Contents;
    assert forall i :: 0 <= i < |Contents(s)| ==> Contents(s')[i] == Contents(s)[i];
  }
}
