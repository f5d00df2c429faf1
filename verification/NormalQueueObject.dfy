/**
 The two-lock queue as an object: push, pull, try_push, try_pull and close in the
 form the source gives them, with a burst of other threads' steps before every
 access to a shared field. When the bursts are used up, a thread that waits for a
 mutex lets its holder go on, and a pull that sleeps lets an operation that will
 notify go on; if there is none, it sleeps for ever.
 past holds every state so far; the ghost results look and at are places in it.
 */
module NormalQueueObject {
  import opened Prelude
  import opened NormalQueue
  import opened NormalQueueRuns
  import opened NormalQueueWakes

  class QueueObject {
    // the fields of the queue and its nodes
    var head: Addr
    var tail: Addr
    var heap: map<Addr, Node>
    var headLock: Option<Tid>
    var tailLock: Option<Tid>
    var closed: bool
    // where each thread stands, and the history variables
    var threads: map<Tid, Thread>
    var line: seq<Addr>
    var front: nat
    var pushed: seq<Event>
    var pulled: seq<Event>
    // what the other threads will still do
    var env: seq<seq<Action>>
    // history: the threads, the first node, and every state so far, the present one last
    ghost const tids: set<Tid>
    ghost const first: Addr
    ghost var past: seq<State>

    function View(): State
      reads this
    {
      State(head, tail, heap, headLock, tailLock, closed, threads, line, front, pushed, pulled)
    }

    ghost predicate Valid()
      reads this
    {
      && Inv(View()) && Logged(View())
      && first != NULL && IsRun(past, tids, first) && past != [] && past[|past| - 1] == View()
    }

    // Thread t is where pc says and nothing has been added to its results.
    predicate Stands(t: Tid, th: Thread, pc: Pc)
      reads this
    {
      t in threads && threads[t] == th.(pc := pc)
    }

    constructor (tids: set<Tid>, first: Addr, env: seq<seq<Action>>)
      requires first != NULL
      ensures Valid() && View() == Init(tids, first) && this.env == env && this.tids == tids && this.first == first
    {
      var s := Init(tids, first);
      head, tail, heap, headLock, tailLock, closed := s.head, s.tail, s.heap, s.headLock, s.tailLock, s.closed;
      threads, line, front, pushed, pulled := s.threads, s.line, s.front, s.pushed, s.pulled;
      this.env := env;
      this.tids, this.first, past := tids, first, [s];
      new;
      InitOk(tids, first);
    }

    // The step a has just led from the last recorded state to the present one.
    ghost method Record(a: Action)
      requires IsRun(past, tids, first) && past != [] && Step(past[|past| - 1], a) == Ok(View())
      modifies this`past
      ensures past == old(past) + [View()] && IsRun(past, tids, first)
    {
      hide Step, Init;
      assert StepTo(past[|past| - 1], View());
      ghost var was := past;
      past := past + [View()];
      forall i | 0 <= i < |past| - 1 ensures StepAt(past, i) {
        if i < |was| - 1 { assert StepAt(was, i); }
      }
    }

    // The step a of some thread.
    method Become(a: Action)
      requires Valid() && Step(View(), a).Ok? && Inv(Step(View(), a).state) && Logged(Step(View(), a).state)
      modifies this
      ensures Valid() && old(past) <= past && Step(old(View()), a) == Ok(View()) && env == old(env)
    {
      hide Inv, Logged, Step, IsRun;
      var s := Step(View(), a).state;
      head, tail, heap, headLock, tailLock, closed := s.head, s.tail, s.heap, s.headLock, s.tailLock, s.closed;
      threads, line, front, pushed, pulled := s.threads, s.line, s.front, s.pushed, s.pulled;
      Record(a);
    }

    method OtherStep(t: Tid, a: Action)
      requires Valid() && t in threads && a.t != t
      modifies this
      ensures Valid() && old(past) <= past && t in threads && env == old(env)
      ensures threads[t] == old(threads[t]) || (old(threads[t]).pc.PullAsleep? && threads[t].pc == PullLock(true))
      ensures Stands(t, old(threads[t]), threads[t].pc)
      ensures (AtHead(threads[t].pc) ==> pulled == old(pulled))
      ensures Step(old(View()), a) == Ok(View())
    {
      hide IsRun, Inv, Logged, Step;
      StepKeeps(View(), a);
      StepLog(View(), a);
      OthersStep(View(), a, t);
      Become(a);
    }

    // The other threads run for one burst; thread t stays where it is, unless it sleeps and is woken.
    method Interfere(t: Tid)
      requires Valid() && t in threads
      modifies this
      ensures Valid() && old(past) <= past && t in threads
      ensures threads[t] == old(threads[t]) || (old(threads[t]).pc.PullAsleep? && threads[t].pc == PullLock(true))
      ensures Stands(t, old(threads[t]), threads[t].pc)
      ensures (AtHead(threads[t].pc) ==> pulled == old(pulled))
      ensures if old(env) == [] then env == [] && View() == old(View()) else |env| < |old(env)|
    {
      hide IsRun, Inv, Logged;
      if env != [] {
        var burst := env[0];
        env := env[1..];
        for i := 0 to |burst|
          invariant Valid() && old(past) <= past
          invariant t in threads && env == old(env)[1..] && Stands(t, old(threads[t]), threads[t].pc)
          invariant threads[t] == old(threads[t]) || (old(threads[t]).pc.PullAsleep? && threads[t].pc == PullLock(true))
          invariant (AtHead(threads[t].pc) ==> pulled == old(pulled))
        {
          if burst[i].t != t { OtherStep(t, burst[i]); }
        }
      }
    }

    // The holder of the tail mutex takes its next step.
    method TailGoesOn(t: Tid)
      requires Valid() && t in threads && !AtTail(threads[t].pc) && !threads[t].pc.PullAsleep? && tailLock.Some?
      modifies this
      ensures Valid() && old(past) <= past && t in threads && threads[t] == old(threads[t]) && env == old(env)
      ensures (AtHead(threads[t].pc) ==> pulled == old(pulled))
      ensures TailRank(View()) < old(TailRank(View())) && HeadRank(View()) == old(HeadRank(View()))
      ensures |Notifiers(View())| <= old(|Notifiers(View())|)
    {
      var u := tailLock.value;
      TailHolderStep(View(), u);
      FewerNotifiers(View(), Go(u, NULL));
      hide IsRun, Inv, Logged, Step, TailRank, HeadRank;
      OtherStep(t, Go(u, NULL));
    }

    // The holder of the head mutex takes its next step, or the holder of the tail mutex if that is
    // what it waits for.
    method HeadGoesOn(t: Tid)
      requires Valid() && t in threads && headLock.Some?
      requires !AtTail(threads[t].pc) && !AtHead(threads[t].pc) && !threads[t].pc.PullAsleep?
      modifies this
      ensures Valid() && old(past) <= past && t in threads && threads[t] == old(threads[t]) && env == old(env)
      ensures || HeadRank(View()) < old(HeadRank(View()))
              || (HeadRank(View()) == old(HeadRank(View())) && TailRank(View()) < old(TailRank(View())))
      ensures |Notifiers(View())| <= old(|Notifiers(View())|)
    {
      var u := headLock.value;
      HeadHolderStep(View(), u);
      FewerNotifiers(View(), Go(u, NULL));
      hide IsRun, Inv, Logged, Step, TailRank, HeadRank, Notifiers;
      if threads[u].pc.PullSnap? && tailLock.Some? {
        TailGoesOn(t);
      } else {
        OtherStep(t, Go(u, NULL));
      }
    }

    // ----- Single accesses on the way of a push -----

    // throw_if_closed: the value of closed_, and the end of the push if it is set
    method CheckClosed(t: Tid, v: Value) returns (isClosed: bool)
      requires Valid() && StandsAt(View(), t, PushCheck(v))
      modifies this
      ensures Valid() && past == old(past) + [View()] && env == old(env) && isClosed == old(closed)
      ensures View() == if isClosed then Refuse(old(View()), t) else To(old(View()), t, PushAlloc(v))
      ensures t in threads
      ensures var th := old(threads[t]);
              threads[t] == if isClosed then th.(pc := Idle, refused := th.refused + 1) else th.(pc := PushAlloc(v))
      ensures Untouched(old(View()), View())
    {
      hide IsRun, Inv, Logged;
      StepKeeps(View(), Go(t, NULL));
      StepLog(View(), Go(t, NULL));
      isClosed := closed;
      var th := threads[t];
      threads := threads[t := if isClosed then th.(pc := Idle, refused := th.refused + 1) else th.(pc := PushAlloc(v))];
      Record(Go(t, NULL));
    }

    // new node, at an address that is free now
    method NewNode(t: Tid, v: Value) returns (n: Addr)
      requires Valid() && StandsAt(View(), t, PushAlloc(v))
      modifies this
      ensures Valid() && past == old(past) + [View()] && env == old(env) && n != NULL && n !in old(heap)
      ensures View() == To(Alloc(old(View()), t, n), t, PushLock(v, n))
      ensures Stands(t, old(threads[t]), PushLock(v, n))
      ensures Untouched(old(View()), View())
    {
      n := FreeAddress();
      hide IsRun, Inv, Logged;
      StepKeeps(View(), Go(t, n));
      StepLog(View(), Go(t, n));
      heap := heap[n := Node(None, NULL, -1, t)];
      threads := threads[t := threads[t].(pc := PushLock(v, n))];
      Record(Go(t, n));
    }

    method FreeAddress() returns (n: Addr)
      ensures n != NULL && n !in heap
    {
      n := 1;
      var rest := heap.Keys;
      while n in heap
        invariant n != NULL && forall m :: m in heap && (m >= n || m == NULL) ==> m in rest
        decreases |rest|
      {
        rest := rest - {n};
        n := n + 1;
      }
    }

    // lock_guard on tail_mutex: one attempt
    method LockTail(t: Tid, v: Value, n: Addr) returns (ok: bool)
      requires Valid() && StandsAt(View(), t, PushLock(v, n))
      modifies this
      ensures Valid() && past == old(past) + [View()] && env == old(env) && ok == old(tailLock.None?)
      ensures View() == if ok then To(old(View()).(tailLock := Some(t)), t, PushData(v, n)) else old(View())
      ensures Stands(t, old(threads[t]), if ok then PushData(v, n) else PushLock(v, n))
      ensures Same(old(View()), View())
    {
      hide IsRun, Inv, Logged;
      StepKeeps(View(), Go(t, NULL));
      StepLog(View(), Go(t, NULL));
      ok := tailLock.None?;
      if ok {
        tailLock := Some(t);
        threads := threads[t := threads[t].(pc := PushData(v, n))];
      }
      Record(Go(t, NULL));
    }

    // tail->data = move(temp)
    method SetTailData(t: Tid, v: Value, n: Addr)
      requires Valid() && StandsAt(View(), t, PushData(v, n))
      modifies this
      ensures Valid() && past == old(past) + [View()] && env == old(env)
      ensures old(tail in heap) && View() == WriteData(old(View()), t, v, n)
      ensures Stands(t, old(threads[t]), PushNext(v, n))
      ensures Same(old(View()), View())
    {
      hide IsRun, Inv, Logged;
      WriteDataKeeps(View(), t, v, n);
      StepLog(View(), Go(t, NULL));
      heap := heap[tail := heap[tail].(data := Some(v))];
      threads := threads[t := threads[t].(pc := PushNext(v, n))];
      Record(Go(t, NULL));
    }

    // tail->next = move(new_next)
    method SetTailNext(t: Tid, v: Value, n: Addr)
      requires Valid() && StandsAt(View(), t, PushNext(v, n))
      modifies this
      ensures Valid() && past == old(past) + [View()] && env == old(env)
      ensures old(tail in heap) && View() == WriteNext(old(View()), t, v, n)
      ensures Stands(t, old(threads[t]), PushMove(v, n))
      ensures Same(old(View()), View())
    {
      hide IsRun, Inv, Logged;
      WriteNextKeeps(View(), t, v, n);
      StepLog(View(), Go(t, NULL));
      heap := heap[tail := heap[tail].(next := n)];
      threads := threads[t := threads[t].(pc := PushMove(v, n))];
      Record(Go(t, NULL));
    }

    // tail = new_tail
    method SetTail(t: Tid, v: Value, n: Addr)
      requires Valid() && StandsAt(View(), t, PushMove(v, n))
      modifies this
      ensures Valid() && past == old(past) + [View()] && env == old(env)
      ensures old(n in heap) && View() == MoveTail(old(View()), t, v, n)
      ensures Stands(t, old(threads[t]), PushUnlock(v)) && pulled == old(pulled)
    {
      hide IsRun, Inv, Logged, Step;
      MoveTailOk(View(), t, v, n);
      tail := n;
      heap := heap[n := heap[n].(ticket := |line|)];
      line := line + [n];
      pushed := pushed + [Event(t, v)];
      threads := threads[t := threads[t].(pc := PushUnlock(v))];
      Record(Go(t, NULL));
    }

    // the end of the scope of the lock_guard
    method ReleaseTail(t: Tid, v: Value)
      requires Valid() && StandsAt(View(), t, PushUnlock(v))
      modifies this
      ensures Valid() && past == old(past) + [View()] && env == old(env) && View() == UnlockTail(old(View()), t, v)
      ensures Stands(t, old(threads[t]), PushNotify(v))
      ensures Same(old(View()), View())
    {
      hide IsRun, Inv, Logged;
      StepKeeps(View(), Go(t, NULL));
      StepLog(View(), Go(t, NULL));
      tailLock := None;
      threads := threads[t := threads[t].(pc := PushNotify(v))];
      Record(Go(t, NULL));
    }

    // condi.notify_one(): wakes a sleeper, if there is one, and ends the push
    method NotifyElem(t: Tid, v: Value) returns (u: Tid)
      requires Valid() && StandsAt(View(), t, PushNotify(v))
      modifies this
      ensures Valid() && past == old(past) + [View()] && env == old(env) && View() == NotifyOne(old(View()), t, v, u)
      ensures old(SomeAsleep(View())) ==> old(StandsAt(View(), u, PullAsleep)) && StandsAt(View(), u, PullLock(true))
      ensures Stands(t, old(threads[t]).(sent := old(threads[t]).sent + [v]), Idle)
      ensures Same(old(View()), View())
    {
      hide IsRun, Inv, Logged;
      var wakes;
      wakes, u := FindSleeper();
      NotifyOk(View(), t, v, u);
      NotifySent(View(), t, v, u);
      hide SomeAsleep, NotifyOne;
      if wakes { threads := threads[u := threads[u].(pc := PullLock(true))]; }
      threads := threads[t := threads[t].(pc := Idle, sent := threads[t].sent + [v])];
      Record(Go(t, u));
    }

    method FindSleeper() returns (wakes: bool, u: Tid)
      ensures wakes == SomeAsleep(View()) && (wakes <==> StandsAt(View(), u, PullAsleep))
    {
      u := 0;
      wakes := SomeAsleep(View());
      if wakes { u :| u in threads && threads[u].pc.PullAsleep?; }
    }

    // ----- push and try_push -----

    // push: refused exactly if the queue is closed when it looks, at the recorded state look; else the
    // step from the recorded state at puts the value behind the others.
    method Push(t: Tid, v: Value) returns (refused: bool, ghost look: nat, ghost at: nat)
      requires Valid() && StandsAt(View(), t, Idle)
      modifies this
      ensures Valid() && old(past) <= past && t in threads
      ensures |old(past)| <= look < |past| && StandsAt(past[look], t, PushCheck(v)) && refused == past[look].closed
      ensures (old(closed) ==> refused) && (old(env) == [] ==> refused == old(closed))
      ensures !refused ==> look < at < |past| - 1 && Appends(past[at], past[at + 1], t, v) && EndsWithNotify(t, v)
      ensures !refused && old(env) == [] && old(tailLock).None? ==> Contents(View()) == old(Contents(View())) + [v]
      ensures var th := old(threads[t]);
              threads[t] == if refused then th.(refused := th.refused + 1) else th.(sent := th.sent + [v])
    {
      hide IsRun, Inv, Logged, Contents, Appends, EndsWithNotify, Refuse, To;
      EnterPush(t, v);
      look := |past| - 1;
      at := look;
      RunLater(past, tids, first, |old(past)| - 1, look);
      refused := CheckClosed(t, v);
      SameContents(past[look], View());
      if !refused { at := Append(t, v); }
    }

    method EnterPush(t: Tid, v: Value)
      requires Valid() && StandsAt(View(), t, Idle)
      modifies this
      ensures Valid() && old(past) <= past && |old(past)| < |past| && past[|old(past)| - 1] == old(View())
      ensures Stands(t, old(threads[t]), PushCheck(v))
      ensures old(env) == [] ==> env == [] && Contents(View()) == old(Contents(View())) && closed == old(closed)
      ensures old(env) == [] ==> tailLock == old(tailLock)
    {
      hide IsRun, Inv, Logged, Contents;
      ghost var start := View();
      EnterOk(View(), t, PushCheck(v));
      threads := threads[t := threads[t].(pc := PushCheck(v))];
      Record(NormalQueue.Push(t, v));
      SameContents(start, View());
      assert past[|old(past)| - 1] == start;
      Interfere(t);
    }

    // try_push: never refused.
    method TryPush(t: Tid, v: Value) returns (ghost at: nat)
      requires Valid() && StandsAt(View(), t, Idle)
      modifies this
      ensures Valid() && old(past) <= past && t in threads
      ensures |old(past)| <= at < |past| - 1 && Appends(past[at], past[at + 1], t, v) && EndsWithNotify(t, v)
      ensures old(env) == [] && old(tailLock).None? ==> Contents(View()) == old(Contents(View())) + [v]
      ensures threads[t] == old(threads[t]).(sent := old(threads[t]).sent + [v])
    {
      hide IsRun, Inv, Logged, Contents, Appends, EndsWithNotify;
      ghost var start := View();
      EnterOk(View(), t, PushAlloc(v));
      threads := threads[t := threads[t].(pc := PushAlloc(v))];
      Record(NormalQueue.TryPush(t, v));
      SameContents(start, View());
      at := Append(t, v);
    }

    // After the recorded state at, a step took v off for t.
    ghost predicate TakenAfter(at: nat, t: Tid, v: Value)
      reads this
    {
      exists i :: at < i < |past| - 1 && Takes(past[i], past[i + 1], t, v)
    }

    // The last step was the push's notify: it woke a sleeper, if there was one.
    ghost predicate EndsWithNotify(t: Tid, v: Value)
      reads this
    {
      && |past| >= 2 && StandsAt(past[|past| - 2], t, PushNotify(v))
      && SomeoneWoke(past[|past| - 2], past[|past| - 1], t, v)
    }

    // The part both have in common: under the tail mutex, from one moment to the next, the contents
    // grow by the value at the end; then a sleeper is notified.
    method Append(t: Tid, v: Value) returns (ghost at: nat)
      requires Valid() && StandsAt(View(), t, PushAlloc(v))
      modifies this
      ensures Valid() && old(past) <= past && t in threads
      ensures |old(past)| <= at < |past| - 1 && Appends(past[at], past[at + 1], t, v) && EndsWithNotify(t, v)
      ensures threads[t] == old(threads[t]).(pc := Idle, sent := old(threads[t]).sent + [v])
      ensures old(env) == [] && old(tailLock).None? ==> Contents(View()) == old(Contents(View())) + [v]
    {
      hide IsRun, Inv, Logged, Contents, Appends, EndsWithNotify;
      var n := LinkNode(t, v);
      at := PassTail(t, v, n);
      ReleaseAndNotify(t, v);
    }

    method PassTail(t: Tid, v: Value, n: Addr) returns (ghost at: nat)
      requires Valid() && StandsAt(View(), t, PushMove(v, n))
      modifies this
      ensures Valid() && old(past) <= past && |old(past)| - 1 == at == |past| - 2 && env == old(env)
      ensures Appends(past[at], past[at + 1], t, v) && Stands(t, old(threads[t]), PushUnlock(v))
      ensures Contents(View()) == old(Contents(View())) + [v]
    {
      hide IsRun, Inv, Logged, Contents, MoveTail;
      at := |past| - 1;
      ghost var before := View();
      MoveTailAppends(before, t, v, n);
      SetTail(t, v, n);
      assert past[at] == before && past[at + 1] == View();
    }

    // The node is made, and linked behind the tail under the mutex.
    method LinkNode(t: Tid, v: Value) returns (n: Addr)
      requires Valid() && StandsAt(View(), t, PushAlloc(v))
      modifies this
      ensures Valid() && old(past) <= past && |old(past)| < |past|
      ensures Stands(t, old(threads[t]), PushMove(v, n))
      ensures old(env) == [] && old(tailLock).None? ==> env == [] && Contents(View()) == old(Contents(View()))
    {
      hide IsRun, Inv, Logged, Contents;
      ghost var start := View();
      n := MakeNode(t, v);
      HoldTail(t, v, n);
      WriteBoth(t, v, n);
      if old(env) == [] && old(tailLock).None? { SameContents(start, View()); }
    }

    method WriteBoth(t: Tid, v: Value, n: Addr)
      requires Valid() && StandsAt(View(), t, PushData(v, n))
      modifies this
      ensures Valid() && old(past) <= past && Stands(t, old(threads[t]), PushMove(v, n))
      ensures old(env) == [] ==> env == [] && Same(old(View()), View())
    {
      hide IsRun, Inv, Logged, WriteData, WriteNext;
      Interfere(t);
      SetTailData(t, v, n);
      Interfere(t);
      SetTailNext(t, v, n);
      Interfere(t);
    }

    method MakeNode(t: Tid, v: Value) returns (n: Addr)
      requires Valid() && StandsAt(View(), t, PushAlloc(v))
      modifies this
      ensures Valid() && old(past) <= past && |old(past)| < |past| && Stands(t, old(threads[t]), PushLock(v, n))
      ensures old(env) == [] ==> env == [] && Untouched(old(View()), View())
    {
      hide IsRun, Inv, Logged, To, Alloc;
      Interfere(t);
      n := NewNode(t, v);
      Interfere(t);
    }

    method HoldTail(t: Tid, v: Value, n: Addr)
      requires Valid() && StandsAt(View(), t, PushLock(v, n))
      modifies this
      ensures Valid() && old(past) <= past && Stands(t, old(threads[t]), PushData(v, n))
      ensures old(env) == [] && old(tailLock).None? ==> env == [] && Same(old(View()), View())
    {
      hide IsRun, Inv, Logged, TailRank, HeadRank, To;
      var ok := LockTail(t, v, n);
      while !ok
        invariant Valid() && old(past) <= past && (!ok ==> tailLock.Some?)
        invariant Stands(t, old(threads[t]), if ok then PushData(v, n) else PushLock(v, n))
        invariant old(env) == [] && old(tailLock).None? ==> ok && env == [] && Same(old(View()), View())
        decreases !ok, |env|, TailRank(View())
      {
        if env != [] { Interfere(t); } else { TailGoesOn(t); }
        ok := LockTail(t, v, n);
      }
    }

    method ReleaseAndNotify(t: Tid, v: Value)
      requires Valid() && StandsAt(View(), t, PushUnlock(v))
      modifies this
      ensures Valid() && old(past) <= past && EndsWithNotify(t, v)
      ensures Stands(t, old(threads[t]).(sent := old(threads[t]).sent + [v]), Idle)
      ensures old(env) == [] ==> Contents(View()) == old(Contents(View()))
    {
      hide IsRun, Inv, Logged, Contents, NotifyOne, SomeAsleep;
      ghost var start := View();
      Interfere(t);
      ReleaseTail(t, v);
      Interfere(t);
      var u := NotifyElem(t, v);
      if old(env) == [] { SameContents(start, View()); }
      assert Woke(past[|past| - 2], past[|past| - 1], t, v, u);
    }

    // close(): the queue is closed at once, and nobody who sleeps at the moment of the notify sleeps on.
    method CloseQueue(t: Tid)
      requires Valid() && StandsAt(View(), t, Idle)
      modifies this
      ensures Valid() && old(past) <= past && t in threads && threads[t] == old(threads[t])
      ensures |past| > |old(past)| && past[|old(past)|].closed && closed && !SomeAsleep(View())
    {
      hide IsRun, Inv, Logged, SomeAsleep, NotifyAll;
      BeginClose(t);
      Interfere(t);
      RunLater(past, tids, first, |old(past)|, |past| - 1);
      NotifyAllElems(t);
    }

    // closed_.store(true)
    method BeginClose(t: Tid)
      requires Valid() && StandsAt(View(), t, Idle)
      modifies this
      ensures Valid() && past == old(past) + [View()] && env == old(env)
      ensures closed && Stands(t, old(threads[t]), CloseNotify)
    {
      hide IsRun, Inv, Logged;
      StepKeeps(View(), Close(t));
      StepLog(View(), Close(t));
      closed := true;
      threads := threads[t := threads[t].(pc := CloseNotify)];
      Record(Close(t));
    }

    // condi.notify_all(), which ends the close
    method NotifyAllElems(t: Tid)
      requires Valid() && StandsAt(View(), t, CloseNotify)
      modifies this
      ensures Valid() && past == old(past) + [View()] && env == old(env)
      ensures View() == NotifyAll(old(View()), t) && !SomeAsleep(View())
      ensures Stands(t, old(threads[t]), Idle)
      ensures closed == old(closed)
    {
      hide IsRun, Inv, Logged;
      StepKeeps(View(), Go(t, NULL));
      StepLog(View(), Go(t, NULL));
      threads := map u | u in threads :: Woken(threads[u]);
      threads := threads[t := threads[t].(pc := Idle)];
      Record(Go(t, NULL));
    }

    // ----- Single accesses on the way of a pull -----

    // lock_guard or unique_lock on head_mutex: one attempt
    method LockHead(t: Tid, waits: bool) returns (ok: bool)
      requires Valid() && StandsAt(View(), t, PullLock(waits))
      modifies this
      ensures Valid() && past == old(past) + [View()] && env == old(env) && ok == old(headLock.None?)
      ensures View() == if ok then To(old(View()).(headLock := Some(t)), t, PullSnap(waits)) else old(View())
      ensures Stands(t, old(threads[t]), if ok then PullSnap(waits) else PullLock(waits))
      ensures |Notifiers(View())| <= old(|Notifiers(View())|)
      ensures Untouched(old(View()), View())
    {
      hide IsRun, Inv, Logged, Notifiers;
      ghost var was := View();
      StepKeeps(View(), Go(t, NULL));
      StepLog(View(), Go(t, NULL));
      ok := headLock.None?;
      if ok {
        headLock := Some(t);
        threads := threads[t := threads[t].(pc := PullSnap(waits))];
      }
      QuietStep(was, View(), t);
      Record(Go(t, NULL));
    }

    // get_tail(): one attempt at its mutex, and the tail if it was free
    method GetTail(t: Tid, waits: bool) returns (ok: bool, snap: Addr)
      requires Valid() && StandsAt(View(), t, PullSnap(waits))
      modifies this
      ensures Valid() && past == old(past) + [View()] && env == old(env)
      ensures ok == old(tailLock.None?) && snap == old(tail) && t in threads
      ensures View() == if ok then To(old(View()), t, PullCompare(waits, snap, |pushed| == |pulled|)) else old(View())
      ensures |past| >= 2 && past[|past| - 2] == old(View())
      ensures |Notifiers(View())| <= old(|Notifiers(View())|)
      ensures Untouched(old(View()), View())
      ensures Stands(t, old(threads[t]), if ok then PullCompare(waits, snap, |pushed| == |pulled|) else PullSnap(waits))
    {
      hide IsRun, Inv, Logged, Notifiers;
      ghost var was := View();
      StepKeeps(View(), Go(t, NULL));
      StepLog(View(), Go(t, NULL));
      snap := tail;
      ok := tailLock.None?;
      if ok { threads := threads[t := threads[t].(pc := PullCompare(waits, snap, |pushed| == |pulled|))]; }
      QuietStep(was, View(), t);
      Record(Go(t, NULL));
    }

    // head.get() == get_tail()
    method HeadIs(t: Tid, waits: bool, snap: Addr, ghost wasEmpty: bool) returns (isEmpty: bool)
      requires Valid() && StandsAt(View(), t, PullCompare(waits, snap, wasEmpty))
      modifies this
      ensures Valid() && past == old(past) + [View()] && env == old(env) && isEmpty == (old(head) == snap) == wasEmpty
      ensures View() == Compare(old(View()), t, waits, snap)
      ensures pulled == old(pulled) && pushed == old(pushed) && closed == old(closed)
      ensures Stands(t, old(threads[t]), if isEmpty then (if waits then PullClosed else PullUnlock(Nothing))
                                         else (if waits then PullRecheck else PopNext))
      ensures |Notifiers(View())| <= old(|Notifiers(View())|)
      ensures Untouched(old(View()), View())
    {
      hide IsRun, Inv, Logged, Advance, Notifiers;
      ghost var was := View();
      CompareOk(View(), t, waits, snap, wasEmpty);
      isEmpty := head == snap;
      var pc := if isEmpty then (if waits then PullClosed else PullUnlock(Nothing))
                else (if waits then PullRecheck else PopNext);
      threads := threads[t := threads[t].(pc := pc)];
      QuietStep(was, View(), t);
      Record(Go(t, NULL));
    }

    // closed_.load() in the wait condition
    method WaitMore(t: Tid) returns (isClosed: bool)
      requires Valid() && StandsAt(View(), t, PullClosed)
      modifies this
      ensures Valid() && past == old(past) + [View()] && env == old(env) && isClosed == old(closed)
      ensures View() == To(old(View()), t, if isClosed then PullRecheck else PullSleep)
      ensures Stands(t, old(threads[t]), if isClosed then PullRecheck else PullSleep)
      ensures |Notifiers(View())| <= old(|Notifiers(View())|)
      ensures Untouched(old(View()), View())
    {
      hide IsRun, Inv, Logged, Notifiers;
      ghost var was := View();
      StepKeeps(View(), Go(t, NULL));
      StepLog(View(), Go(t, NULL));
      isClosed := closed;
      threads := threads[t := threads[t].(pc := if isClosed then PullRecheck else PullSleep)];
      QuietStep(was, View(), t);
      Record(Go(t, NULL));
    }

    // the wait gives the mutex up and sleeps
    method FallAsleep(t: Tid)
      requires Valid() && StandsAt(View(), t, PullSleep)
      modifies this
      ensures Valid() && past == old(past) + [View()] && env == old(env) && View() == Sleep(old(View()), t)
      ensures Stands(t, old(threads[t]), PullAsleep)
      ensures |Notifiers(View())| <= old(|Notifiers(View())|)
      ensures Untouched(old(View()), View())
    {
      hide IsRun, Inv, Logged, Notifiers;
      ghost var was := View();
      StepKeeps(View(), Go(t, NULL));
      StepLog(View(), Go(t, NULL));
      headLock := None;
      threads := threads[t := threads[t].(pc := PullAsleep)];
      QuietStep(was, View(), t);
      Record(Go(t, NULL));
    }

    // closed_.load() after the wait
    method RecheckClosed(t: Tid) returns (isClosed: bool)
      requires Valid() && StandsAt(View(), t, PullRecheck)
      modifies this
      ensures Valid() && past == old(past) + [View()] && env == old(env) && isClosed == old(closed)
      ensures View() == To(old(View()), t, if isClosed then PullUnlock(Closed) else PopNext)
      ensures pulled == old(pulled) && pushed == old(pushed) && closed == old(closed)
      ensures Stands(t, old(threads[t]), if isClosed then PullUnlock(Closed) else PopNext)
      ensures Untouched(old(View()), View())
    {
      hide IsRun, Inv, Logged;
      StepKeeps(View(), Go(t, NULL));
      StepLog(View(), Go(t, NULL));
      isClosed := closed;
      threads := threads[t := threads[t].(pc := if isClosed then PullUnlock(Closed) else PopNext)];
      Record(Go(t, NULL));
    }

    // auto temp = move(head->next)
    method TakeNext(t: Tid) returns (rest: Addr)
      requires Valid() && StandsAt(View(), t, PopNext)
      modifies this
      ensures Valid() && past == old(past) + [View()] && env == old(env)
      ensures old(head in heap) && rest == old(heap[head].next)
      ensures View() == MoveNext(old(View()), t)
      ensures pulled == old(pulled) && Stands(t, old(threads[t]), PopData(rest))
      ensures Untouched(old(View()), View())
    {
      hide IsRun, Inv, Logged;
      MoveNextKeeps(View(), t);
      StepLog(View(), Go(t, NULL));
      rest := heap[head].next;
      heap := heap[head := heap[head].(next := NULL)];
      threads := threads[t := threads[t].(pc := PopData(rest))];
      Record(Go(t, NULL));
    }

    // auto data = move(head->data)
    method TakeData(t: Tid, rest: Addr) returns (v: Value)
      requires Valid() && StandsAt(View(), t, PopData(rest))
      modifies this
      ensures Valid() && past == old(past) + [View()] && env == old(env)
      ensures old(head in heap && heap[head].data == Some(v))
      ensures View() == MoveData(old(View()), t, rest)
      ensures pulled == old(pulled) && Stands(t, old(threads[t]), PopHead(rest, v))
      ensures Untouched(old(View()), View())
    {
      hide IsRun, Inv, Logged;
      MoveDataKeeps(View(), t, rest);
      StepLog(View(), Go(t, NULL));
      v := heap[head].data.value;
      heap := heap[head := heap[head].(data := None)];
      threads := threads[t := threads[t].(pc := PopHead(rest, v))];
      Record(Go(t, NULL));
    }

    // head = move(temp)
    method SetHead(t: Tid, rest: Addr, v: Value)
      requires Valid() && StandsAt(View(), t, PopHead(rest, v))
      modifies this
      ensures Valid() && past == old(past) + [View()] && env == old(env)
      ensures old(head in heap) && View() == MoveHead(old(View()), t, rest, v)
      ensures Stands(t, old(threads[t]), PullUnlock(Got(v)))
    {
      hide IsRun, Inv, Logged, Step;
      MoveHeadOk(View(), t, rest, v);
      heap := heap - {head};
      head := rest;
      front := front + 1;
      pulled := pulled + [Event(t, v)];
      threads := threads[t := threads[t].(pc := PullUnlock(Got(v)))];
      Record(Go(t, NULL));
    }

    // the end of the scope of the lock on head_mutex
    method ReleaseHead(t: Tid, answer: Answer)
      requires Valid() && StandsAt(View(), t, PullUnlock(answer))
      modifies this
      ensures Valid() && past == old(past) + [View()] && env == old(env) && View() == UnlockHead(old(View()), t, answer)
      ensures closed == old(closed)
      ensures Stands(t, Answered(old(threads[t]), answer), Idle)
      ensures Untouched(old(View()), View())
    {
      hide IsRun, Inv, Logged;
      StepKeeps(View(), Go(t, NULL));
      StepLog(View(), Go(t, NULL));
      headLock := None;
      var th := threads[t];
      match answer {
        case Got(v) => threads := threads[t := th.(pc := Idle, got := th.got + [v])];
        case Nothing => threads := threads[t := th.(pc := Idle, nothing := th.nothing + 1)];
        case Closed => threads := threads[t := th.(pc := Idle, closed := th.closed + 1)];
      }
      Record(Go(t, NULL));
    }

    // ----- pull and try_pull -----

    // Take the head mutex.
    method WaitForHead(t: Tid, waits: bool)
      requires Valid() && StandsAt(View(), t, PullLock(waits))
      modifies this
      ensures Valid() && old(past) <= past && Stands(t, old(threads[t]), PullSnap(waits))
      ensures |env| <= |old(env)| && (old(env) == [] ==> |Notifiers(View())| <= old(|Notifiers(View())|))
      ensures old(env) == [] && old(headLock).None? ==> Contents(View()) == old(Contents(View()))
      ensures old(env) == [] && old(headLock).None? ==> env == [] && Untouched(old(View()), View())
    {
      hide IsRun, Inv, Logged, Contents, To, TailRank, HeadRank, Notifiers;
      ghost var start := View();
      var ok := LockHead(t, waits);
      while !ok
        invariant Valid() && old(past) <= past && |env| <= |old(env)| && (!ok ==> headLock.Some?)
        invariant Stands(t, old(threads[t]), if ok then PullSnap(waits) else PullLock(waits))
        invariant old(env) == [] ==> |Notifiers(View())| <= old(|Notifiers(View())|)
        invariant old(env) == [] && old(headLock).None? ==> ok && env == [] && Untouched(old(View()), View())
        decreases !ok, |env|, HeadRank(View()), TailRank(View())
      {
        if env != [] { Interfere(t); } else { HeadGoesOn(t); }
        ok := LockHead(t, waits);
      }
      if old(env) == [] && old(headLock).None? { SameContents(start, View()); }
    }

    // Compare head with a snapshot of the tail, taken at the recorded state at.
    method WaitForTail(t: Tid, waits: bool) returns (isEmpty: bool, ghost at: nat)
      requires Valid() && StandsAt(View(), t, PullSnap(waits))
      modifies this
      ensures Valid() && old(past) <= past && |env| <= |old(env)|
      ensures |old(past)| - 1 <= at < |past| - 1 && StandsAt(past[at], t, PullSnap(waits))
      ensures pulled == past[at].pulled && (isEmpty <==> Contents(past[at]) == [])
      ensures Stands(t, old(threads[t]), if isEmpty then (if waits then PullClosed else PullUnlock(Nothing))
                                         else (if waits then PullRecheck else PopNext))
      ensures env == [] || |env| < |old(env)|
      ensures old(env) == [] ==> pushed == past[at].pushed && closed == past[at].closed
      ensures old(env) == [] ==> |Notifiers(View())| <= old(|Notifiers(View())|)
      ensures old(env) == [] && old(tailLock).None? ==>
                env == [] && Untouched(old(View()), View()) && past[at] == old(View())
      ensures old(env) == [] && old(tailLock).None? ==> Contents(View()) == old(Contents(View()))
    {
      hide IsRun, Inv, Logged, Contents, Compare, Notifiers;
      ghost var start := View();
      var snap;
      snap, at := SnapTail(t, waits);
      RunOk(past, tids, first, at);
      EmptyContents(past[at]);
      Interfere(t);
      isEmpty := HeadIs(t, waits, snap, threads[t].pc.wasEmpty);
      if old(env) == [] && old(tailLock).None? { SameContents(start, View()); }
    }

    // get_tail()
    method SnapTail(t: Tid, waits: bool) returns (snap: Addr, ghost at: nat)
      requires Valid() && StandsAt(View(), t, PullSnap(waits))
      modifies this
      ensures Valid() && old(past) <= past && |env| <= |old(env)|
      ensures |old(past)| - 1 <= at == |past| - 2 && StandsAt(past[at], t, PullSnap(waits)) && Same(past[at], View())
      ensures Stands(t, old(threads[t]), PullCompare(waits, snap, |past[at].pushed| == |past[at].pulled|))
      ensures old(env) == [] ==> |Notifiers(View())| <= old(|Notifiers(View())|)
      ensures old(env) == [] && old(tailLock).None? ==>
                env == [] && Untouched(old(View()), View()) && past[at] == old(View())
    {
      hide IsRun, Inv, Logged, TailRank, HeadRank, Notifiers, To;
      var ok;
      ok, snap := GetTail(t, waits);
      at := |past| - 2;
      while !ok
        invariant Valid() && old(past) <= past && |env| <= |old(env)|
        invariant |old(past)| - 1 <= at == |past| - 2
        invariant StandsAt(past[at], t, PullSnap(waits)) && Same(past[at], View())
        invariant old(env) == [] ==> |Notifiers(View())| <= old(|Notifiers(View())|)
        invariant Stands(t, old(threads[t]), if ok then PullCompare(waits, snap, |pushed| == |pulled|)
                                             else PullSnap(waits))
        invariant !ok ==> tailLock.Some?
        invariant old(env) == [] && old(tailLock).None? ==>
                    ok && Untouched(old(View()), View()) && past[at] == old(View())
        decreases !ok, |env|, TailRank(View())
      {
        if env != [] { Interfere(t); } else { TailGoesOn(t); }
        ok, snap := GetTail(t, waits);
        at := |past| - 2;
      }
    }

    // pop, and the end of the pull. It yields the value that was the first one at its start, and the
    // step from the recorded state at takes it off.
    method Pop(t: Tid) returns (v: Value, ghost at: nat)
      requires Valid() && StandsAt(View(), t, PopNext)
      modifies this
      ensures Valid() && old(past) <= past && t in threads
      ensures old(Contents(View())) != [] && v == old(Contents(View()))[0]
      ensures |old(past)| <= at < |past| - 1 && Takes(past[at], past[at + 1], t, v)
      ensures threads[t] == old(threads[t]).(pc := Idle, got := old(threads[t]).got + [v])
      ensures old(env) == [] ==> Contents(View()) == old(Contents(View()))[1..]
    {
      hide IsRun, Inv, Logged, Contents, MoveHead, UnlockHead;
      ghost var start, i := View(), |past| - 1;
      var rest;
      rest, v := MoveOut(t);
      RunLater(past, tids, first, i, |past| - 1);
      FirstStays(start, View(), t, rest, v);
      if old(env) == [] { SameContents(start, View()); }
      at := PassAndRelease(t, rest, v);
    }

    // The head moves on, and the mutex is given back.
    method PassAndRelease(t: Tid, rest: Addr, v: Value) returns (ghost at: nat)
      requires Valid() && StandsAt(View(), t, PopHead(rest, v))
      modifies this
      ensures Valid() && old(past) <= past && |old(past)| - 1 <= at < |past| - 1
      ensures Takes(past[at], past[at + 1], t, v)
      ensures Stands(t, old(threads[t]).(got := old(threads[t]).got + [v]), Idle)
      ensures old(env) == [] ==> old(Contents(View())) == [v] + Contents(View())
    {
      hide IsRun, Inv, Logged, Contents, MoveHead, UnlockHead;
      at := PassHead(t, rest, v);
      ghost var after := View();
      Interfere(t);
      ReleaseHead(t, Got(v));
      if old(env) == [] { SameContents(after, View()); }
    }

    method PassHead(t: Tid, rest: Addr, v: Value) returns (ghost at: nat)
      requires Valid() && StandsAt(View(), t, PopHead(rest, v))
      modifies this
      ensures Valid() && old(past) <= past && |old(past)| - 1 == at == |past| - 2 && env == old(env)
      ensures Takes(past[at], past[at + 1], t, v) && Stands(t, old(threads[t]), PullUnlock(Got(v)))
      ensures old(Contents(View())) == [v] + Contents(View())
    {
      hide IsRun, Inv, Logged, Contents, MoveHead;
      at := |past| - 1;
      ghost var before := View();
      MoveHeadTakes(before, t, rest, v);
      SetHead(t, rest, v);
      assert past[at] == before && past[at + 1] == View();
    }

    // The link and the data are moved out of the head node.
    method MoveOut(t: Tid) returns (rest: Addr, v: Value)
      requires Valid() && StandsAt(View(), t, PopNext)
      modifies this
      ensures Valid() && old(past) <= past && |old(past)| < |past| && pulled == old(pulled)
      ensures Stands(t, old(threads[t]), PopHead(rest, v))
      ensures old(env) == [] ==> env == [] && pushed == old(pushed) && front == old(front)
    {
      hide IsRun, Inv, Logged, MoveNext, MoveData;
      Interfere(t);
      rest := TakeNext(t);
      Interfere(t);
      v := TakeData(t, rest);
      Interfere(t);
    }

    // try_pull: takes the first value, or nothing exactly if the queue is empty, at the snapshot, which
    // is taken at the recorded state at. Alone it does that to the queue as it was at the call.
    method TryPull(t: Tid) returns (res: Option<Value>, ghost at: nat)
      requires Valid() && StandsAt(View(), t, Idle)
      modifies this
      ensures Valid() && old(past) <= past && t in threads
      ensures |old(past)| <= at < |past| && StandsAt(past[at], t, PullSnap(false))
      ensures res == First(past[at])
      ensures res.Some? ==> TakenAfter(at, t, res.value)
      ensures var th := old(threads[t]);
              threads[t] == if res.Some? then th.(got := th.got + [res.value]) else th.(nothing := th.nothing + 1)
      ensures old(AloneAt(View(), env)) ==>
                TakesOff(old(Contents(View())), Contents(View()), res)
    {
      hide IsRun, Inv, Logged, Contents, TakenAfter, Notifiers, Untouched;
      EnterTryPull(t);
      var isEmpty;
      isEmpty, at := WaitForTail(t, false);
      res := AnswerTryPull(t, isEmpty, at);
    }

    // From the call to the test, with the head mutex.
    method EnterTryPull(t: Tid)
      requires Valid() && StandsAt(View(), t, Idle)
      modifies this
      ensures Valid() && old(past) <= past && |old(past)| < |past| && Stands(t, old(threads[t]), PullSnap(false))
      ensures old(env) == [] && old(headLock).None? ==>
                env == [] && tailLock == old(tailLock) && Contents(View()) == old(Contents(View()))
    {
      hide IsRun, Inv, Logged, Contents;
      ghost var start := View();
      EnterOk(View(), t, PullLock(false));
      threads := threads[t := threads[t].(pc := PullLock(false))];
      Record(NormalQueue.TryPull(t));
      WaitForHead(t, false);
      Interfere(t);
      if old(env) == [] && old(headLock).None? { SameContents(start, View()); }
    }

    // From the comparison to the return.
    method AnswerTryPull(t: Tid, isEmpty: bool, ghost at: nat) returns (res: Option<Value>)
      requires Valid() && StandsAt(View(), t, if isEmpty then PullUnlock(Nothing) else PopNext)
      requires at < |past| && pulled == past[at].pulled && (isEmpty <==> Contents(past[at]) == [])
      modifies this
      ensures Valid() && old(past) <= past && t in threads
      ensures res == First(past[at])
      ensures res.Some? ==> TakenAfter(at, t, res.value)
      ensures threads[t] == Answered(old(threads[t]), if res.Some? then Got(res.value) else Nothing).(pc := Idle)
      ensures old(env) == [] ==>
                if isEmpty then Contents(View()) == old(Contents(View()))
                else old(Contents(View())) != [] && Contents(View()) == old(Contents(View()))[1..]
    {
      hide IsRun, Inv, Logged, Contents, UnlockHead, Takes;
      ghost var start := View();
      res := None;
      if isEmpty {
        Interfere(t);
        ReleaseHead(t, Nothing);
        if old(env) == [] { SameContents(start, View()); }
      } else {
        RunOk(past, tids, first, at);
        RunLater(past, tids, first, at, |past| - 1);
        SameFirst(past[at], View());
        ghost var i;
        var v;
        v, i := Pop(t);
        res := Some(v);
      }
    }

    // pull: waits until the queue is not empty or closed. At the recorded state at, where it looks at
    // closed_ for the second time, a closed queue yields nothing, whatever it holds, and an open one its
    // first value. It is stuck if it sleeps and no operation under way will notify: that can happen
    // beside a value, or at a closed queue. Alone it is not stuck if there is a value or the queue is
    // closed.
    method Pull(t: Tid) returns (stuck: bool, res: Option<Value>, ghost at: nat)
      requires Valid() && StandsAt(View(), t, Idle)
      modifies this
      ensures Valid() && old(past) <= past && t in threads
      ensures stuck ==> env == [] && !NotifyToCome(View()) && Stands(t, old(threads[t]), PullAsleep)
      ensures !stuck ==> |old(past)| <= at < |past| && StandsAt(past[at], t, PullRecheck)
      ensures !stuck ==> res == (if past[at].closed then None else First(past[at])) && (res.None? <==> past[at].closed)
      ensures !stuck && res.Some? ==> TakenAfter(at, t, res.value)
      ensures !stuck && old(closed) == closed ==> (res.None? <==> closed)
      ensures !stuck ==>
                var th := old(threads[t]);
                threads[t] == if res.Some? then th.(got := th.got + [res.value]) else th.(closed := th.closed + 1)
      ensures old(AloneAt(View(), env) && (closed || Contents(View()) != [])) ==>
                && !stuck
                && (if old(closed) then res.None? && Contents(View()) == old(Contents(View()))
                    else TakesOff(old(Contents(View())), Contents(View()), res))
    {
      hide IsRun, Inv, Logged, Contents, NotifyToCome, TakenAfter, First;
      stuck := EnterPull(t);
      res, at := None, 0;
      if !stuck {
        res, at := AnswerPull(t);
        RunLater(past, tids, first, |old(past)| - 1, at);
        RunLater(past, tids, first, at, |past| - 1);
      }
    }

    // From the call to the end of the wait.
    method EnterPull(t: Tid) returns (stuck: bool)
      requires Valid() && StandsAt(View(), t, Idle)
      modifies this
      ensures Valid() && old(past) <= past && |old(past)| < |past| && past[|old(past)| - 1] == old(View())
      ensures Stands(t, old(threads[t]), if stuck then PullAsleep else PullRecheck)
      ensures stuck ==> env == [] && !NotifyToCome(View())
      ensures old(AloneAt(View(), env) && (closed || Contents(View()) != [])) ==>
                !stuck && env == [] && closed == old(closed) && Contents(View()) == old(Contents(View()))
    {
      hide IsRun, Inv, Logged, Contents, NotifyToCome;
      ghost var start := View();
      EnterOk(View(), t, PullLock(true));
      threads := threads[t := threads[t].(pc := PullLock(true))];
      Record(NormalQueue.Pull(t));
      SameContents(start, View());
      assert past[|old(past)| - 1] == start;
      stuck := AwaitElement(t);
      if old(AloneAt(View(), env)) && (start.closed || Contents(start) != []) { SameContents(start, View()); }
    }

    // From the second look at closed_ to the return.
    method AnswerPull(t: Tid) returns (res: Option<Value>, ghost at: nat)
      requires Valid() && StandsAt(View(), t, PullRecheck)
      modifies this
      ensures Valid() && old(past) <= past && t in threads
      ensures |old(past)| - 1 <= at < |past| && StandsAt(past[at], t, PullRecheck)
      ensures res == (if past[at].closed then None else First(past[at])) && (res.None? <==> past[at].closed)
      ensures res.Some? ==> TakenAfter(at, t, res.value)
      ensures threads[t] == Answered(old(threads[t]), if res.Some? then Got(res.value) else Closed).(pc := Idle)
      ensures old(env) == [] ==>
                if old(closed) then res.None? && Contents(View()) == old(Contents(View()))
                else TakesOff(old(Contents(View())), Contents(View()), res)
    {
      hide IsRun, Inv, Logged, Contents, Takes;
      ghost var start := View();
      var isClosed;
      isClosed, at := LookAgain(t);
      if isClosed {
        res := None;
        GiveUp(t);
      } else {
        ghost var i;
        var v;
        v, i := Pop(t);
        res := Some(v);
      }
    }

    // The second look at closed_.
    method LookAgain(t: Tid) returns (isClosed: bool, ghost at: nat)
      requires Valid() && StandsAt(View(), t, PullRecheck)
      modifies this
      ensures Valid() && old(past) <= past && |old(past)| - 1 <= at == |past| - 2
      ensures StandsAt(past[at], t, PullRecheck) && isClosed == past[at].closed
      ensures !isClosed ==> Contents(past[at]) != []
      ensures Contents(past[at]) == Contents(View())
      ensures Stands(t, old(threads[t]), if isClosed then PullUnlock(Closed) else PopNext)
      ensures old(env) == [] ==> env == [] && isClosed == old(closed) && Contents(View()) == old(Contents(View()))
    {
      hide IsRun, Inv, Logged, Contents;
      Interfere(t);
      at := |past| - 1;
      ghost var here := View();
      RecheckFinds(here, t);
      isClosed := RecheckClosed(t);
      assert past[at] == here;
      SameContents(here, View());
    }

    // The pull ends without a value.
    method GiveUp(t: Tid)
      requires Valid() && StandsAt(View(), t, PullUnlock(Closed))
      modifies this
      ensures Valid() && old(past) <= past
      ensures Stands(t, old(threads[t]).(closed := old(threads[t]).closed + 1), Idle)
      ensures old(env) == [] ==> Contents(View()) == old(Contents(View()))
    {
      hide IsRun, Inv, Logged, Contents, UnlockHead;
      ghost var start := View();
      Interfere(t);
      ReleaseHead(t, Closed);
      if old(env) == [] { SameContents(start, View()); }
    }

    // condi.wait with the condition "not empty or closed". When the bursts are used up, a sleeper is
    // woken as long as an operation under way will notify.
    method AwaitElement(t: Tid) returns (stuck: bool)
      requires Valid() && StandsAt(View(), t, PullLock(true))
      modifies this
      ensures Valid() && old(past) <= past
      ensures Stands(t, old(threads[t]), if stuck then PullAsleep else PullRecheck)
      ensures stuck ==> env == [] && !NotifyToCome(View())
      ensures old(AloneAt(View(), env) && (closed || Contents(View()) != [])) ==>
                !stuck && env == [] && Untouched(old(View()), View())
    {
      hide IsRun, Inv, Logged, Contents, Notifiers, NotifyToCome;
      var goOn := TestQueue(t);
      if goOn { return false; }
      while true
        invariant Valid() && old(past) <= past && Stands(t, old(threads[t]), PullSleep)
        invariant !old(AloneAt(View(), env) && (closed || Contents(View()) != []))
        decreases |env|, |Notifiers(View())|
      {
        var woken := Doze(t);
        if !woken { return true; }
        goOn := TestQueue(t);
        if goOn { return false; }
      }
    }

    // The test of the wait, under the head mutex.
    method TestQueue(t: Tid) returns (goOn: bool)
      requires Valid() && StandsAt(View(), t, PullLock(true))
      modifies this
      ensures Valid() && old(past) <= past && Stands(t, old(threads[t]), if goOn then PullRecheck else PullSleep)
      ensures |env| <= |old(env)| && (old(env) == [] ==> |Notifiers(View())| <= old(|Notifiers(View())|))
      ensures old(AloneAt(View(), env)) ==>
                env == [] && Untouched(old(View()), View()) && (goOn <==> old(closed) || old(Contents(View())) != [])
    {
      hide IsRun, Inv, Logged, Contents, Notifiers;
      WaitForHead(t, true);
      var isEmpty := LookForElement(t);
      goOn := !isEmpty;
      if isEmpty { goOn := LookForClose(t); }
    }

    // !empty()
    method LookForElement(t: Tid) returns (isEmpty: bool)
      requires Valid() && StandsAt(View(), t, PullSnap(true))
      modifies this
      ensures Valid() && old(past) <= past && Stands(t, old(threads[t]), if isEmpty then PullClosed else PullRecheck)
      ensures |env| <= |old(env)| && (old(env) == [] ==> |Notifiers(View())| <= old(|Notifiers(View())|))
      ensures old(env) == [] && old(tailLock).None? ==>
                env == [] && Untouched(old(View()), View()) && (isEmpty <==> old(Contents(View())) == [])
    {
      hide IsRun, Inv, Logged, Contents, Notifiers, Untouched;
      Interfere(t);
      ghost var at;
      isEmpty, at := WaitForTail(t, true);
    }

    // || closed_.load()
    method LookForClose(t: Tid) returns (isClosed: bool)
      requires Valid() && StandsAt(View(), t, PullClosed)
      modifies this
      ensures Valid() && old(past) <= past && Stands(t, old(threads[t]), if isClosed then PullRecheck else PullSleep)
      ensures |env| <= |old(env)| && (old(env) == [] ==> |Notifiers(View())| <= old(|Notifiers(View())|))
      ensures old(env) == [] ==> env == [] && Untouched(old(View()), View()) && isClosed == old(closed)
    {
      hide IsRun, Inv, Logged, Notifiers, To;
      Interfere(t);
      isClosed := WaitMore(t);
    }

    // The sleep of the wait, until a notify.
    method Doze(t: Tid) returns (woken: bool)
      requires Valid() && StandsAt(View(), t, PullSleep)
      modifies this
      ensures Valid() && old(past) <= past && Stands(t, old(threads[t]), if woken then PullLock(true) else PullAsleep)
      ensures !woken ==> env == [] && !NotifyToCome(View())
      ensures woken ==> || |env| < |old(env)|
                        || (old(env) == [] && env == [] && |Notifiers(View())| < old(|Notifiers(View())|))
    {
      hide IsRun, Inv, Logged, Contents, Notifiers, NotifyToCome;
      Interfere(t);
      FallAsleep(t);
      while threads[t].pc.PullAsleep? && env != []
        invariant Valid() && old(past) <= past && t in threads
        invariant Stands(t, old(threads[t]), PullAsleep) || Stands(t, old(threads[t]), PullLock(true))
        invariant if old(env) == [] then env == [] && |Notifiers(View())| <= old(|Notifiers(View())|)
                                         && threads[t].pc.PullAsleep?
                  else |env| < |old(env)|
        decreases |env|
      {
        Interfere(t);
      }
      woken := threads[t].pc == PullLock(true);
      if !woken && NotifyToCome(View()) {
        BeWoken(t);
        woken := true;
      }
    }

    // An operation under way goes on to its notify, which wakes t: the one that has the tail mutex,
    // if there is one.
    method BeWoken(t: Tid)
      requires Valid() && StandsAt(View(), t, PullAsleep) && NotifyToCome(View())
      modifies this
      ensures Valid() && old(past) <= past && Stands(t, old(threads[t]), PullLock(true))
      ensures env == old(env) && |Notifiers(View())| < old(|Notifiers(View())|)
    {
      var u := FindNotifier();
      hide IsRun, Inv, Logged, Step, Notifiers, NotifyToCome, WillNotify, Distance;
      while threads[t].pc.PullAsleep?
        invariant Valid() && old(past) <= past && t in threads && u in threads && env == old(env) && u != t
        invariant Stands(t, old(threads[t]), PullAsleep) || Stands(t, old(threads[t]), PullLock(true))
        invariant if threads[t].pc.PullAsleep?
                  then && WillNotify(View(), threads[u].pc) && (tailLock.None? || tailLock == Some(u))
                       && |Notifiers(View())| <= old(|Notifiers(View())|)
                  else |Notifiers(View())| < old(|Notifiers(View())|)
        decreases threads[t].pc.PullAsleep?, Distance(threads[u].pc)
      {
        NotifierGoesOn(t, u);
      }
    }

    // The thread on its way to a notify takes its next step; the notify wakes t.
    method NotifierGoesOn(t: Tid, u: Tid)
      requires Valid() && StandsAt(View(), t, PullAsleep) && u in threads && u != t
      requires WillNotify(View(), threads[u].pc) && (tailLock.None? || tailLock == Some(u))
      modifies this
      ensures Valid() && old(past) <= past && t in threads && u in threads && env == old(env)
      ensures Stands(t, old(threads[t]), PullAsleep) || Stands(t, old(threads[t]), PullLock(true))
      ensures if threads[t].pc.PullAsleep?
              then && WillNotify(View(), threads[u].pc) && (tailLock.None? || tailLock == Some(u))
                   && |Notifiers(View())| <= old(|Notifiers(View())|)
                   && Distance(threads[u].pc) < old(Distance(threads[u].pc))
              else |Notifiers(View())| < old(|Notifiers(View())|)
    {
      var addr := t;
      if threads[u].pc.PushAlloc? { addr := FreeAddress(); }
      hide IsRun, Inv, Logged, Step, Notifiers, WillNotify, Distance, Notifies;
      NotifierFacts(View(), t, u, addr);
      OtherStep(t, Go(u, addr));
    }

    method FindNotifier() returns (u: Tid)
      requires Valid() && NotifyToCome(View())
      ensures u in threads && WillNotify(View(), threads[u].pc) && (tailLock.None? || tailLock == Some(u))
    {
      if tailLock.Some? {
        u := tailLock.value;
      } else {
        u :| u in threads && WillNotify(View(), threads[u].pc);
      }
    }
  }

  // Nobody else will do anything, and both mutexes are free.
  predicate AloneAt(s: State, env: seq<seq<Action>>) {
    env == [] && s.headLock.None? && s.tailLock.None?
  }

  // The first value, if there is one.
  function First(s: State): Option<Value> {
    if Contents(s) == [] then None else Some(Contents(s)[0])
  }

  // Thread th after its pull has been answered.
  function Answered(th: Thread, answer: Answer): Thread {
    match answer
    case Got(v) => th.(got := th.got + [v])
    case Nothing => th.(nothing := th.nothing + 1)
    case Closed => th.(closed := th.closed + 1)
  }

  // State s' is not earlier than state s in the same run.
  ghost predicate Later(s: State, s': State) {
    s.pushed <= s'.pushed && s.pulled <= s'.pulled && (s.closed ==> s'.closed)
  }

  lemma {:induction false} RunLater(past: seq<State>, tids: set<Tid>, first: Addr, i: nat, j: nat)
    requires IsRun(past, tids, first) && first != NULL && i <= j < |past|
    ensures Later(past[i], past[j])
    decreases j
  {
    if i < j {
      RunLater(past, tids, first, i, j - 1);
      NextLater(past, tids, first, j - 1);
    }
  }

  lemma NextLater(past: seq<State>, tids: set<Tid>, first: Addr, i: nat)
    requires IsRun(past, tids, first) && first != NULL && i + 1 < |past|
    ensures Later(past[i], past[i + 1])
  {
    RunReaches(past, tids, first, i);
    assert StepAt(past, i);
    var a :| Step(past[i], a) == Ok(past[i + 1]);
    StepLater(tids, past[i], a);
  }

  lemma StepLater(tids: set<Tid>, s: State, a: Action)
    requires Reachable(tids, s) && Step(s, a).Ok?
    ensures Later(s, Step(s, a).state)
  {
    StepRefines(tids, s, a);
    hide Reachable, Step, Contents;
    if s.closed { StepCloses(s, a); }
  }

  lemma StepCloses(s: State, a: Action)
    requires Step(s, a).Ok? && s.closed
    ensures Step(s, a).state.closed
  {
    hide Advance;
    if a.Go? && a.t in s.threads {
      if Notifies(s.threads[a.t].pc) { NotifySteps(s, a.t, a.n); } else { OneThread(s, a.t, a.n); }
    }
  }

  lemma RunOk(past: seq<State>, tids: set<Tid>, first: Addr, i: nat)
    requires IsRun(past, tids, first) && first != NULL && i < |past|
    ensures Inv(past[i]) && Logged(past[i])
  {
    RunReaches(past, tids, first, i);
    ReachableOk(tids, past[i]);
  }

  // From s to s' the push of t puts v behind the others, or the pull of t takes v off in front.
  predicate Appends(s: State, s': State, t: Tid, v: Value) {
    Contents(s') == Contents(s) + [v] && s'.pushed == s.pushed + [Event(t, v)] && s'.pulled == s.pulled
  }

  predicate Takes(s: State, s': State, t: Tid, v: Value) {
    Contents(s) == [v] + Contents(s') && s'.pulled == s.pulled + [Event(t, v)] && s'.pushed == s.pushed
  }

  // A pull takes the first value off, or nothing exactly if there is none.
  predicate TakesOff(before: seq<Value>, after: seq<Value>, res: Option<Value>) {
    if before == [] then res.None? && after == [] else res == Some(before[0]) && after == before[1..]
  }

  // The values are the same.
  predicate Same(s: State, s': State) {
    s'.pushed == s.pushed && s'.pulled == s.pulled && s'.front == s.front && s'.closed == s.closed
  }

  // So is the tail mutex.
  predicate Untouched(s: State, s': State) {
    Same(s, s') && s'.tailLock == s.tailLock
  }

  lemma MoveTailOk(s: State, t: Tid, v: Value, n: Addr)
    requires Inv(s) && Logged(s) && StandsAt(s, t, PushMove(v, n))
    ensures n in s.heap && Step(s, Go(t, NULL)) == Ok(MoveTail(s, t, v, n))
    ensures Inv(MoveTail(s, t, v, n)) && Logged(MoveTail(s, t, v, n))
  {
    hide Inv, Logged, Advance;
    StepKeeps(s, Go(t, NULL));
    StepLog(s, Go(t, NULL));
    MoveStep(s, t, NULL);
  }

  lemma MoveHeadOk(s: State, t: Tid, rest: Addr, v: Value)
    requires Inv(s) && Logged(s) && StandsAt(s, t, PopHead(rest, v))
    ensures s.head in s.heap && Step(s, Go(t, NULL)) == Ok(MoveHead(s, t, rest, v))
    ensures Inv(MoveHead(s, t, rest, v)) && Logged(MoveHead(s, t, rest, v))
  {
    MoveHeadKeeps(s, t, rest, v);
    hide Inv, Logged, Advance;
    StepKeeps(s, Go(t, NULL));
    StepLog(s, Go(t, NULL));
    MoveStep(s, t, NULL);
  }

  // The notify of t's push leads from s to s' and chooses u.
  predicate Woke(s: State, s': State, t: Tid, v: Value, u: Tid) {
    t in s.threads && s' == NotifyOne(s, t, v, u) && (SomeAsleep(s) ==> StandsAt(s, u, PullAsleep))
  }

  ghost predicate SomeoneWoke(s: State, s': State, t: Tid, v: Value) {
    exists u :: Woke(s, s', t, v, u)
  }

  lemma MoveTailAppends(s: State, t: Tid, v: Value, n: Addr)
    requires Inv(s) && StandsAt(s, t, PushMove(v, n))
    ensures n in s.heap && Appends(s, MoveTail(s, t, v, n), t, v)
  {
    MoveTailContents(s, t, v, n);
    hide Inv, Contents;
  }

  lemma MoveHeadTakes(s: State, t: Tid, rest: Addr, v: Value)
    requires Inv(s) && StandsAt(s, t, PopHead(rest, v))
    ensures Takes(s, MoveHead(s, t, rest, v), t, v)
  {
    MoveHeadContents(s, t, rest, v);
    hide Inv, Contents;
  }

  // How many steps the holder of a mutex still needs before it gives it back.
  function TailRank(s: State): nat {
    match Pusher(s)
    case PushData(_, _) => 4
    case PushNext(_, _) => 3
    case PushMove(_, _) => 2
    case PushUnlock(_) => 1
    case _ => 0
  }

  function HeadRank(s: State): nat {
    match Puller(s)
    case PullSnap(_) => 8
    case PullCompare(_, _, _) => 7
    case PullClosed => 6
    case PullSleep => 1
    case PullRecheck => 5
    case PopNext => 4
    case PopData(_) => 3
    case PopHead(_, _) => 2
    case PullUnlock(_) => 1
    case _ => 0
  }

  lemma EnterOk(s: State, t: Tid, pc: Pc)
    requires Inv(s) && Logged(s) && t in s.threads && s.threads[t].pc.Idle?
    requires pc.PushCheck? || pc.PushAlloc? || pc.PullLock?
    ensures Inv(To(s, t, pc)) && Logged(To(s, t, pc))
  {
    hide IsRun, Inv, Logged;
    EnterKeeps(s, t, pc);
    LogStays(s, To(s, t, pc));
  }

  lemma CompareOk(s: State, t: Tid, waits: bool, snap: Addr, wasEmpty: bool)
    requires Inv(s) && Logged(s) && t in s.threads && s.threads[t].pc == PullCompare(waits, snap, wasEmpty)
    ensures var s' := Compare(s, t, waits, snap); Step(s, Go(t, NULL)) == Ok(s') && Inv(s') && Logged(s')
    ensures s.head == snap <==> wasEmpty
  {
    assert PcOk(s, t);
    hide IsRun, Inv, Logged;
    CompareKeeps(s, t, waits, snap, wasEmpty);
    StepLog(s, Go(t, NULL));
  }

  // The steps in the critical sections, seen from the ranks.
  lemma TailHolderMoves(s: State, u: Tid)
    requires u in s.threads && s.tailLock == Some(u) && AtTail(s.threads[u].pc) && Advance(s, u, NULL).Ok?
    ensures var s' := Advance(s, u, NULL).state;
            && TailRank(s') < TailRank(s) && s'.headLock == s.headLock
            && u in s'.threads && s'.threads == s.threads[u := s'.threads[u]]
  {
    match s.threads[u].pc
    case PushData(v, n) =>
    case PushNext(v, n) =>
    case PushMove(v, n) =>
    case PushUnlock(v) =>
  }

  lemma TailHolderStep(s: State, u: Tid)
    requires Inv(s) && s.tailLock == Some(u)
    ensures u in s.threads && AtTail(s.threads[u].pc) && Step(s, Go(u, NULL)).Ok?
    ensures TailRank(Step(s, Go(u, NULL)).state) < TailRank(s) && HeadRank(Step(s, Go(u, NULL)).state) == HeadRank(s)
  {
    StepKeeps(s, Go(u, NULL));
    assert AtTail(s.threads[u].pc) && s.headLock != Some(u);
    hide Inv, Advance;
    TailHolderMoves(s, u);
  }

  lemma HeadHolderMoves(s: State, u: Tid)
    requires u in s.threads && s.headLock == Some(u) && AtHead(s.threads[u].pc) && Advance(s, u, NULL).Ok?
    requires !(s.threads[u].pc.PullSnap? && s.tailLock.Some?)
    ensures HeadRank(Advance(s, u, NULL).state) < HeadRank(s)
  {
    match s.threads[u].pc
    case PopNext =>
    case PopData(_) =>
    case PopHead(_, _) =>
    case PullUnlock(_) =>
    case _ =>
  }

  lemma HeadHolderStep(s: State, u: Tid)
    requires Inv(s) && s.headLock == Some(u)
    ensures u in s.threads && AtHead(s.threads[u].pc) && Step(s, Go(u, NULL)).Ok?
    ensures !(s.threads[u].pc.PullSnap? && s.tailLock.Some?) ==> HeadRank(Step(s, Go(u, NULL)).state) < HeadRank(s)
  {
    StepKeeps(s, Go(u, NULL));
    assert AtHead(s.threads[u].pc);
    hide Inv, Advance;
    if !(s.threads[u].pc.PullSnap? && s.tailLock.Some?) { HeadHolderMoves(s, u); }
  }

  // The first of the contents, if there is one.
  lemma FirstOf(s: State)
    ensures Contents(s) != [] <==> s.front < |s.pushed|
    ensures Contents(s) != [] ==> Contents(s)[0] == s.pushed[s.front].v
  {
  }

  // As long as nothing is pulled, the first value stays the first.
  lemma SameFirst(s: State, s': State)
    requires Inv(s) && Inv(s') && Later(s, s') && s.pulled == s'.pulled && Contents(s) != []
    ensures Contents(s') != [] && Contents(s')[0] == Contents(s)[0]
  {
    hide PlacesOk, HeapOk, PcOk, LocksOk, Contents;
    FirstOf(s);
    FirstOf(s');
  }

  // What a pop has in its hand is the value that was first when it began.
  lemma FirstStays(s: State, s': State, t: Tid, rest: Addr, v: Value)
    requires Inv(s) && Inv(s') && Later(s, s') && s.pulled == s'.pulled
    requires t in s.threads && s.threads[t].pc.PopNext?
    requires t in s'.threads && s'.threads[t].pc == PopHead(rest, v)
    ensures Contents(s) != [] && v == Contents(s)[0]
  {
    hide PlacesOk, HeapOk, LocksOk, Contents;
    assert PcOk(s, t) && PcOk(s', t);
    FirstOf(s);
  }

  // A step of another thread leaves thread t where it is, unless it wakes it; while t has the head
  // mutex, nobody else moves the head.
  lemma OthersStep(s: State, a: Action, t: Tid)
    requires Inv(s) && t in s.threads && a.t != t && Step(s, a).Ok?
    ensures t in Step(s, a).state.threads
    ensures Step(s, a).state.threads[t] == s.threads[t] || Step(s, a).state.threads[t] == Woken(s.threads[t])
    ensures AtHead(s.threads[t].pc) ==> Step(s, a).state.pulled == s.pulled
  {
    assert a.t in s.threads && AtHead(s.threads[t].pc) ==> !AtHead(s.threads[a.t].pc);
    StepContents(s, a);
    hide Inv;
    if a.Go? && a.t in s.threads {
      if Notifies(s.threads[a.t].pc) { NotifySteps(s, a.t, a.n); } else { OneThread(s, a.t, a.n); }
      hide Advance;
    }
  }

  // The operations under way become no more, and one less with each notify.
  lemma FewerNotifiers(s: State, a: Action)
    requires Inv(s) && a.Go?
    ensures Step(s, a).Ok? && |Notifiers(Step(s, a).state)| <= |Notifiers(s)|
    ensures a.t in s.threads && Notifies(s.threads[a.t].pc) && !StandsAt(Step(s, a).state, a.t, s.threads[a.t].pc) ==>
              |Notifiers(Step(s, a).state)| < |Notifiers(s)|
  {
    StepKeeps(s, a);
    hide Inv, Advance;
    var s' := Step(s, a).state;
    if a.t in s.threads {
      assert s'.closed == s.closed && Notifiers(s') <= Notifiers(s) by { NotifiersShrink(s, a.t, a.n); }
      Fewer(Notifiers(s'), Notifiers(s));
      if Notifies(s.threads[a.t].pc) && !StandsAt(s', a.t, s.threads[a.t].pc) {
        NotifierEnds(s, a.t, a.n);
        assert a.t in Notifiers(s);
        Fewer(Notifiers(s'), Notifiers(s) - {a.t});
      }
    }
  }

  lemma NotifierFacts(s: State, t: Tid, u: Tid, addr: nat)
    requires Inv(s) && StandsAt(s, t, PullAsleep) && u in s.threads && WillNotify(s, s.threads[u].pc)
    requires s.tailLock.None? || s.tailLock == Some(u)
    requires if s.threads[u].pc.PushAlloc? then addr != NULL && addr !in s.heap else addr == t
    ensures var out := Step(s, Go(u, addr));
            && out.Ok? && t in out.state.threads && u in out.state.threads
            && if out.state.threads[t].pc.PullAsleep?
               then ComesCloser(s, out.state, t, u) && |Notifiers(out.state)| <= |Notifiers(s)|
               else |Notifiers(out.state)| < |Notifiers(s)|
  {
    NotifierSteps(s, t, u, addr);
    FewerNotifiers(s, Go(u, addr));
    hide Inv, Step, Notifiers, ComesCloser;
    if Notifies(s.threads[u].pc) {
      assert Go(u, addr).t == u;
      NotifierLeaves(s, t, u);
    }
  }

  lemma NotifierLeaves(s: State, t: Tid, u: Tid)
    requires StandsAt(s, t, PullAsleep) && u in s.threads && Notifies(s.threads[u].pc)
    ensures var out := Step(s, Go(u, t)); out.Ok? && u in out.state.threads && out.state.threads[u].pc.Idle?
  {
  }

  lemma NotifiersShrink(s: State, t: Tid, addr: nat)
    requires t in s.threads && Advance(s, t, addr).Ok?
    ensures var s' := Advance(s, t, addr).state; s'.closed == s.closed && Notifiers(s') <= Notifiers(s)
  {
    if Notifies(s.threads[t].pc) {
      NotifySteps(s, t, addr);
    } else {
      OneThread(s, t, addr);
      if !WillNotify(s, s.threads[t].pc) { QuietThread(s, t, addr); }
    }
    hide Advance;
  }

  lemma NotifierEnds(s: State, t: Tid, addr: nat)
    requires t in s.threads && Notifies(s.threads[t].pc)
    ensures var out := Advance(s, t, addr);
            out.Ok? && t in out.state.threads && out.state.threads[t].pc in {Idle, s.threads[t].pc}
  {
    NotifySteps(s, t, addr);
  }

  lemma {:induction false} Fewer(a: set<Tid>, b: set<Tid>)
    requires a <= b
    ensures |a| <= |b|
  {
    assert b == a + (b - a);
  }

  // A step of a thread that does not go to a notify.
  lemma QuietStep(s: State, s': State, t: Tid)
    requires t in s.threads && t in s'.threads && s'.threads == s.threads[t := s'.threads[t]]
    requires s'.closed == s.closed && !WillNotify(s', s'.threads[t].pc)
    ensures |Notifiers(s')| <= |Notifiers(s)|
  {
    Fewer(Notifiers(s'), Notifiers(s));
  }

  lemma NotifyOk(s: State, t: Tid, v: Value, u: Tid)
    requires Inv(s) && Logged(s) && StandsAt(s, t, PushNotify(v))
    ensures Inv(NotifyOne(s, t, v, u)) && Logged(NotifyOne(s, t, v, u))
  {
    hide IsRun, Inv, Logged, NotifyOne;
    NotifyOneKeeps(s, t, v, u);
    StepLog(s, Go(t, u));
  }

  lemma NotifySent(s: State, t: Tid, v: Value, u: Tid)
    requires StandsAt(s, t, PushNotify(v)) && (SomeAsleep(s) <==> StandsAt(s, u, PullAsleep))
    ensures NotifyOne(s, t, v, u) == if SomeAsleep(s) then Sent(Wake(s, u), t, v) else Sent(s, t, v)
  {
  }
}
