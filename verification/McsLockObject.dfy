/**
 The lock as an object: the guard's constructor and destructor in the form the
 source gives them, with a burst of other threads' steps before every atomic
 access. When the bursts are used up, a thread that spins lets the one that can
 bring it closer, the helper, go on; so every spin ends.
 */
module McsLockObject {
  import opened Prelude
  import opened McsLock

  class LockObject {
    // shared memory
    var tail: Addr
    var nodes: map<Addr, Node>
    // where each thread stands, and the history variables
    var threads: map<Tid, Pc>
    var line: seq<Addr>
    var front: nat
    var exchanged: seq<Tid>
    var entered: seq<Tid>
    // what the other threads will still do
    var env: seq<seq<Action>>
    // history: the threads, and every state so far, the present one last
    ghost const tids: set<Tid>
    ghost var past: seq<State>

    function View(): State
      reads this
    {
      State(tail, nodes, threads, line, front, exchanged, entered)
    }

    ghost predicate Valid()
      reads this
    {
      Inv(View()) && Fifo(View()) && IsRun(past, tids) && past != [] && past[|past| - 1] == View()
    }

    constructor (tids: set<Tid>, env: seq<seq<Action>>)
      ensures Valid() && View() == Init(tids) && this.env == env && this.tids == tids
    {
      var s := Init(tids);
      tail, nodes, threads, line := s.tail, s.nodes, s.threads, s.line;
      front, exchanged, entered := s.front, s.exchanged, s.entered;
      this.env := env;
      this.tids, past := tids, [s];
      new;
      InitOk(tids);
    }

    // The step a has just led from the last recorded state to the present one.
    ghost method Record(a: Action)
      requires IsRun(past, tids) && past != [] && Step(past[|past| - 1], a) == Ok(View())
      modifies this`past
      ensures past == old(past) + [View()] && IsRun(past, tids)
    {
      hide Step, Init;
      assert StepTo(past[|past| - 1], View());
      ghost var was := past;
      past := past + [View()];
      forall i | 0 <= i < |past| - 1 ensures StepAt(past, i) {
        if i < |was| - 1 { assert StepAt(was, i); }
      }
    }

    // The step a of some thread.
    method Become(a: Action)
      requires Valid() && Step(View(), a).Ok? && Inv(Step(View(), a).state) && Fifo(Step(View(), a).state)
      modifies this
      ensures Valid() && past == old(past) + [View()] && Step(old(View()), a) == Ok(View()) && env == old(env)
    {
      hide Inv, Fifo, Step, IsRun;
      var s := Step(View(), a).state;
      tail, nodes, threads, line := s.tail, s.nodes, s.threads, s.line;
      front, exchanged, entered := s.front, s.exchanged, s.entered;
      Record(a);
    }

    // The other threads run for one burst; thread t stays where it is.
    method Interfere(t: Tid)
      requires Valid() && t in threads
      modifies this
      ensures Valid() && old(past) <= past && t in threads && threads[t] == old(threads[t])
      ensures if old(env) == [] then env == [] && View() == old(View()) else |env| < |old(env)|
    {
      hide IsRun, Inv, Fifo;
      if env != [] {
        var burst := env[0];
        env := env[1..];
        for i := 0 to |burst|
          invariant Valid() && old(past) <= past
          invariant t in threads && threads[t] == old(threads[t]) && env == old(env)[1..]
        {
          if burst[i].t != t { OtherStep(t, burst[i]); }
        }
      }
    }

    method OtherStep(t: Tid, a: Action)
      requires Valid() && t in threads && a.t != t
      modifies this
      ensures Valid() && old(past) <= past && t in threads && threads[t] == old(threads[t]) && env == old(env)
      ensures Step(old(View()), a) == Ok(View())
    {
      hide IsRun, Inv, Fifo, Step;
      StepKeeps(View(), a);
      StepFifo(View(), a);
      OthersStep(View(), a, t);
      Become(a);
    }

    // The guard's node comes to life.
    method BuildGuard(t: Tid, n: Addr)
      requires Valid() && StandsAt(View(), t, Idle) && n != NULL && n !in nodes
      modifies this
      ensures Valid() && past == old(past) + [View()] && View() == Build(old(View()), t, n) && env == old(env)
    {
      StepKeeps(View(), Lock(t, n));
      StepFifo(View(), Lock(t, n));
      hide IsRun, Inv, Fifo;
      nodes := nodes[n := Node(false, NULL, t, -1)];
      threads := threads[t := Arriving(n)];
      Record(Lock(t, n));
    }

    // lk.exchange(&n)
    method ExchangeTail(t: Tid, n: Addr) returns (prev: Addr)
      requires Valid() && StandsAt(View(), t, Arriving(n))
      modifies this
      ensures Valid() && past == old(past) + [View()] && env == old(env) && prev == old(tail)
      ensures old(n in nodes) && View() == Exchange(old(View()), t, n)
    {
      hide IsRun, Inv, Fifo;
      GoOk(View(), t);
      prev := tail;
      tail := n;
      nodes := nodes[n := nodes[n].(ticket := |line|)];
      line := line + [n];
      exchanged := exchanged + [t];
      if prev == NULL {
        threads := threads[t := Inside(n)];
        entered := entered + [t];
      } else {
        threads := threads[t := Linking(n, prev)];
      }
      Record(Go(t));
    }

    // tail->next.store(&n)
    method StoreNext(t: Tid, n: Addr, prev: Addr)
      requires Valid() && StandsAt(View(), t, Linking(n, prev))
      modifies this
      ensures Valid() && past == old(past) + [View()] && env == old(env)
      ensures old(prev in nodes) && View() == Link(old(View()), t, n, prev)
    {
      hide IsRun, Inv, Fifo;
      GoOk(View(), t);
      nodes := nodes[prev := nodes[prev].(next := n)];
      threads := threads[t := Spinning(n)];
      Record(Go(t));
    }

    // n.is_owned.load()
    method LoadOwned(t: Tid, n: Addr) returns (isOwned: bool)
      requires Valid() && StandsAt(View(), t, Spinning(n))
      modifies this
      ensures Valid() && past == old(past) + [View()] && env == old(env)
      ensures old(n in nodes) && isOwned == old(nodes[n].isOwned)
      ensures View() == if isOwned then Enter(old(View()), t, n) else old(View())
    {
      hide IsRun, Inv, Fifo;
      GoOk(View(), t);
      isOwned := nodes[n].isOwned;
      if isOwned {
        threads := threads[t := Inside(n)];
        entered := entered + [t];
      }
      Record(Go(t));
    }

    // lk.compare_exchange_strong(tail, nullptr)
    method CasTail(t: Tid, n: Addr) returns (ok: bool)
      requires Valid() && StandsAt(View(), t, Inside(n))
      modifies this
      ensures Valid() && past == old(past) + [View()] && env == old(env)
      ensures ok == (old(tail) == n) && View() == Unlock(old(View()), t, n)
    {
      hide IsRun, Inv, Fifo;
      GoOk(View(), t);
      ok := tail == n;
      if ok {
        tail := NULL;
        front := front + 1;
        threads := threads[t := Retiring(n)];
      } else {
        threads := threads[t := Waiting(n)];
      }
      Record(Go(t));
    }

    // n.next.load() in the waiting loop
    method LoadNext(t: Tid, n: Addr) returns (next: Addr)
      requires Valid() && StandsAt(View(), t, Waiting(n))
      modifies this
      ensures Valid() && past == old(past) + [View()] && env == old(env)
      ensures old(n in nodes) && next == old(nodes[n].next)
      ensures View() == if next == NULL then old(View()) else old(View()).(threads := old(threads)[t := Reading(n)])
    {
      hide IsRun, Inv, Fifo;
      GoOk(View(), t);
      next := nodes[n].next;
      if next != NULL { threads := threads[t := Reading(n)]; }
      Record(Go(t));
    }

    // n.next.load() once more, for the handoff
    method ReloadNext(t: Tid, n: Addr) returns (heir: Addr)
      requires Valid() && StandsAt(View(), t, Reading(n))
      modifies this
      ensures Valid() && past == old(past) + [View()] && env == old(env)
      ensures old(n in nodes) && heir == old(nodes[n].next)
      ensures View() == old(View()).(threads := old(threads)[t := Handing(n, heir)])
    {
      hide IsRun, Inv, Fifo;
      GoOk(View(), t);
      heir := nodes[n].next;
      threads := threads[t := Handing(n, heir)];
      Record(Go(t));
    }

    // next->is_owned.store(true)
    method StoreOwned(t: Tid, n: Addr, heir: Addr)
      requires Valid() && StandsAt(View(), t, Handing(n, heir))
      modifies this
      ensures Valid() && past == old(past) + [View()] && env == old(env)
      ensures old(heir in nodes) && View() == Hand(old(View()), t, n, heir)
    {
      hide IsRun, Inv, Fifo;
      GoOk(View(), t);
      nodes := nodes[heir := nodes[heir].(isOwned := true)];
      front := front + 1;
      threads := threads[t := Retiring(n)];
      Record(Go(t));
    }

    // The guard's node dies.
    method DestroyGuard(t: Tid, n: Addr)
      requires Valid() && StandsAt(View(), t, Retiring(n))
      modifies this
      ensures Valid() && past == old(past) + [View()] && env == old(env)
      ensures old(n in nodes) && View() == Retire(old(View()), t, n)
    {
      hide IsRun, Inv, Fifo;
      GoOk(View(), t);
      nodes := nodes - {n};
      threads := threads[t := Idle];
      Record(Go(t));
    }

    // The helper of the moment, another thread than t, takes its next step.
    method OthersHelp(t: Tid)
      requires Valid() && t in threads && front < |line| && Helper(View()) != t
      modifies this
      ensures Valid() && old(past) <= past && t in threads && threads[t] == old(threads[t]) && env == old(env)
      ensures old(front) <= front <= old(front) + 1 && old(line) <= line
      ensures forall p :: old(front) <= p < |old(line)| && front <= p ==> Ahead(View(), p) < old(Ahead(View(), p))
      ensures old(Distance(View())) == 4 ==> front == old(front) && Distance(View()) == 3
    {
      hide IsRun, Inv, Fifo, Step, Helper, Distance, Ahead;
      HelperAhead(View());
      var u := FindHelper();
      OtherStep(t, Go(u));
    }

    // The guard's constructor. It returns with the lock; alone at a free lock it enters at once.
    method Acquire(t: Tid, n: Addr)
      requires Valid() && StandsAt(View(), t, Idle) && n != NULL && n !in nodes
      modifies this
      ensures Valid() && old(past) <= past && t in threads && threads[t] == Inside(n)
      ensures old(env) == [] && old(tail) == NULL ==> entered == old(entered) + [t]
    {
      hide IsRun, Inv, Fifo;
      BuildGuard(t, n);
      Interfere(t);
      var prev := ExchangeTail(t, n);
      if prev != NULL { LinkAndSpin(t, n, prev); }
    }

    method LinkAndSpin(t: Tid, n: Addr, prev: Addr)
      requires Valid() && StandsAt(View(), t, Linking(n, prev))
      modifies this
      ensures Valid() && old(past) <= past && t in threads && threads[t] == Inside(n)
    {
      hide IsRun, Inv, Fifo;
      Interfere(t);
      StoreNext(t, n, prev);
      Spin(t, n);
    }

    // while (!n.is_owned.load())
    method Spin(t: Tid, n: Addr)
      requires Valid() && StandsAt(View(), t, Spinning(n))
      modifies this
      ensures Valid() && old(past) <= past && t in threads && threads[t] == Inside(n)
    {
      hide IsRun, Inv, Fifo, Ahead, Helper;
      SpinnersPlace(View(), t, n);
      ghost var p := nodes[n].ticket;
      var held := LoadOwned(t, n);
      while !held
        invariant Valid() && old(past) <= past && t in threads && threads[t] == if held then Inside(n) else Spinning(n)
        invariant !held ==> n in nodes && !nodes[n].isOwned && p == nodes[n].ticket
        invariant !held ==> front <= p < |line| && line[p] == n
        decreases !held, |env|, if held then 0 else Ahead(View(), p)
      {
        SpinnersPlace(View(), t, n);
        if env != [] { Interfere(t); } else { OthersHelp(t); }
        SpinnersPlace(View(), t, n);
        p := nodes[n].ticket;
        held := LoadOwned(t, n);
      }
    }

    // The guard's destructor. It leaves only after the CAS or after its successor has the lock.
    method Release(t: Tid, n: Addr)
      requires Valid() && StandsAt(View(), t, Inside(n))
      modifies this
      ensures Valid() && old(past) <= past && t in threads && threads[t].Idle?
    {
      hide IsRun, Inv, Fifo;
      Interfere(t);
      var ok := CasTail(t, n);
      if !ok { HandOver(t, n); }
      Interfere(t);
      DestroyGuard(t, n);
    }

    // The CAS has failed: the successor gets the lock.
    method HandOver(t: Tid, n: Addr)
      requires Valid() && StandsAt(View(), t, Waiting(n))
      modifies this
      ensures Valid() && old(past) <= past && t in threads && threads[t] == Retiring(n)
    {
      hide IsRun, Inv, Fifo;
      AwaitSuccessor(t, n);
      Interfere(t);
      var heir := ReloadNext(t, n);
      Interfere(t);
      StoreOwned(t, n, heir);
    }

    // while (!n.next.load())
    method AwaitSuccessor(t: Tid, n: Addr)
      requires Valid() && StandsAt(View(), t, Waiting(n))
      modifies this
      ensures Valid() && old(past) <= past && t in threads && threads[t] == Reading(n)
    {
      hide IsRun, Inv, Fifo;
      WaitersHelper(View(), t, n);
      var next := LoadNext(t, n);
      while next == NULL
        invariant Valid() && old(past) <= past
        invariant t in threads && threads[t] == if next == NULL then Waiting(n) else Reading(n)
        invariant next == NULL ==> front < |line| && Distance(View()) == 4
        decreases next == NULL, |env|
      {
        WaitersHelper(View(), t, n);
        var last := env == [];
        if last { OthersHelp(t); } else { Interfere(t); }
        WaitersHelper(View(), t, n);
        next := LoadNext(t, n);
      }
    }

    // One step of the front thread, or of its successor if that has still to link itself.
    method HelpOnce()
      requires Valid() && front < |line|
      modifies this
      ensures Valid() && old(past) <= past
      ensures || HandedOver(old(View()), View())
              || (front == old(front) && line == old(line) && Distance(View()) < old(Distance(View())))
    {
      HelperHelps(View());
      var t := FindHelper();
      StepFifo(View(), Go(t));
      hide IsRun, Inv, Fifo;
      Become(Go(t));
    }

    method FindHelper() returns (t: Tid)
      requires Valid() && front < |line|
      ensures t == Helper(View())
    {
      assert SlotOk(View(), front);
      t := nodes[line[front]].owner;
      assert PcOk(View(), t);
      if threads[t].Waiting? && nodes[threads[t].n].next == NULL {
        assert SlotOk(View(), front + 1);
        t := nodes[line[front + 1]].owner;
      }
    }

    // Whoever is at the front, running the front thread and its successor alone passes the lock on.
    method PassOn()
      requires Valid() && front < |line|
      modifies this
      ensures Valid() && old(past) <= past && HandedOver(old(View()), View())
    {
      ghost var s := View();
      var f := front;
      while front == f
        invariant Valid() && old(past) <= past && front <= |line|
        invariant if front != f then HandedOver(s, View()) else front < |line| && line == s.line
        decreases front == f, if front == f then Distance(View()) else 0
      {
        HelpOnce();
      }
    }
  }

  // What the helper's step does for every place in the line.
  lemma HelperAhead(s: State)
    requires Inv(s) && s.front < |s.line|
    ensures Step(s, Go(Helper(s))).Ok? && Helper(s) in s.threads
    ensures var s' := Step(s, Go(Helper(s))).state;
            && Inv(s') && s.front <= s'.front <= s.front + 1 && s.line <= s'.line
            && (forall p :: s.front <= p < |s.line| && s'.front <= p ==> Ahead(s', p) < Ahead(s, p))
            && (Distance(s) == 4 ==> s'.front == s.front && Distance(s') == 3)
  {
    HelperHelps(s);
    var a := Go(Helper(s));
    FrontGrows(s, a);
    if Distance(s) == 4 { LinkHelps(s); }
    hide Inv, Step, Advance, Helper, Distance, Ahead;
    forall p | s.front <= p < |s.line| && Step(s, a).state.front <= p
      ensures Ahead(Step(s, a).state, p) < Ahead(s, p)
    {
      StepAhead(s, a, p);
    }
  }

  // Where a spinning thread is in the line; it is not the helper while its flag is not set.
  lemma SpinnersPlace(s: State, t: Tid, n: Addr)
    requires Inv(s) && StandsAt(s, t, Spinning(n))
    ensures n in s.nodes && s.front <= s.nodes[n].ticket < |s.line| && s.line[s.nodes[n].ticket] == n
    ensures !s.nodes[n].isOwned ==> s.front < s.nodes[n].ticket && Helper(s) != t
    ensures forall p :: s.front <= p < |s.line| && s.line[p] == n ==> p == s.nodes[n].ticket
  {
    assert PcOk(s, t);
    forall p | s.front <= p < |s.line| && s.line[p] == n ensures p == s.nodes[n].ticket { assert SlotOk(s, p); }
    assert SlotOk(s, s.front);
    if s.front + 1 < |s.line| { assert SlotOk(s, s.front + 1); }
  }

  // A thread that waits for its successor's link is at the front, and the successor is the helper.
  lemma WaitersHelper(s: State, t: Tid, n: Addr)
    requires Inv(s) && StandsAt(s, t, Waiting(n))
    ensures s.front < |s.line| && n in s.nodes
    ensures if s.nodes[n].next == NULL then Distance(s) == 4 && Helper(s) != t else Distance(s) == 3
  {
    assert PcOk(s, t);
    assert SlotOk(s, s.front) && SlotOk(s, s.front + 1);
  }

  // A thread's next step does not fault and keeps the invariants.
  lemma GoOk(s: State, t: Tid)
    requires Inv(s) && Fifo(s) && t in s.threads
    ensures var out := Advance(s, t); out.Ok? && Inv(out.state) && Fifo(out.state)
  {
    hide IsRun, Inv, Fifo, Advance;
    StepKeeps(s, Go(t));
    StepFifo(s, Go(t));
  }

  // A step of another thread leaves thread t where it is.
  lemma OthersStep(s: State, a: Action, t: Tid)
    requires t in s.threads && a.t != t && Step(s, a).Ok?
    ensures t in Step(s, a).state.threads && Step(s, a).state.threads[t] == s.threads[t]
  {
  }
}
