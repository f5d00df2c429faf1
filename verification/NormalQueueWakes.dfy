/**
 The wake-ups of the two-lock queue. A pull tests the queue and goes to sleep under
 the head mutex, but a push or a close notifies without it, and a notify that comes
 between the test and the sleep is lost. Who can still be woken is a matter of the
 notifies that are under way; and only a lost one leaves a pull asleep beside a
 value or at a closed queue.
 */
module NormalQueueWakes {
  import opened Prelude
  import opened NormalQueue
  import opened NormalQueueRuns

  // ----- Who wakes a sleeping pull -----

  // A sleeping pull goes on only by the notify of a close, or by that of a push that chooses it.
  lemma WokenByNotify(s: State, t: Tid, a: Action)
    requires StandsAt(s, t, PullAsleep) && Step(s, a).Ok?
    ensures t in Step(s, a).state.threads
    ensures !StandsAt(Step(s, a).state, t, PullAsleep) <==>
              && a.Go? && a.t in s.threads
              && (s.threads[a.t].pc.CloseNotify? || (s.threads[a.t].pc.PushNotify? && a.n == t))
    ensures StandsAt(Step(s, a).state, t, PullAsleep) ==> Step(s, a).state.threads[t] == s.threads[t]
    ensures !StandsAt(Step(s, a).state, t, PullAsleep) ==> Step(s, a).state.threads[t] == Woken(s.threads[t])
  {
    if a.Go? && a.t in s.threads {
      if Notifies(s.threads[a.t].pc) {
      } else if a.t != t {
        hide Step;
        OneThread(s, a.t, a.n);
        hide Advance;
      }
    }
  }

  // The thread is on its way to a notify: of a push that will not be refused, or of a close.
  predicate WillNotify(s: State, pc: Pc) {
    || (pc.PushCheck? && !s.closed) || pc.PushAlloc? || pc.PushLock? || AtTail(pc)
    || pc.PushNotify? || pc.CloseNotify?
  }

  predicate NotifyToCome(s: State) {
    exists u :: u in s.threads && WillNotify(s, s.threads[u].pc)
  }

  function Notifiers(s: State): set<Tid> {
    set u | u in s.threads && WillNotify(s, s.threads[u].pc)
  }

  // The operations under way go on, and none is begun.
  predicate Continues(run: seq<Action>) {
    forall i :: 0 <= i < |run| ==> run[i].Go?
  }

  ghost predicate Awakes(s: State, t: Tid, run: seq<Action>) {
    Continues(run) && Exec(s, run).Ok? && StandsAt(Exec(s, run).state, t, PullLock(true))
  }

  // A sleeping pull can be woken by the operations under way if and only if one of them is on its
  // way to a notify; the queue's contents do not matter.
  lemma CanWake(tids: set<Tid>, s: State, t: Tid)
    requires Reachable(tids, s) && StandsAt(s, t, PullAsleep)
    ensures (exists run :: Awakes(s, t, run)) <==> NotifyToCome(s)
  {
    ReachableOk(tids, s);
    hide Inv, Reachable;
    if NotifyToCome(s) {
      var run := WakingRun(s, t);
      assert Awakes(s, t, run);
    } else {
      forall run | Continues(run) && Exec(s, run).Ok? ensures !Awakes(s, t, run) { SleepsOn(s, t, run); }
    }
  }

  lemma {:induction false} SleepsOn(s: State, t: Tid, run: seq<Action>)
    requires Inv(s) && StandsAt(s, t, PullAsleep) && !NotifyToCome(s) && Continues(run)
    ensures Exec(s, run).Ok? && StandsAt(Exec(s, run).state, t, PullAsleep) && !NotifyToCome(Exec(s, run).state)
    decreases |run|
  {
    hide Inv;
    if run != [] {
      var a := run[0];
      StepKeeps(s, a);
      WokenByNotify(s, t, a);
      QuietStays(s, a);
      SleepsOn(Step(s, a).state, t, run[1..]);
    }
  }

  // While nothing is begun, no notify comes up.
  lemma QuietStays(s: State, a: Action)
    requires !NotifyToCome(s) && a.Go? && Step(s, a).Ok?
    ensures !NotifyToCome(Step(s, a).state)
  {
    hide Advance;
    if a.t in s.threads {
      assert !WillNotify(s, s.threads[a.t].pc);
      OneThread(s, a.t, a.n);
      QuietThread(s, a.t, a.n);
      var s' := Step(s, a).state;
      forall u | u in s'.threads ensures !WillNotify(s', s'.threads[u].pc) {
        if u != a.t { assert !WillNotify(s, s.threads[u].pc); }
      }
    }
  }

  lemma QuietThread(s: State, t: Tid, addr: nat)
    requires t in s.threads && !WillNotify(s, s.threads[t].pc) && Advance(s, t, addr).Ok?
    ensures var s' := Advance(s, t, addr).state; t in s'.threads && !WillNotify(s', s'.threads[t].pc)
  {
    match s.threads[t].pc
    case PopNext =>
    case PopData(_) =>
    case PopHead(_, _) =>
    case PullUnlock(_) =>
    case _ =>
  }

  // How far a thread is from the end of its notify.
  function Distance(pc: Pc): nat {
    match pc
    case PushCheck(_) => 8
    case PushAlloc(_) => 7
    case PushLock(_, _) => 6
    case PushData(_, _) => 5
    case PushNext(_, _) => 4
    case PushMove(_, _) => 3
    case PushUnlock(_) => 2
    case _ => 1
  }

  // Whoever is in the tail's critical section goes on to its notify; else any of the others does.
  lemma WakingRun(s: State, t: Tid) returns (run: seq<Action>)
    requires Inv(s) && StandsAt(s, t, PullAsleep) && NotifyToCome(s)
    ensures Awakes(s, t, run)
  {
    if s.tailLock.Some? {
      var u := s.tailLock.value;
      assert u in s.threads && AtTail(s.threads[u].pc);
      hide Inv;
      run := NotifierRuns(s, t, u);
    } else {
      hide Inv;
      var u :| u in s.threads && WillNotify(s, s.threads[u].pc);
      run := NotifierRuns(s, t, u);
    }
  }

  lemma NotifierRuns(s: State, t: Tid, u: Tid) returns (run: seq<Action>)
    requires Inv(s) && StandsAt(s, t, PullAsleep) && u in s.threads && WillNotify(s, s.threads[u].pc)
    requires s.tailLock.None? || s.tailLock == Some(u)
    ensures Awakes(s, t, run)
    decreases Distance(s.threads[u].pc)
  {
    hide Inv, Step;
    // a push needs a free address for its node, and a notify a sleeper to wake
    var addr := t;
    if s.threads[u].pc.PushAlloc? { addr := FreeAddress(s.heap.Keys); }
    NotifierSteps(s, t, u, addr);
    StepKeeps(s, Go(u, addr));
    var s' := Step(s, Go(u, addr)).state;
    var rest: seq<Action> := [];
    if !Notifies(s.threads[u].pc) { rest := NotifierRuns(s', t, u); }
    assert Awakes(s', t, rest);
    AwakesCons(s, t, Go(u, addr), rest);
    run := [Go(u, addr)] + rest;
  }

  lemma AwakesCons(s: State, t: Tid, a: Action, rest: seq<Action>)
    requires a.Go? && Step(s, a).Ok? && Awakes(Step(s, a).state, t, rest)
    ensures Awakes(s, t, [a] + rest)
  {
    hide Step;
    assert ([a] + rest)[1..] == rest;
  }

  lemma {:induction false} FreeAddress(used: set<Addr>) returns (n: Addr)
    ensures n != NULL && forall m :: m in used ==> m < n
  {
    n := 1;
    if used != {} {
      var m :| m in used;
      n := FreeAddress(used - {m});
      forall k | k in used ensures k == m || k < n { assert k == m || k in used - {m}; }
      if n <= m { n := m + 1; }
    }
  }

  ghost predicate ComesCloser(s: State, s': State, t: Tid, u: Tid)
    requires u in s.threads
  {
    && StandsAt(s', t, PullAsleep) && u in s'.threads && WillNotify(s', s'.threads[u].pc)
    && Distance(s'.threads[u].pc) < Distance(s.threads[u].pc)
    && (s'.tailLock.None? || s'.tailLock == Some(u))
  }

  lemma NotifierSteps(s: State, t: Tid, u: Tid, addr: nat)
    requires Inv(s) && StandsAt(s, t, PullAsleep) && u in s.threads && WillNotify(s, s.threads[u].pc)
    requires s.tailLock.None? || s.tailLock == Some(u)
    requires if s.threads[u].pc.PushAlloc? then addr != NULL && addr !in s.heap else addr == t
    ensures var out := Step(s, Go(u, addr));
            && out.Ok?
            && if Notifies(s.threads[u].pc) then StandsAt(out.state, t, PullLock(true))
               else ComesCloser(s, out.state, t, u)
  {
    assert s.threads[u].pc.PushLock? ==> s.tailLock.None?;
    StepKeeps(s, Go(u, addr));
    hide Inv, Advance;
    if Notifies(s.threads[u].pc) {
      NotifierWakes(s, t, u, addr);
    } else {
      NotifierMoves(s, t, u, addr);
    }
  }

  lemma NotifierWakes(s: State, t: Tid, u: Tid, addr: nat)
    requires StandsAt(s, t, PullAsleep) && u in s.threads && Notifies(s.threads[u].pc)
    requires addr == t && Advance(s, u, addr).Ok?
    ensures StandsAt(Advance(s, u, addr).state, t, PullLock(true))
  {
  }

  lemma NotifierMoves(s: State, t: Tid, u: Tid, addr: nat)
    requires StandsAt(s, t, PullAsleep) && u in s.threads && WillNotify(s, s.threads[u].pc)
    requires s.tailLock.None? || s.tailLock == Some(u)
    requires s.threads[u].pc.PushLock? ==> s.tailLock.None?
    requires s.threads[u].pc.PushAlloc? ==> addr != NULL && addr !in s.heap
    requires Advance(s, u, addr).Ok? && !Notifies(s.threads[u].pc)
    ensures ComesCloser(s, Advance(s, u, addr).state, t, u)
  {
    match s.threads[u].pc
    case PushCheck(_) =>
    case PushAlloc(_) =>
    case PushData(_, _) =>
    case PushNext(_, _) =>
    case PushMove(_, _) =>
    case _ =>
  }

  // ----- Runs in which no notify is lost -----

  // The pull has found the queue empty and open, and is on its way to sleep.
  predicate Dozes(pc: Pc) {
    (pc.PullCompare? && pc.waits && pc.wasEmpty) || pc.PullClosed? || pc.PullSleep?
  }

  // The step is not a notify that falls between a pull's test and its sleep.
  predicate Punctual(s: State, a: Action) {
    a.Go? && a.t in s.threads ==>
      && (s.threads[a.t].pc.PushNotify? && !s.closed ==> forall u :: u in s.threads ==> !Dozes(s.threads[u].pc))
      && (s.threads[a.t].pc.CloseNotify? ==> forall u :: u in s.threads ==> !s.threads[u].pc.PullSleep?)
  }

  predicate RunPunctual(s: State, run: seq<Action>)
    decreases |run|
  {
    run == [] || (Punctual(s, run[0]) && (Step(s, run[0]).Ok? ==> RunPunctual(Step(s, run[0]).state, run[1..])))
  }

  // The operation will still wake a pull, look at the queue, or take a value.
  predicate Helps(pc: Pc) {
    || pc.PushUnlock? || pc.PushNotify? || pc == PullLock(true) || pc == PullSnap(true)
    || (pc.PullCompare? && pc.waits && !pc.wasEmpty) || pc.PullRecheck?
    || pc.PopNext? || pc.PopData? || pc.PopHead?
  }

  function Helpers(s: State): set<Tid> {
    set t | t in s.threads && Helps(s.threads[t].pc)
  }

  predicate Listens(pc: Pc) {
    pc.PullAsleep? || Dozes(pc)
  }

  // While a pull of an open queue sleeps, each value has a helper of its own.
  ghost predicate Ledger(s: State) {
    (exists u :: u in s.threads && Listens(s.threads[u].pc)) && !s.closed ==> |Contents(s)| <= |Helpers(s)|
  }

  predicate Sleeper(pc: Pc) {
    pc.PullAsleep? || pc.PullSleep?
  }

  // While a pull sleeps at a closed queue, a close is about to wake it.
  ghost predicate CloseLedger(s: State) {
    (exists u :: u in s.threads && Sleeper(s.threads[u].pc)) && s.closed ==>
      exists u :: u in s.threads && s.threads[u].pc.CloseNotify?
  }

  function One(helps: bool): nat {
    if helps then 1 else 0
  }

  lemma HelpersAfter(s: State, s': State, t: Tid)
    requires t in s.threads && t in s'.threads && s'.threads == s.threads[t := s'.threads[t]]
    ensures |Helpers(s')| + One(Helps(s.threads[t].pc)) == |Helpers(s)| + One(Helps(s'.threads[t].pc))
  {
    hide Helps;
    var rest := Helpers(s) - {t};
    assert rest == Helpers(s') - {t};
    assert |rest| == |Helpers(s)| - One(Helps(s.threads[t].pc));
    assert |rest| == |Helpers(s')| - One(Helps(s'.threads[t].pc));
  }

  // A step of t that wakes nobody: the contents grow only with a helper, and a helper goes only
  // with a value or at an empty queue.
  lemma LedgerStays(s: State, s': State, t: Tid)
    requires Ledger(s) && (s.closed ==> s'.closed)
    requires t in s.threads && t in s'.threads && s'.threads == s.threads[t := s'.threads[t]]
    requires !s'.closed && Contents(s') != [] ==>
               && (Listens(s'.threads[t].pc) ==> Listens(s.threads[t].pc))
               && |Contents(s')| + One(Helps(s.threads[t].pc)) <= |Contents(s)| + One(Helps(s'.threads[t].pc))
    ensures Ledger(s')
  {
    hide Contents, Helpers, Listens, Helps;
    HelpersAfter(s, s', t);
  }

  lemma BeginLedger(s: State, a: Action)
    requires Ledger(s) && !a.Go? && a.t in s.threads && Step(s, a).Ok?
    ensures Ledger(Step(s, a).state)
  {
    var s' := Step(s, a).state;
    SameContents(s, s');
    hide Ledger, Contents;
    LedgerStays(s, s', a.t);
  }

  lemma GoLedger(s: State, t: Tid, addr: nat)
    requires Inv(s) && Ledger(s) && t in s.threads && Advance(s, t, addr).Ok? && !Notifies(s.threads[t].pc)
    ensures Ledger(Advance(s, t, addr).state)
  {
    StepContents(s, Go(t, addr));
    EmptyContents(s);
    assert PcOk(s, t);
    hide Inv, Ledger, Contents, PcOk;
    OneThread(s, t, addr);
    if s.closed {
      hide Advance;
      ClosedLedger(Advance(s, t, addr).state);
    } else {
      GoHelps(s, t, addr);
      hide Advance, Helps, Dozes;
      LedgerStays(s, Advance(s, t, addr).state, t);
    }
  }

  lemma EmptyContents(s: State)
    requires Inv(s)
    ensures |s.pushed| == |s.pulled| <==> Contents(s) == []
  {
    hide PlacesOk, HeapOk, PcOk, LocksOk;
  }

  // Only a test that finds the queue empty turns a helper into a listener.
  lemma GoHelps(s: State, t: Tid, addr: nat)
    requires t in s.threads && Advance(s, t, addr).Ok? && PcOk(s, t)
    requires !Notifies(s.threads[t].pc) && !s.closed
    ensures var s' := Advance(s, t, addr).state;
            && t in s'.threads
            && (!(s.threads[t].pc.PullSnap? && |s.pushed| == |s.pulled|) && !s.threads[t].pc.PopHead? ==>
                  && (Listens(s'.threads[t].pc) ==> Listens(s.threads[t].pc))
                  && (Helps(s.threads[t].pc) ==> Helps(s'.threads[t].pc)))
            && (s.threads[t].pc.PushMove? ==> Helps(s'.threads[t].pc))
            && (s.threads[t].pc.PopHead? ==> !Listens(s'.threads[t].pc))
  {
    hide Spare;
    match s.threads[t].pc
    case PopNext =>
    case PopData(_) =>
    case PopHead(_, _) =>
    case PullUnlock(_) =>
    case PushMove(_, _) =>
    case _ =>
  }

  // A push's notify hands its help to the pull it wakes; if none sleeps, none is on its way there.
  lemma NotifyOneLedger(s: State, t: Tid, v: Value, u: Tid)
    requires Ledger(s) && StandsAt(s, t, PushNotify(v)) && Punctual(s, Go(t, u))
    ensures Ledger(NotifyOne(s, t, v, u))
  {
    var s' := NotifyOne(s, t, v, u);
    SameContents(s, s');
    if u in s.threads && s.threads[u].pc.PullAsleep? {
      HelpersAfter(s, Wake(s, u), u);
      HelpersAfter(Wake(s, u), s', t);
      assert Listens(s.threads[u].pc);
    } else if !SomeAsleep(s) && !s.closed {
      forall w | w in s'.threads ensures !Listens(s'.threads[w].pc) { assert w in s.threads; }
    }
  }

  lemma StepLedger(s: State, a: Action)
    requires Inv(s) && ClosedOk(s) && Ledger(s) && Punctual(s, a) && Step(s, a).Ok?
    ensures Ledger(Step(s, a).state)
  {
    hide Inv, Ledger, Punctual;
    if a.t in s.threads {
      if !a.Go? {
        if s.threads[a.t].pc.Idle? { BeginLedger(s, a); }
      } else {
        match s.threads[a.t].pc
        case PushNotify(v) => NotifyOneLedger(s, a.t, v, a.n);
        case CloseNotify =>
          assert KnowsClosed(s.threads[a.t]);
          ClosedLedger(Step(s, a).state);
        case _ =>
          hide Advance;
          GoLedger(s, a.t, a.n);
      }
    }
  }

  lemma ClosedLedger(s: State)
    requires s.closed
    ensures Ledger(s)
  {
  }

  // A thread that does not notify goes to sleep only at an open queue.
  lemma GoSleeps(s: State, t: Tid, addr: nat)
    requires t in s.threads && Advance(s, t, addr).Ok? && !Notifies(s.threads[t].pc) && s.closed
    ensures var s' := Advance(s, t, addr).state;
            t in s'.threads && (Sleeper(s'.threads[t].pc) ==> Sleeper(s.threads[t].pc))
  {
    match s.threads[t].pc
    case PopNext =>
    case PopData(_) =>
    case PopHead(_, _) =>
    case PullUnlock(_) =>
    case _ =>
  }

  lemma StepCloseLedger(s: State, a: Action)
    requires CloseLedger(s) && Punctual(s, a) && Step(s, a).Ok?
    ensures CloseLedger(Step(s, a).state)
  {
    hide Advance;
    if a.t in s.threads && a.Go? {
      GoCloseLedger(s, a.t, a.n);
    } else if a.t in s.threads {
      BeginCloseLedger(s, a);
    }
  }

  lemma BeginCloseLedger(s: State, a: Action)
    requires CloseLedger(s) && a.t in s.threads && !a.Go? && Step(s, a).Ok?
    ensures CloseLedger(Step(s, a).state)
  {
    var s' := Step(s, a).state;
    if !s.threads[a.t].pc.Idle? {
    } else if a.Close? {
      assert s'.threads[a.t].pc.CloseNotify?;
    } else {
      CloseLedgerStays(s, s', a.t);
    }
  }

  lemma CloseLedgerStays(s: State, s': State, t: Tid)
    requires CloseLedger(s) && s'.closed == s.closed && t in s.threads && t in s'.threads
    requires s'.threads == s.threads[t := s'.threads[t]] && !s.threads[t].pc.CloseNotify?
    requires s.closed && Sleeper(s'.threads[t].pc) ==> Sleeper(s.threads[t].pc)
    ensures CloseLedger(s')
  {
    if s.closed && exists u :: u in s'.threads && Sleeper(s'.threads[u].pc) {
      assert exists u :: u in s.threads && Sleeper(s.threads[u].pc);
      var w :| w in s.threads && s.threads[w].pc.CloseNotify?;
      assert s'.threads[w] == s.threads[w];
    }
  }

  lemma GoCloseLedger(s: State, t: Tid, addr: nat)
    requires CloseLedger(s) && t in s.threads && Punctual(s, Go(t, addr)) && Advance(s, t, addr).Ok?
    ensures CloseLedger(Advance(s, t, addr).state)
  {
    hide CloseLedger;
    match s.threads[t].pc
    case CloseNotify => NobodySleeps(s, t);
    case PushNotify(v) => NotifyOneCloseLedger(s, t, v, addr);
    case _ =>
      OneThread(s, t, addr);
      if s.closed { GoSleeps(s, t, addr); }
      hide Advance;
      CloseLedgerStays(s, Advance(s, t, addr).state, t);
  }

  lemma NotifyOneCloseLedger(s: State, t: Tid, v: Value, u: Tid)
    requires CloseLedger(s) && StandsAt(s, t, PushNotify(v))
    ensures CloseLedger(NotifyOne(s, t, v, u))
  {
    hide CloseLedger, SomeAsleep;
    if u in s.threads && s.threads[u].pc.PullAsleep? {
      CloseLedgerStays(s, Wake(s, u), u);
      CloseLedgerStays(Wake(s, u), Sent(Wake(s, u), t, v), t);
    } else {
      CloseLedgerStays(s, Sent(s, t, v), t);
    }
  }

  lemma NobodySleeps(s: State, t: Tid)
    requires StandsAt(s, t, CloseNotify) && forall u :: u in s.threads ==> !s.threads[u].pc.PullSleep?
    ensures CloseLedger(NotifyAll(s, t))
  {
    var s' := NotifyAll(s, t);
    forall u | u in s'.threads ensures !Sleeper(s'.threads[u].pc) { assert u in s.threads; }
  }

  // ----- Main results -----

  lemma {:induction false} RunLedger(s: State, run: seq<Action>)
    requires Inv(s) && ClosedOk(s) && Ledger(s) && CloseLedger(s) && RunPunctual(s, run)
    ensures Exec(s, run).Ok? && Ledger(Exec(s, run).state) && CloseLedger(Exec(s, run).state)
    decreases |run|
  {
    hide Inv, ClosedOk, Ledger, CloseLedger, Punctual;
    if run != [] {
      StepKeeps(s, run[0]);
      StepLedger(s, run[0]);
      StepCloseLedger(s, run[0]);
      ClosedStays(s, run[0]);
      hide Step;
      RunLedger(Step(s, run[0]).state, run[1..]);
    }
  }

  // In a run whose notifies are punctual, the values beside which a pull sleeps at an open queue
  // are no more than the operations that will still wake one, look, or take a value; and a pull that
  // sleeps at a closed queue is about to be woken. At rest, a pull sleeps only at an empty open queue.
  lemma NoneLost(tids: set<Tid>, first: Addr, run: seq<Action>)
    requires first != NULL && RunPunctual(Init(tids, first), run)
    ensures Exec(Init(tids, first), run).Ok?
    ensures var s := Exec(Init(tids, first), run).state;
            SomeAsleep(s) ==>
              && (!s.closed ==> |Contents(s)| <= |Helpers(s)|)
              && (s.closed ==> exists u :: u in s.threads && s.threads[u].pc.CloseNotify?)
              && (AtRest(s) ==> !s.closed && Contents(s) == [])
  {
    InitOk(tids, first);
    RunLedger(Init(tids, first), run);
    var s := Exec(Init(tids, first), run).state;
    hide Inv, Exec, Contents;
    if SomeAsleep(s) {
      var u :| u in s.threads && s.threads[u].pc.PullAsleep?;
      assert Listens(s.threads[u].pc) && Sleeper(s.threads[u].pc);
      if AtRest(s) { assert Helpers(s) == {}; }
    }
  }

  // Every thread is between two operations or asleep.
  predicate AtRest(s: State) {
    forall u :: u in s.threads ==> s.threads[u].pc.Idle? || s.threads[u].pc.PullAsleep?
  }

  // --- Lost wake-ups ---

  // Thread 1 has found the queue empty and open, and is about to sleep.
  lemma ReachTested()
    ensures Reachable({0, 1}, Start(Some(1), PullCompare(true, 1, true)))
  {
    StartReachable();
    assert Init({0, 1}, 1) == Start(None, Idle);
    hide Reachable;
    var s := Onward({0, 1}, Start(None, Idle), Pull(1));
    assert s == Start(None, PullLock(true));
    var s1 := Start(Some(1), PullSnap(true));
    assert To(s, 1, PullSnap(true)).threads == s1.threads;
    Goes(s, 1, NULL, s1);
    var s2 := Start(Some(1), PullCompare(true, 1, true));
    assert To(s1, 1, PullCompare(true, 1, true)).threads == s2.threads;
    Goes(s1, 1, NULL, s2);
  }

  lemma ReachDozing()
    ensures Reachable({0, 1}, Start(Some(1), PullSleep))
  {
    ReachTested();
    hide Reachable;
    var s := Start(Some(1), PullCompare(true, 1, true));
    assert Compare(s, 1, true, 1) == Start(Some(1), PullClosed);
    Goes(s, 1, NULL, Start(Some(1), PullClosed));
    assert To(Start(Some(1), PullClosed), 1, PullSleep) == Start(Some(1), PullSleep);
    Goes(Start(Some(1), PullClosed), 1, NULL, Start(Some(1), PullSleep));
  }

  // A push comes between the test of the pull and its sleep, and notifies nobody: the pull sleeps
  // beside the value, and no operation is under way that could wake it.
  lemma LostWakeUp() returns (s: State)
    ensures Reachable({0, 1}, s) && AtRest(s) && StandsAt(s, 1, PullAsleep)
    ensures !s.closed && Contents(s) == [7] && forall run :: !Awakes(s, 1, run)
  {
    ReachDozing();
    ReachOneIn(Some(1), PullSleep);
    s := OneIn(None, PullAsleep);
    assert Sleep(OneIn(Some(1), PullSleep), 1).threads == s.threads;
    hide Reachable;
    Goes(OneIn(Some(1), PullSleep), 1, NULL, s);
    hide Advance;
    SleepsAlone(s);
  }

  // In the same way a close can notify nobody, and the pull sleeps at a closed queue.
  lemma LostClose() returns (s: State)
    ensures Reachable({0, 1}, s) && AtRest(s) && StandsAt(s, 1, PullAsleep)
    ensures s.closed && forall run :: !Awakes(s, 1, run)
  {
    ReachDozing();
    hide Reachable;
    var s1 := Start(Some(1), PullSleep);
    ReachClosed(s1);
    s := Start(None, PullAsleep).(closed := true);
    assert Sleep(s1.(closed := true), 1).threads == s.threads;
    Goes(s1.(closed := true), 1, NULL, s);
    hide Advance;
    SleepsAlone(s);
  }

  lemma SleepsAlone(s: State)
    requires Reachable({0, 1}, s) && AtRest(s) && StandsAt(s, 1, PullAsleep)
    ensures forall run :: !Awakes(s, 1, run)
  {
    CanWake({0, 1}, s, 1);
    forall u | u in s.threads ensures !WillNotify(s, s.threads[u].pc) {}
  }
}
