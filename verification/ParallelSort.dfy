/**
 parallel_sort on the default pool: a fork-join quicksort in which a thread that
 waits for its child runs other queued tasks on top of its own stack.

 Every call of do_sort is an entry of calls; its local variables are in its
 stage. The pool's queue is the part of tasks not yet taken. Each thread has a
 stack of calls, its running call on top. place and born are history.
 */
module ParallelSort {
  import opened Prelude

  type Elem = int
  type Order = (Elem, Elem) -> bool
  type Id = nat

  // The thread that called parallel_sort; all other threads are pool workers.
  const MAIN: Tid := 0

  datatype Kind = Root | Higher(parent: Id) | Task(parent: Id)

  datatype Stage =
    | Fresh                                                  // nothing done yet
    | Submitted(pivot: Elem, rest: seq<Elem>, lower: Id)     // lower chunk queued, about to sort the rest
    | Sorting(pivot: Elem, lower: Id, higher: Id)            // inside its own recursive call
    | Polling(res: seq<Elem>, lower: Id)                     // about to poll the future
    | Helping(res: seq<Elem>, lower: Id)                     // future not ready, about to try one task
    | Done(res: seq<Elem>)

  datatype Place = Queued(pos: nat) | On(t: Tid, pos: nat) | Finished

  datatype Call = Call(input: seq<Elem>, kind: Kind, stage: Stage, place: Place, born: nat)

  datatype State = State(
    calls: seq<Call>,
    tasks: seq<Id>,              // every task ever submitted, in order
    next: nat,                   // the queue is tasks[next..]
    stacks: map<Tid, seq<Id>>,   // bottom first
    clock: nat)

  // Thread t takes its next step; lo and hi are what std::partition produces, if it is called.
  datatype Action = Action(t: Tid, lo: seq<Elem>, hi: seq<Elem>)

  ghost predicate StrictWeak(less: Order) {
    && (forall x :: !less(x, x))
    && (forall x, y, z :: less(x, y) && less(y, z) ==> less(x, z))
    && (forall x, y, z :: less(x, y) ==> less(x, z) || less(z, y))
  }

  // No element comes after a greater one.
  predicate Sorted(less: Order, xs: seq<Elem>) {
    forall i, j :: 0 <= i < j < |xs| ==> !less(xs[j], xs[i])
  }

  // What std::partition guarantees: a rearrangement with the smaller elements first.
  predicate Partitioned(less: Order, pivot: Elem, xs: seq<Elem>, lo: seq<Elem>, hi: seq<Elem>) {
    && multiset(lo) + multiset(hi) == multiset(xs)
    && (forall x :: x in lo ==> less(x, pivot))
    && (forall x :: x in hi ==> !less(x, pivot))
  }

  function Init(input: seq<Elem>, workers: set<Tid>): State {
    State([Call(input, Root, Fresh, On(MAIN, 0), 0)], [], 0,
          (map t | t in workers :: [])[MAIN := [0]], 1)
  }

  // ----- The atomic steps -----

  predicate Running(s: State, t: Tid) {
    t in s.stacks && s.stacks[t] != [] && s.stacks[t][|s.stacks[t]| - 1] < |s.calls|
  }

  function Top(s: State, t: Tid): (c: Id)
    requires Running(s, t)
    ensures c < |s.calls|
  {
    s.stacks[t][|s.stacks[t]| - 1]
  }

  // Partition the list and submit the lower chunk as a task.
  function Split(s: State, c: Id, lo: seq<Elem>, hi: seq<Elem>): State
    requires c < |s.calls| && s.calls[c].input != []
  {
    var id := |s.calls|;
    var stage := Submitted(s.calls[c].input[0], hi, id);
    var task := Call(lo, Task(c), Fresh, Queued(|s.tasks|), 0);
    s.(calls := s.calls[c := s.calls[c].(stage := stage)] + [task], tasks := s.tasks + [id])
  }

  // Call do_sort on the rest, on the same stack.
  function Recurse(s: State, t: Tid, c: Id): State
    requires t in s.stacks && c < |s.calls| && s.calls[c].stage.Submitted?
  {
    var id := |s.calls|;
    var Submitted(pivot, rest, lower) := s.calls[c].stage;
    var call := Call(rest, Higher(c), Fresh, On(t, |s.stacks[t]|), s.clock);
    s.(calls := s.calls[c := s.calls[c].(stage := Sorting(pivot, lower, id))] + [call],
       stacks := s.stacks[t := s.stacks[t] + [id]], clock := s.clock + 1)
  }

  // The running call returns res. A recursive call's result goes to the caller below it.
  function Return(s: State, t: Tid, c: Id, res: seq<Elem>): State
    requires Running(s, t) && c < |s.calls|
  {
    var calls := s.calls[c := s.calls[c].(stage := Done(res), place := Finished)];
    var stacks := s.stacks[t := s.stacks[t][..|s.stacks[t]| - 1]];
    match s.calls[c].kind
    case Higher(p) =>
      if p < |calls| && calls[p].stage.Sorting? then
        var Sorting(pivot, lower, _) := calls[p].stage;
        s.(calls := calls[p := calls[p].(stage := Polling([pivot] + res, lower))], stacks := stacks)
      else s.(calls := calls, stacks := stacks)
    case _ => s.(calls := calls, stacks := stacks)
  }

  // Take the oldest task off the queue and run it on top of the stack.
  function Take(s: State, t: Tid): State
    requires t in s.stacks && s.next < |s.tasks| && s.tasks[s.next] < |s.calls|
  {
    var d := s.tasks[s.next];
    s.(calls := s.calls[d := s.calls[d].(place := On(t, |s.stacks[t]|), born := s.clock)],
       next := s.next + 1,
       stacks := s.stacks[t := s.stacks[t] + [d]],
       clock := s.clock + 1)
  }

  predicate CanTake(s: State) {
    s.next < |s.tasks| && s.tasks[s.next] < |s.calls|
  }

  function Restage(s: State, c: Id, stage: Stage): State
    requires c < |s.calls|
  {
    s.(calls := s.calls[c := s.calls[c].(stage := stage)])
  }

  function Step(less: Order, s: State, a: Action): State {
    var t := a.t;
    if t !in s.stacks then s
    else if !Running(s, t) then
      if t != MAIN && s.stacks[t] == [] && CanTake(s) then Take(s, t) else s
    else
      var c := Top(s, t);
      match s.calls[c].stage
      case Fresh =>
        if s.calls[c].input == [] then Return(s, t, c, [])
        else if Partitioned(less, s.calls[c].input[0], s.calls[c].input[1..], a.lo, a.hi) then Split(s, c, a.lo, a.hi)
        else s
      case Submitted(_, _, _) => Recurse(s, t, c)
      case Sorting(_, _, _) => s
      case Polling(res, lower) =>
        if lower < |s.calls| && s.calls[lower].stage.Done? then Return(s, t, c, s.calls[lower].stage.res + res)
        else Restage(s, c, Helping(res, lower))
      case Helping(res, lower) =>
        var back := Restage(s, c, Polling(res, lower));
        if CanTake(s) then Take(back, t) else back
      case Done(_) => s
  }

  function Exec(less: Order, s: State, run: seq<Action>): State
    decreases |run|
  {
    if run == [] then s else Exec(less, Step(less, s, run[0]), run[1..])
  }

  // ----- The invariant -----

  ghost predicate CallOk(less: Order, s: State, c: Id)
    requires c < |s.calls|
  {
    var call := s.calls[c];
    && (call.kind.Root? ==> c == 0)
    && (!call.kind.Root? ==> call.kind.parent < c)
    && (call.place.Finished? <==> call.stage.Done?)
    && (call.place.On? ==> call.born < s.clock)
    && (call.place.On? && !call.kind.Root? ==> s.calls[call.kind.parent].born < call.born)
    && (call.place.Queued? ==> call.kind.Task? && call.stage.Fresh?)
    && (call.kind.Task? ==>
          || Waits(s.calls[call.kind.parent].stage, c)
          || (s.calls[call.kind.parent].stage.Done? && call.stage.Done?))
    && (call.kind.Higher? && !call.stage.Done? ==>
          && s.calls[call.kind.parent].stage.Sorting?
          && s.calls[call.kind.parent].stage.higher == c)
    && StageOk(less, s, c)
  }

  // The call whose stage this is has lower as its unjoined child.
  predicate Waits(stage: Stage, lower: Id) {
    match stage
    case Submitted(_, _, l) => l == lower
    case Sorting(_, l, _) => l == lower
    case Polling(_, l) => l == lower
    case Helping(_, l) => l == lower
    case _ => false
  }

  ghost predicate IsTaskOf(s: State, lower: Id, c: Id) {
    lower < |s.calls| && s.calls[lower].kind == Task(c)
  }

  // The values: what is still to be done with the call's input.
  ghost predicate StageOk(less: Order, s: State, c: Id)
    requires c < |s.calls|
  {
    var input := s.calls[c].input;
    match s.calls[c].stage
    case Fresh => true
    case Submitted(pivot, rest, lower) =>
      && IsTaskOf(s, lower, c) && input != [] && pivot == input[0]
      && Partitioned(less, pivot, input[1..], s.calls[lower].input, rest)
    case Sorting(pivot, lower, higher) =>
      && IsTaskOf(s, lower, c) && higher < |s.calls| && s.calls[higher].kind == Higher(c)
      && !s.calls[higher].stage.Done?
      && input != [] && pivot == input[0]
      && Partitioned(less, pivot, input[1..], s.calls[lower].input, s.calls[higher].input)
    case Polling(res, lower) => IsTaskOf(s, lower, c) && Upper(less, input, s.calls[lower].input, res)
    case Helping(res, lower) => IsTaskOf(s, lower, c) && Upper(less, input, s.calls[lower].input, res)
    case Done(res) => Sorted(less, res) && multiset(res) == multiset(input)
  }

  // res is the sorted upper part of input: the pivot first, then all that is not below it.
  predicate Upper(less: Order, input: seq<Elem>, lower: seq<Elem>, res: seq<Elem>) {
    && res != [] && Sorted(less, res)
    && multiset(lower) + multiset(res) == multiset(input)
    && (forall x :: x in lower ==> less(x, res[0]))
    && (forall x :: x in res ==> !less(x, res[0]))
  }

  ghost predicate StackOk(s: State, t: Tid)
    requires t in s.stacks
  {
    var st := s.stacks[t];
    && (forall i :: 0 <= i < |st| ==> st[i] < |s.calls| && s.calls[st[i]].place == On(t, i))
    && (forall i :: 0 <= i < |st| - 1 ==> Covers(s, st[i], st[i + 1]))
    && (st != [] ==> !s.calls[st[|st| - 1]].stage.Sorting?)
    && (st != [] && s.calls[st[0]].kind.Root? ==> t == MAIN)
    && (st != [] ==> !s.calls[st[0]].kind.Higher?)
  }

  // Call d runs directly on top of call c.
  ghost predicate Covers(s: State, c: Id, d: Id) {
    && c < |s.calls| && d < |s.calls|
    && s.calls[c].born < s.calls[d].born
    && match s.calls[d].kind
       case Root => false
       case Higher(p) => p == c && s.calls[c].stage.Sorting?
       case Task(_) => s.calls[c].stage.Polling?
  }

  ghost predicate QueueOk(s: State) {
    && s.next <= |s.tasks|
    && (forall k :: s.next <= k < |s.tasks| ==> s.tasks[k] < |s.calls| && s.calls[s.tasks[k]].place == Queued(k))
    && (forall c :: 0 <= c < |s.calls| && s.calls[c].place.Queued? ==>
          s.next <= s.calls[c].place.pos < |s.tasks| && s.tasks[s.calls[c].place.pos] == c)
  }

  ghost predicate PlacesOk(s: State) {
    forall c :: 0 <= c < |s.calls| && s.calls[c].place.On? ==>
      var On(t, i) := s.calls[c].place; t in s.stacks && i < |s.stacks[t]| && s.stacks[t][i] == c
  }

  ghost predicate Inv(less: Order, s: State) {
    && |s.calls| > 0 && s.calls[0].kind.Root?
    && (forall c :: 0 <= c < |s.calls| ==> CallOk(less, s, c))
    && (forall t :: t in s.stacks ==> StackOk(s, t))
    && QueueOk(s) && PlacesOk(s)
  }

  // A call with an unchanged entry stays in order when its relatives keep what it relies on.
  lemma CallStays(less: Order, s: State, s': State, c: Id)
    requires c < |s.calls| <= |s'.calls| && CallOk(less, s, c) && s'.calls[c] == s.calls[c] && s.clock <= s'.clock
    requires forall d :: 0 <= d < |s.calls| ==>
               s'.calls[d].input == s.calls[d].input && s'.calls[d].kind == s.calls[d].kind
    requires var k := s.calls[c].kind; !k.Root? ==>
               var q, q' := s.calls[k.parent], s'.calls[k.parent];
               && (s.calls[c].place.On? ==> q'.born == q.born)
               && (q'.stage == q.stage || (k.Task? && Waits(q.stage, c) && Waits(q'.stage, c))
                   || (k.Task? && s.calls[c].stage.Done? && q'.stage.Done?)
                   || (k.Higher? && s.calls[c].stage.Done?))
    requires s.calls[c].stage.Sorting? ==>
               var d := s.calls[c].stage.higher; s'.calls[d].stage.Done? == s.calls[d].stage.Done?
    ensures CallOk(less, s', c)
  {
  }

  lemma StackStays(s: State, s': State, t: Tid)
    requires t in s.stacks && StackOk(s, t) && t in s'.stacks && s'.stacks[t] == s.stacks[t]
    requires |s.calls| <= |s'.calls|
    requires forall i :: 0 <= i < |s.stacks[t]| ==> SameFrame(s, s', s.stacks[t][i])
    requires forall i :: 0 <= i < |s.stacks[t]| - 1 ==> SameStage(s, s', s.stacks[t][i])
    requires Running(s, t) ==> !s'.calls[Top(s, t)].stage.Sorting?
    ensures StackOk(s', t)
  {
    var st := s.stacks[t];
    forall i | 0 <= i < |st| - 1 ensures Covers(s', st[i], st[i + 1]) {
      assert Covers(s, st[i], st[i + 1]);
      assert SameFrame(s, s', st[i]) && SameFrame(s, s', st[i + 1]);
    }
    forall i | 0 <= i < |st| ensures st[i] < |s'.calls| && s'.calls[st[i]].place == On(t, i) {
      assert SameFrame(s, s', st[i]);
    }
    if st != [] { assert SameFrame(s, s', st[0]); }
  }

  ghost predicate SameFrame(s: State, s': State, c: Id) {
    && c < |s.calls| && c < |s'.calls|
    && s'.calls[c].kind == s.calls[c].kind
    && s'.calls[c].place == s.calls[c].place
    && s'.calls[c].born == s.calls[c].born
  }

  ghost predicate SameStage(s: State, s': State, c: Id) {
    c < |s.calls| && c < |s'.calls| && s'.calls[c].stage == s.calls[c].stage
  }

  lemma PollCalls(less: Order, s: State, t: Tid, stage: Stage)
    requires Inv(less, s) && Running(s, t)
    requires var now := s.calls[Top(s, t)].stage;
             || (now.Polling? && stage == Helping(now.res, now.lower))
             || (now.Helping? && stage == Polling(now.res, now.lower))
    ensures var s' := Restage(s, Top(s, t), stage); forall d :: 0 <= d < |s'.calls| ==> CallOk(less, s', d)
  {
    hide StackOk, QueueOk, PlacesOk, Partitioned, Upper, Sorted;
    var c := Top(s, t);
    var s' := Restage(s, c, stage);
    assert CallOk(less, s, c);
    forall d | 0 <= d < |s'.calls| ensures CallOk(less, s', d) {
      assert CallOk(less, s, d);
      if d != c { CallStays(less, s, s', d); }
    }
  }

  lemma OnlyTop(s: State, t: Tid, u: Tid, i: nat)
    requires Running(s, t) && StackOk(s, t) && u in s.stacks && StackOk(s, u)
    requires i < |s.stacks[u]| && s.stacks[u][i] == Top(s, t)
    ensures u == t && i == |s.stacks[t]| - 1
  {
    assert s.calls[Top(s, t)].place == On(t, |s.stacks[t]| - 1);
  }

  // No stack changes when only the stage of t's running call does.
  lemma TopRestaged(less: Order, s: State, s': State, t: Tid, u: Tid)
    requires Inv(less, s) && Running(s, t) && u in s.stacks && s'.stacks == s.stacks && |s.calls| <= |s'.calls|
    requires forall c :: 0 <= c < |s.calls| ==> SameFrame(s, s', c) && (c != Top(s, t) ==> SameStage(s, s', c))
    requires !s'.calls[Top(s, t)].stage.Sorting?
    ensures StackOk(s', u)
  {
    hide CallOk, QueueOk, PlacesOk;
    assert StackOk(s, t) && StackOk(s, u);
    forall i | 0 <= i < |s.stacks[u]| - 1 ensures SameStage(s, s', s.stacks[u][i]) {
      if s.stacks[u][i] == Top(s, t) { OnlyTop(s, t, u, i); }
    }
    StackStays(s, s', u);
  }

  lemma RestagePlaces(s: State, c: Id, stage: Stage)
    requires QueueOk(s) && PlacesOk(s) && c < |s.calls|
    ensures QueueOk(Restage(s, c, stage)) && PlacesOk(Restage(s, c, stage))
  {
  }

  lemma PollKeeps(less: Order, s: State, t: Tid, stage: Stage)
    requires Inv(less, s) && Running(s, t)
    requires var now := s.calls[Top(s, t)].stage;
             || (now.Polling? && stage == Helping(now.res, now.lower))
             || (now.Helping? && stage == Polling(now.res, now.lower))
    ensures Inv(less, Restage(s, Top(s, t), stage))
  {
    hide CallOk;
    var s' := Restage(s, Top(s, t), stage);
    PollCalls(less, s, t, stage);
    forall u | u in s'.stacks ensures StackOk(s', u) {
      TopRestaged(less, s, s', t, u);
    }
    RestagePlaces(s, Top(s, t), stage);
    hide StackOk, QueueOk, PlacesOk;
  }

  lemma StackGrows(s: State, s': State, t: Tid, d: Id)
    requires t in s.stacks && StackOk(s, t) && t in s'.stacks && s'.stacks[t] == s.stacks[t] + [d]
    requires |s.calls| <= |s'.calls| && d < |s'.calls| && s'.calls[d].place == On(t, |s.stacks[t]|)
    requires forall i :: 0 <= i < |s.stacks[t]| ==> SameFrame(s, s', s.stacks[t][i])
    requires forall i :: 0 <= i < |s.stacks[t]| - 1 ==> SameStage(s, s', s.stacks[t][i])
    requires !s'.calls[d].stage.Sorting?
    requires if Running(s, t) then Covers(s', Top(s, t), d) else t != MAIN && s'.calls[d].kind.Task?
    ensures StackOk(s', t)
  {
    var st, st' := s.stacks[t], s'.stacks[t];
    forall i | 0 <= i < |st'| - 1 ensures Covers(s', st'[i], st'[i + 1]) {
      if i < |st| - 1 {
        assert Covers(s, st[i], st[i + 1]);
        assert SameFrame(s, s', st[i]) && SameFrame(s, s', st[i + 1]);
      }
    }
    forall i | 0 <= i < |st'| ensures st'[i] < |s'.calls| && s'.calls[st'[i]].place == On(t, i) {
      if i < |st| { assert SameFrame(s, s', st[i]); }
    }
    if st != [] { assert SameFrame(s, s', st[0]); }
  }

  // --- Split ---

  lemma SplitOther(less: Order, s: State, c: Id, lo: seq<Elem>, hi: seq<Elem>, d: Id)
    requires Inv(less, s) && c < |s.calls| && s.calls[c].stage.Fresh? && s.calls[c].input != []
    requires d < |s.calls| && d != c
    ensures CallOk(less, Split(s, c, lo, hi), d)
  {
    hide StackOk, QueueOk, PlacesOk, Partitioned, Upper, Sorted;
    assert CallOk(less, s, c) && CallOk(less, s, d);
    CallStays(less, s, Split(s, c, lo, hi), d);
  }

  lemma SplitSelf(less: Order, s: State, c: Id, lo: seq<Elem>, hi: seq<Elem>)
    requires Inv(less, s) && c < |s.calls| && s.calls[c].stage.Fresh? && s.calls[c].input != []
    requires Partitioned(less, s.calls[c].input[0], s.calls[c].input[1..], lo, hi) && s.calls[c].place.On?
    ensures CallOk(less, Split(s, c, lo, hi), c) && CallOk(less, Split(s, c, lo, hi), |s.calls|)
  {
    hide StackOk, QueueOk, PlacesOk, Upper, Sorted, Partitioned;
    assert CallOk(less, s, c);
  }

  lemma SplitCalls(less: Order, s: State, t: Tid, lo: seq<Elem>, hi: seq<Elem>)
    requires Inv(less, s) && Running(s, t)
    requires var call := s.calls[Top(s, t)];
             call.stage.Fresh? && call.input != [] && Partitioned(less, call.input[0], call.input[1..], lo, hi)
    ensures var s' := Split(s, Top(s, t), lo, hi); forall d :: 0 <= d < |s'.calls| ==> CallOk(less, s', d)
  {
    var c := Top(s, t);
    var s' := Split(s, c, lo, hi);
    assert StackOk(s, t);
    hide Inv, CallOk, StackOk, Partitioned;
    SplitSelf(less, s, c, lo, hi);
    forall d | 0 <= d < |s'.calls| ensures CallOk(less, s', d) {
      if d != c && d < |s.calls| { SplitOther(less, s, c, lo, hi, d); }
    }
  }

  lemma SplitPlaces(s: State, c: Id, lo: seq<Elem>, hi: seq<Elem>)
    requires QueueOk(s) && PlacesOk(s) && c < |s.calls| && s.calls[c].input != []
    ensures QueueOk(Split(s, c, lo, hi)) && PlacesOk(Split(s, c, lo, hi))
  {
  }

  lemma SplitKeeps(less: Order, s: State, t: Tid, lo: seq<Elem>, hi: seq<Elem>)
    requires Inv(less, s) && Running(s, t)
    requires var call := s.calls[Top(s, t)];
             call.stage.Fresh? && call.input != [] && Partitioned(less, call.input[0], call.input[1..], lo, hi)
    ensures Inv(less, Split(s, Top(s, t), lo, hi))
  {
    hide CallOk;
    var s' := Split(s, Top(s, t), lo, hi);
    SplitCalls(less, s, t, lo, hi);
    forall u | u in s'.stacks ensures StackOk(s', u) {
      TopRestaged(less, s, s', t, u);
    }
    SplitPlaces(s, Top(s, t), lo, hi);
    hide StackOk, Partitioned, QueueOk, PlacesOk;
  }

  // --- Recurse ---

  // The calls other than the caller and the new one.
  lemma RecurseOther(less: Order, s: State, t: Tid, d: Id)
    requires Inv(less, s) && Running(s, t) && s.calls[Top(s, t)].stage.Submitted? && d < |s.calls| && d != Top(s, t)
    ensures CallOk(less, Recurse(s, t, Top(s, t)), d)
  {
    hide StackOk, QueueOk, PlacesOk, Partitioned, Upper, Sorted;
    var c := Top(s, t);
    assert CallOk(less, s, c) && CallOk(less, s, d);
    CallStays(less, s, Recurse(s, t, c), d);
  }

  lemma RecurseSelf(less: Order, s: State, t: Tid)
    requires Inv(less, s) && Running(s, t) && s.calls[Top(s, t)].stage.Submitted?
    requires s.calls[Top(s, t)].place.On?
    ensures CallOk(less, Recurse(s, t, Top(s, t)), Top(s, t)) && CallOk(less, Recurse(s, t, Top(s, t)), |s.calls|)
  {
    hide StackOk, QueueOk, PlacesOk, Upper, Sorted, Partitioned;
    assert CallOk(less, s, Top(s, t));
  }

  lemma RecurseCalls(less: Order, s: State, t: Tid)
    requires Inv(less, s) && Running(s, t) && s.calls[Top(s, t)].stage.Submitted?
    ensures var s' := Recurse(s, t, Top(s, t)); forall d :: 0 <= d < |s'.calls| ==> CallOk(less, s', d)
  {
    var c := Top(s, t);
    var s' := Recurse(s, t, c);
    assert StackOk(s, t);
    hide Inv, CallOk, StackOk;
    RecurseSelf(less, s, t);
    forall d | 0 <= d < |s'.calls| ensures CallOk(less, s', d) {
      if d != c && d < |s.calls| { RecurseOther(less, s, t, d); }
    }
  }

  lemma RecurseStack(less: Order, s: State, t: Tid, u: Tid)
    requires Inv(less, s) && Running(s, t) && s.calls[Top(s, t)].stage.Submitted? && u in s.stacks
    requires s.calls[Top(s, t)].born < s.clock
    ensures StackOk(Recurse(s, t, Top(s, t)), u)
  {
    hide CallOk, QueueOk, PlacesOk;
    var c := Top(s, t);
    var s' := Recurse(s, t, c);
    assert StackOk(s, t) && StackOk(s, u);
    forall i | 0 <= i < |s.stacks[u]| ensures SameFrame(s, s', s.stacks[u][i]) {}
    forall i | 0 <= i < |s.stacks[u]| - 1 ensures SameStage(s, s', s.stacks[u][i]) {
      if s.stacks[u][i] == c { OnlyTop(s, t, u, i); }
    }
    if u != t {
      StackStays(s, s', u);
    } else {
      StackGrows(s, s', t, |s.calls|);
    }
  }

  lemma RecursePlaces(s: State, t: Tid, c: Id)
    requires QueueOk(s) && PlacesOk(s) && t in s.stacks && c < |s.calls| && s.calls[c].stage.Submitted?
    ensures QueueOk(Recurse(s, t, c)) && PlacesOk(Recurse(s, t, c))
  {
  }

  lemma RecurseKeeps(less: Order, s: State, t: Tid)
    requires Inv(less, s) && Running(s, t) && s.calls[Top(s, t)].stage.Submitted?
    ensures Inv(less, Recurse(s, t, Top(s, t)))
  {
    var c := Top(s, t);
    var s' := Recurse(s, t, c);
    assert StackOk(s, t);
    assert CallOk(less, s, c);
    RecurseCalls(less, s, t);
    RecursePlaces(s, t, c);
    hide CallOk, QueueOk, PlacesOk;
    forall u | u in s'.stacks ensures StackOk(s', u) {
      RecurseStack(less, s, t, u);
    }
    hide StackOk;
  }

  // --- Take ---

  lemma TakeOther(less: Order, s: State, t: Tid, e: Id)
    requires Inv(less, s) && t in s.stacks && CanTake(s) && e < |s.calls| && e != s.tasks[s.next]
    ensures CallOk(less, Take(s, t), e)
  {
    hide StackOk, PlacesOk, Partitioned, Upper, Sorted;
    var d := s.tasks[s.next];
    assert CallOk(less, s, d) && CallOk(less, s, e);
    CallStays(less, s, Take(s, t), e);
  }

  lemma TakeSelf(less: Order, s: State, t: Tid)
    requires Inv(less, s) && t in s.stacks && CanTake(s)
    ensures CallOk(less, Take(s, t), s.tasks[s.next])
  {
    hide StackOk, PlacesOk, Upper, Sorted, Partitioned;
    var d := s.tasks[s.next];
    assert CallOk(less, s, d);
    assert CallOk(less, s, s.calls[d].kind.parent);
  }

  lemma TakeCalls(less: Order, s: State, t: Tid)
    requires Inv(less, s) && t in s.stacks && CanTake(s)
    ensures var s' := Take(s, t); forall d :: 0 <= d < |s'.calls| ==> CallOk(less, s', d)
  {
    hide Inv, CallOk;
    TakeSelf(less, s, t);
    forall e | 0 <= e < |Take(s, t).calls| ensures CallOk(less, Take(s, t), e) {
      if e != s.tasks[s.next] { TakeOther(less, s, t, e); }
    }
  }

  lemma TakeFacts(less: Order, s: State, t: Tid)
    requires Inv(less, s) && t in s.stacks && CanTake(s)
    ensures var d := s.tasks[s.next];
            s.calls[d].place == Queued(s.next) && s.calls[d].kind.Task? && s.calls[d].stage.Fresh?
    ensures Running(s, t) ==> s.calls[Top(s, t)].born < s.clock
    ensures s.stacks[t] != [] ==> Running(s, t)
  {
    assert CallOk(less, s, s.tasks[s.next]);
    assert StackOk(s, t);
    if Running(s, t) { assert CallOk(less, s, Top(s, t)); }
  }

  lemma TakeStack(less: Order, s: State, t: Tid, u: Tid)
    requires Inv(less, s) && t in s.stacks && CanTake(s) && u in s.stacks
    requires s.stacks[t] == [] ==> t != MAIN
    requires Running(s, t) ==> s.calls[Top(s, t)].stage.Polling?
    ensures StackOk(Take(s, t), u)
  {
    var d := s.tasks[s.next];
    var s' := Take(s, t);
    TakeFacts(less, s, t);
    hide CallOk, QueueOk, PlacesOk;
    assert StackOk(s, u);
    forall i | 0 <= i < |s.stacks[u]| ensures SameFrame(s, s', s.stacks[u][i]) && SameStage(s, s', s.stacks[u][i]) {}
    if u != t {
      StackStays(s, s', u);
    } else {
      StackGrows(s, s', t, d);
    }
  }

  lemma TakePlaces(s: State, t: Tid)
    requires QueueOk(s) && PlacesOk(s) && t in s.stacks && CanTake(s)
    ensures QueueOk(Take(s, t)) && PlacesOk(Take(s, t))
  {
  }

  lemma TakeKeeps(less: Order, s: State, t: Tid)
    requires Inv(less, s) && t in s.stacks && CanTake(s)
    requires s.stacks[t] == [] ==> t != MAIN
    requires Running(s, t) ==> s.calls[Top(s, t)].stage.Polling?
    ensures Inv(less, Take(s, t))
  {
    TakeFacts(less, s, t);
    TakeCalls(less, s, t);
    TakePlaces(s, t);
    hide CallOk, QueueOk, PlacesOk;
    forall u | u in Take(s, t).stacks ensures StackOk(Take(s, t), u) {
      TakeStack(less, s, t, u);
    }
    hide StackOk;
  }

  // --- Return ---

  // A call may return: nothing to do, or the future is ready.
  ghost predicate Ready(less: Order, s: State, t: Tid, res: seq<Elem>) {
    Running(s, t) &&
    var call := s.calls[Top(s, t)];
    || (call.stage.Fresh? && call.input == [] && res == [])
    || (call.stage.Polling? && call.stage.lower < |s.calls| && s.calls[call.stage.lower].stage.Done?
        && res == s.calls[call.stage.lower].stage.res + call.stage.res)
  }

  lemma InMultiset(xs: seq<Elem>, ys: seq<Elem>)
    requires multiset(xs) == multiset(ys)
    ensures forall x :: x in xs <==> x in ys
  {
    forall x ensures x in xs <==> x in ys {
      assert x in xs <==> x in multiset(xs);
    }
  }

  lemma Across(less: Order, x: Elem, pivot: Elem, y: Elem)
    requires StrictWeak(less) && less(x, pivot) && !less(y, pivot)
    ensures !less(y, x)
  {
  }

  // The sorted lower part in front of the sorted upper part is sorted.
  lemma Join(less: Order, input: seq<Elem>, lower: seq<Elem>, sorted: seq<Elem>, res: seq<Elem>)
    requires StrictWeak(less) && Upper(less, input, lower, res)
    requires Sorted(less, sorted) && multiset(sorted) == multiset(lower)
    ensures Sorted(less, sorted + res) && multiset(sorted + res) == multiset(input)
  {
    InMultiset(sorted, lower);
    var all := sorted + res;
    forall i, j | 0 <= i < j < |all| ensures !less(all[j], all[i]) {
      if i < |sorted| <= j {
        var x, y := sorted[i], res[j - |sorted|];
        assert all[i] == x && all[j] == y && x in sorted && y in res;
        assert less(x, res[0]) && !less(y, res[0]);
        Across(less, x, res[0], y);
      } else if j < |sorted| {
        assert all[i] == sorted[i] && all[j] == sorted[j];
      } else {
        assert all[i] == res[i - |sorted|] && all[j] == res[j - |sorted|];
      }
    }
  }

  // The pivot in front of the sorted rest is the upper part.
  lemma Hook(less: Order, input: seq<Elem>, lower: seq<Elem>, rest: seq<Elem>, sorted: seq<Elem>)
    requires StrictWeak(less) && input != [] && Partitioned(less, input[0], input[1..], lower, rest)
    requires Sorted(less, sorted) && multiset(sorted) == multiset(rest)
    ensures Upper(less, input, lower, [input[0]] + sorted)
  {
    InMultiset(sorted, rest);
    assert input == [input[0]] + input[1..];
    var all := [input[0]] + sorted;
    forall i, j | 0 <= i < j < |all| ensures !less(all[j], all[i]) {
      assert all[j] == sorted[j - 1] && sorted[j - 1] in sorted;
      if i > 0 { assert all[i] == sorted[i - 1]; }
    }
  }

  lemma ReadyValue(less: Order, s: State, t: Tid, res: seq<Elem>)
    requires StrictWeak(less) && Inv(less, s) && Ready(less, s, t, res)
    ensures Sorted(less, res) && multiset(res) == multiset(s.calls[Top(s, t)].input)
  {
    var c := Top(s, t);
    assert CallOk(less, s, c);
    if s.calls[c].stage.Polling? {
      var lower := s.calls[c].stage.lower;
      assert CallOk(less, s, lower);
      Join(less, s.calls[c].input, s.calls[lower].input, s.calls[lower].stage.res, s.calls[c].stage.res);
    }
  }

  lemma ReturnCall(less: Order, s: State, t: Tid, res: seq<Elem>, d: Id)
    requires StrictWeak(less) && Inv(less, s) && Ready(less, s, t, res) && d < |s.calls|
    ensures CallOk(less, Return(s, t, Top(s, t), res), d)
  {
    ReadyValue(less, s, t, res);
    hide CallOk, StackOk, QueueOk, PlacesOk;
    if d == Top(s, t) {
      ReturnSelf(less, s, t, res);
    } else if s.calls[Top(s, t)].kind == Higher(d) {
      ReturnCaller(less, s, t, res);
    } else {
      ReturnBystander(less, s, t, res, d);
    }
  }

  lemma ReturnCaller(less: Order, s: State, t: Tid, res: seq<Elem>)
    requires StrictWeak(less) && Inv(less, s) && Ready(less, s, t, res) && s.calls[Top(s, t)].kind.Higher?
    requires Sorted(less, res) && multiset(res) == multiset(s.calls[Top(s, t)].input)
    requires s.calls[Top(s, t)].kind.parent < |s.calls|
    ensures CallOk(less, Return(s, t, Top(s, t), res), s.calls[Top(s, t)].kind.parent)
  {
    hide StackOk, QueueOk, PlacesOk, Upper, Sorted, Partitioned;
    var c := Top(s, t);
    var d := s.calls[c].kind.parent;
    ReturnFacts(less, s, t);
    assert CallOk(less, s, c) && CallOk(less, s, d);
    Hook(less, s.calls[d].input, s.calls[s.calls[d].stage.lower].input, s.calls[c].input, res);
  }

  // What a returning call's relatives rely on.
  lemma ReturnRelative(less: Order, s: State, t: Tid, res: seq<Elem>, d: Id)
    requires Inv(less, s) && Ready(less, s, t, res) && d < |s.calls|
    requires d != Top(s, t) && s.calls[Top(s, t)].kind != Higher(d) && !s.calls[d].kind.Root?
    ensures var c, k := Top(s, t), s.calls[d].kind;
            && k.parent < d
            && (k.parent == c ==> s.calls[d].stage.Done?)
            && (s.calls[c].kind == Higher(k.parent) ==>
                  if k.Task? then Waits(s.calls[k.parent].stage, d) else s.calls[d].stage.Done?)
  {
    var c := Top(s, t);
    assert CallOk(less, s, c) && CallOk(less, s, d);
    hide StackOk, QueueOk, PlacesOk;
    if s.calls[d].kind.parent == c && s.calls[c].stage.Polling? {
      assert s.calls[d].kind.Task? ==> d == s.calls[c].stage.lower;
    }
  }

  lemma ReturnBystander(less: Order, s: State, t: Tid, res: seq<Elem>, d: Id)
    requires Inv(less, s) && Ready(less, s, t, res) && d < |s.calls|
    requires d != Top(s, t) && s.calls[Top(s, t)].kind != Higher(d)
    ensures CallOk(less, Return(s, t, Top(s, t), res), d)
  {
    hide StackOk, QueueOk, PlacesOk, Upper, Sorted, Partitioned;
    var c := Top(s, t);
    ReturnFacts(less, s, t);
    if !s.calls[d].kind.Root? { ReturnRelative(less, s, t, res, d); }
    assert CallOk(less, s, d);
    assert s.calls[d].stage.Sorting? ==> s.calls[d].stage.higher != c;
    CallStays(less, s, Return(s, t, c, res), d);
  }

  lemma ReturnSelf(less: Order, s: State, t: Tid, res: seq<Elem>)
    requires Inv(less, s) && Ready(less, s, t, res)
    requires Sorted(less, res) && multiset(res) == multiset(s.calls[Top(s, t)].input)
    ensures CallOk(less, Return(s, t, Top(s, t), res), Top(s, t))
  {
    ReturnFacts(less, s, t);
    assert CallOk(less, s, Top(s, t));
    hide StackOk, QueueOk, PlacesOk;
  }

  // What lies under a call that returns.
  lemma ReturnFacts(less: Order, s: State, t: Tid)
    requires Inv(less, s) && Running(s, t) && (s.calls[Top(s, t)].stage.Fresh? || s.calls[Top(s, t)].stage.Polling?)
    ensures var c := Top(s, t);
            var st := s.stacks[t];
            && s.calls[c].place == On(t, |st| - 1)
            && (s.calls[c].kind.Higher? ==>
                  && |st| > 1 && st[|st| - 2] == s.calls[c].kind.parent < c
                  && s.calls[s.calls[c].kind.parent].stage.Sorting?)
            && (|st| > 1 && !s.calls[c].kind.Higher? ==> s.calls[st[|st| - 2]].stage.Polling?)
  {
    var c, st := Top(s, t), s.stacks[t];
    assert StackOk(s, t);
    assert CallOk(less, s, c);
    if |st| > 1 { assert Covers(s, st[|st| - 2], c); }
  }

  lemma ReturnStack(less: Order, s: State, t: Tid, res: seq<Elem>)
    requires Inv(less, s) && Ready(less, s, t, res)
    ensures StackOk(Return(s, t, Top(s, t), res), t)
  {
    var c := Top(s, t);
    var s' := Return(s, t, c, res);
    assert StackOk(s, t);
    ReturnFacts(less, s, t);
    hide CallOk, QueueOk, PlacesOk;
    var st := s.stacks[t];
    forall i | 0 <= i < |st| - 1 ensures SameFrame(s, s', st[i]) {}
    forall i | 0 <= i < |st| - 2 ensures Covers(s', st[i], st[i + 1]) {
      assert Covers(s, st[i], st[i + 1]);
      assert SameFrame(s, s', st[i]) && SameFrame(s, s', st[i + 1]);
    }
    forall i | 0 <= i < |st| - 1 ensures st[i] < |s'.calls| && s'.calls[st[i]].place == On(t, i) {
      assert SameFrame(s, s', st[i]);
    }
    if |st| > 1 { assert SameFrame(s, s', st[0]); }
  }

  lemma ReturnOther(less: Order, s: State, t: Tid, res: seq<Elem>, u: Tid)
    requires Inv(less, s) && Ready(less, s, t, res) && u in s.stacks && u != t
    ensures StackOk(Return(s, t, Top(s, t), res), u)
  {
    var s' := Return(s, t, Top(s, t), res);
    assert StackOk(s, t) && StackOk(s, u);
    ReturnFacts(less, s, t);
    hide CallOk, QueueOk, PlacesOk;
    forall i | 0 <= i < |s.stacks[u]| ensures SameFrame(s, s', s.stacks[u][i]) && SameStage(s, s', s.stacks[u][i]) {}
    StackStays(s, s', u);
  }

  lemma ReturnPlaces(less: Order, s: State, t: Tid, res: seq<Elem>)
    requires Inv(less, s) && Ready(less, s, t, res)
    ensures QueueOk(Return(s, t, Top(s, t), res)) && PlacesOk(Return(s, t, Top(s, t), res))
  {
    hide CallOk, StackOk;
    ReturnFacts(less, s, t);
  }

  lemma ReturnKeeps(less: Order, s: State, t: Tid, res: seq<Elem>)
    requires StrictWeak(less) && Inv(less, s) && Ready(less, s, t, res)
    ensures Inv(less, Return(s, t, Top(s, t), res))
  {
    var s' := Return(s, t, Top(s, t), res);
    ReturnPlaces(less, s, t, res);
    hide QueueOk, PlacesOk, CallOk, StackOk;
    forall d | 0 <= d < |s'.calls| ensures CallOk(less, s', d) {
      ReturnCall(less, s, t, res, d);
    }
    forall u | u in s'.stacks ensures StackOk(s', u) {
      if u == t { ReturnStack(less, s, t, res); } else { ReturnOther(less, s, t, res, u); }
    }
  }

  // ----- Every step -----

  lemma StepKeeps(less: Order, s: State, a: Action)
    requires StrictWeak(less) && Inv(less, s)
    ensures Inv(less, Step(less, s, a))
  {
    var t := a.t;
    if t in s.stacks {
      assert StackOk(s, t);
      if !Running(s, t) {
        if t != MAIN && s.stacks[t] == [] && CanTake(s) { TakeKeeps(less, s, t); }
      } else {
        var c := Top(s, t);
        match s.calls[c].stage
        case Fresh =>
          if s.calls[c].input == [] { ReturnKeeps(less, s, t, []); }
          else if Partitioned(less, s.calls[c].input[0], s.calls[c].input[1..], a.lo, a.hi) {
            SplitKeeps(less, s, t, a.lo, a.hi);
          }
        case Submitted(_, _, _) => RecurseKeeps(less, s, t);
        case Sorting(_, _, _) =>
        case Polling(res, lower) =>
          if lower < |s.calls| && s.calls[lower].stage.Done? {
            ReturnKeeps(less, s, t, s.calls[lower].stage.res + res);
          } else {
            PollKeeps(less, s, t, Helping(res, lower));
          }
        case Helping(res, lower) =>
          PollKeeps(less, s, t, Polling(res, lower));
          if CanTake(s) { TakeKeeps(less, Restage(s, c, Polling(res, lower)), t); }
        case Done(_) =>
      }
    }
  }

  lemma InitOk(less: Order, input: seq<Elem>, workers: set<Tid>)
    requires MAIN !in workers
    ensures Inv(less, Init(input, workers))
  {
    var s := Init(input, workers);
    assert CallOk(less, s, 0);
    forall t | t in s.stacks ensures StackOk(s, t) {}
  }

  lemma {:induction false} RunKeeps(less: Order, s: State, run: seq<Action>)
    requires StrictWeak(less) && Inv(less, s)
    ensures Inv(less, Exec(less, s, run))
    ensures Exec(less, s, run).calls[0].input == s.calls[0].input
    decreases |run|
  {
    if run != [] {
      StepKeeps(less, s, run[0]);
      RootStays(less, s, run[0]);
      RunKeeps(less, Step(less, s, run[0]), run[1..]);
    }
  }

  lemma RootStays(less: Order, s: State, a: Action)
    requires Inv(less, s)
    ensures Step(less, s, a).calls != [] && Step(less, s, a).calls[0].input == s.calls[0].input
  {
    hide CallOk, StackOk, PlacesOk, QueueOk;
  }
}
