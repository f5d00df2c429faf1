/**
 The stack as an object: push and pull in the form the source gives them, with
 the other threads' steps let in before every atomic access. The environment is
 any finite list of bursts of actions by other threads.
 */
module HlStackObject {
  import opened Prelude
  import opened HlStack
  import opened HlStackRuns

  // What the other threads do at one point, and whether the next weak CAS fails for no reason.
  datatype Burst = Burst(actions: seq<Action>, spurious: bool)

  class SyncStack {
    // shared memory
    var head: Ref
    var heap: map<Addr, Node>
    // where each thread stands, and the history variables
    var threads: map<Tid, Thread>
    var chain: seq<Addr>
    var phase: map<Addr, Phase>
    var log: seq<Effect>
    // what the other threads will still do
    var env: seq<Burst>
    // history: the threads, and every state so far, the present one last
    ghost const tids: set<Tid>
    ghost var past: seq<State>

    function View(): State
      reads this
    {
      State(head, heap, threads, chain, phase, log)
    }

    ghost predicate Valid()
      reads this
    {
      Inv(View()) && Lin(View()) && IsRun(past, tids) && past != [] && past[|past| - 1] == View()
    }

    constructor (tids: set<Tid>, env: seq<Burst>)
      ensures Valid() && View() == Init(tids) && this.env == env && this.tids == tids
    {
      var s := Init(tids);
      head, heap, threads, chain, phase, log := s.head, s.heap, s.threads, s.chain, s.phase, s.log;
      this.env := env;
      this.tids, past := tids, [s];
      new;
      InitOk(tids);
    }

    // The step a has just led from the last recorded state to the present one.
    ghost method Record(a: Action)
      requires IsRun(past, tids) && past != [] && Step(past[|past| - 1], a) == Ok(View())
      modifies this`past
      ensures past == old(past) + [View()] && IsRun(past, tids)
    {
      hide Step, Init;
      assert StepTo(past[|past| - 1], View());
      ghost var was := past;
      past := past + [View()];
      forall i | 0 <= i < |past| - 1 ensures StepAt(past, i) {
        if i < |was| - 1 { assert StepAt(was, i); }
      }
    }

    // The step a of some thread.
    method Become(a: Action)
      requires Valid() && Step(View(), a).Ok? && Inv(Step(View(), a).state) && Lin(Step(View(), a).state)
      modifies this
      ensures Valid() && old(past) <= past && Step(old(View()), a) == Ok(View()) && env == old(env)
    {
      hide Inv, Lin, Step, IsRun;
      var s := Step(View(), a).state;
      head, heap, threads, chain, phase, log := s.head, s.heap, s.threads, s.chain, s.phase, s.log;
      Record(a);
    }

    // The other threads run for one burst; thread t stays where it is.
    method Interfere(t: Tid) returns (spurious: bool)
      requires Valid() && t in threads
      modifies this
      ensures Valid() && old(past) <= past && t in threads && threads[t] == old(threads[t]) && old(log) <= log
      ensures old(env) == [] ==> env == [] && View() == old(View()) && !spurious
      ensures OwnStays(old(View()), View(), t)
      ensures old(env) != [] ==> |env| < |old(env)|
    {
      spurious := false;
      if env != [] {
        var burst := env[0];
        env := env[1..];
        spurious := burst.spurious;
        for i := 0 to |burst.actions|
          invariant Valid() && old(past) <= past && t in threads && threads[t] == old(threads[t]) && old(log) <= log
          invariant env == old(env)[1..] && OwnStays(old(View()), View(), t)
        {
          var a := burst.actions[i];
          if a.t != t {
            StepKeeps(View(), a);
            StepLin(View(), a);
            OthersStep(View(), a, t);
            OwnNodeStays(View(), a, t);
            Become(a);
          }
        }
      }
    }

    // new node{ move(val), load(head) }
    method PrepareNode(t: Tid, v: Value, n: Addr)
      requires Valid() && StandsAt(View(), t, Idle) && n != NULL && n !in heap
      modifies this
      ensures Valid() && past == old(past) + [View()] && View() == PushPrepare(old(View()), t, v, n) && env == old(env)
      ensures t in threads && threads[t] == Thread(PushTry(n), old(threads[t].returned)) && log == old(log)
      ensures OwnsNode(View(), t, n, v)
    {
      hide Inv, Lin, IsRun;
      EnterOk(View(), StartPush(t, v, n));
      heap := heap[n := Node(Some(v), head, 0)];
      phase := phase[n := Private(t)];
      threads := threads[t := threads[t].(pc := PushTry(n))];
      Record(StartPush(t, v, n));
    }

    // compare_exchange_weak(head, raw->next, {1, raw})
    method CasHeadWeak(t: Tid, n: Addr, spurious: bool) returns (ok: bool)
      requires Valid() && StandsAt(View(), t, PushTry(n))
      modifies this
      ensures Valid() && past == old(past) + [View()] && env == old(env)
      ensures old(n in heap) && ok == (!spurious && old(head == heap[n].next))
      ensures View() == if ok then PushWin(old(View()), t, n) else PushLose(old(View()), t, n)
    {
      hide Inv, Lin, IsRun;
      OwnNode(View(), t, n);
      GoOk(View(), t, spurious);
      if !spurious && head == heap[n].next {
        var e := Pushed(t, heap[n].data.value);
        head := Ref(1, n);
        chain := chain + [n];
        phase := phase[n := Linked(|chain| - 1)];
        log := log + [e];
        threads := threads[t := Thread(Idle, threads[t].returned + [e])];
        ok := true;
      } else {
        heap := heap[n := heap[n].(next := head)];
        ok := false;
      }
      Record(Go(t, spurious));
    }

    // Entering a pull and loading head.
    method LoadHead(t: Tid) returns (seen: Ref)
      requires Valid() && StandsAt(View(), t, Idle)
      modifies this
      ensures Valid() && old(past) <= past && seen == head && env == old(env)
      ensures View() == old(View()).(threads := At(old(View()), t, PullIncrement(seen)))
    {
      hide Inv, Lin, IsRun;
      EnterOk(View(), StartPull(t));
      threads := threads[t := threads[t].(pc := PullLoad)];
      Record(StartPull(t));
      GoOk(View(), t, false);
      seen := head;
      threads := threads[t := threads[t].(pc := PullIncrement(seen))];
      Record(Go(t, false));
    }

    // compare_exchange_strong(head, seen, temp), which loads head into seen when it fails.
    method CasHeadCount(t: Tid, seen: Ref, temp: Ref) returns (ok: bool, now: Ref)
      requires Valid() && StandsAt(View(), t, PullIncrement(seen))
      requires temp == Ref(seen.count + 1, seen.ptr)
      modifies this
      ensures Valid() && past == old(past) + [View()] && env == old(env)
      ensures ok == (seen == old(head)) && now == old(head)
      ensures View() == if ok then IncrementWin(old(View()), t, seen)
                        else old(View()).(threads := At(old(View()), t, PullIncrement(now)))
    {
      hide Inv, Lin, IsRun;
      GoOk(View(), t, false);
      now := head;
      if head == seen {
        ok := true;
        head := temp;
        if temp.ptr == NULL {
          log := log + [SawEmpty(t)];
          threads := threads[t := Thread(Idle, threads[t].returned + [SawEmpty(t)])];
        } else {
          threads := threads[t := threads[t].(pc := PullRead(temp))];
        }
      } else {
        ok := false;
        threads := threads[t := threads[t].(pc := PullIncrement(head))];
      }
      Record(Go(t, false));
    }

    // Reading raw->next before the CAS.
    method ReadNext(t: Tid, seen: Ref) returns (next: Ref)
      requires Valid() && StandsAt(View(), t, PullRead(seen))
      modifies this
      ensures Valid() && past == old(past) + [View()] && env == old(env) && head == old(head)
      ensures t in threads && threads[t] == Thread(PullCas(seen, next), old(threads[t].returned)) && log == old(log)
    {
      hide Inv, Lin, IsRun;
      GoOk(View(), t, false);
      next := heap[seen.ptr].next;
      threads := threads[t := threads[t].(pc := PullCas(seen, next))];
      Record(Go(t, false));
    }

    // compare_exchange_strong(head, seen, raw->next)
    method CasHead(t: Tid, seen: Ref, next: Ref) returns (ok: bool, now: Ref)
      requires Valid() && StandsAt(View(), t, PullCas(seen, next))
      modifies this
      ensures Valid() && past == old(past) + [View()] && env == old(env)
      ensures ok == (old(head) == seen) && now == old(head)
      ensures View() == if ok then CasWin(old(View()), t, seen, next)
                        else old(View()).(threads := At(old(View()), t, Release(seen.ptr, now)))
    {
      hide Inv, Lin, IsRun;
      GoOk(View(), t, false);
      if head == seen { WinnerOnTop(View(), t, seen, next); }
      now := head;
      if head == seen {
        ok := true;
        head := next;
        chain := chain[..|chain| - 1];
        phase := phase[seen.ptr := Won(t)];
        log := log + [Popped(t, Datum(heap, seen.ptr))];
        threads := threads[t := threads[t].(pc := PullTake(seen))];
      } else {
        ok := false;
        threads := threads[t := threads[t].(pc := Release(seen.ptr, head))];
      }
      Record(Go(t, false));
    }

    // res.swap(raw->data)
    method TakeData(t: Tid, seen: Ref) returns (res: Option<Value>)
      requires Valid() && StandsAt(View(), t, PullTake(seen))
      modifies this
      ensures Valid() && past == old(past) + [View()] && env == old(env) && log == old(log)
      ensures t in threads && threads[t] == Thread(PullMerge(seen, res), old(threads[t].returned)) && res.Some?
      ensures old(seen.ptr in heap) && View() == Take(old(View()), t, seen)
    {
      assert PcOk(View(), t);
      hide Inv, Lin, IsRun;
      GoOk(View(), t, false);
      res := heap[seen.ptr].data;
      heap := heap[seen.ptr := heap[seen.ptr].(data := None)];
      threads := threads[t := threads[t].(pc := PullMerge(seen, res))];
      Record(Go(t, false));
    }

    // fetch_add(raw->count, decrease); was is the value it returns
    method AddCount(t: Tid, seen: Ref, res: Option<Value>, decrease: int) returns (was: int)
      requires Valid() && StandsAt(View(), t, PullMerge(seen, res)) && decrease == seen.count - 2
      modifies this
      ensures Valid() && past == old(past) + [View()] && env == old(env) && log == old(log)
      ensures old(seen.ptr in heap) && was == old(heap[seen.ptr].count)
      ensures View() == Merge(old(View()), t, seen, res)
    {
      hide Inv, Lin, IsRun;
      GoOk(View(), t, false);
      was := heap[seen.ptr].count;
      heap := heap[seen.ptr := heap[seen.ptr].(count := was + decrease)];
      if was == -decrease {
        phase := phase[seen.ptr := Doomed(t)];
        threads := threads[t := threads[t].(pc := PullFree(seen.ptr, res))];
      } else {
        phase := phase[seen.ptr := Shared];
        threads := threads[t := Thread(Idle, threads[t].returned + [Response(t, res)])];
      }
      Record(Go(t, false));
    }

    // delete raw, by the winner
    method DeleteWon(t: Tid, n: Addr, res: Option<Value>)
      requires Valid() && StandsAt(View(), t, PullFree(n, res))
      modifies this
      ensures Valid() && past == old(past) + [View()] && env == old(env) && log == old(log) && old(n in heap)
      ensures View() == Delete(old(View()), n, Back(old(View()), t, Response(t, res)))
    {
      hide Inv, Lin, IsRun;
      GoOk(View(), t, false);
      heap := heap - {n};
      phase := phase - {n};
      threads := threads[t := Thread(Idle, threads[t].returned + [Response(t, res)])];
      Record(Go(t, false));
    }

    // fetch_sub(raw->count, 1)
    method SubCount(t: Tid, n: Addr, seen: Ref) returns (was: int)
      requires Valid() && StandsAt(View(), t, Release(n, seen))
      modifies this
      ensures Valid() && past == old(past) + [View()] && env == old(env) && log == old(log)
      ensures old(n in heap) && was == old(heap[n].count)
      ensures View() == Decrement(old(View()), t, n, seen)
      ensures t in threads
      ensures threads[t] == Thread(if was == 1 then Fence(n, seen) else PullIncrement(seen), old(threads[t].returned))
    {
      hide Inv, Lin, IsRun;
      GoOk(View(), t, false);
      was := heap[n].count;
      heap := heap[n := heap[n].(count := was - 1)];
      if was == 1 {
        phase := phase[n := Doomed(t)];
        threads := threads[t := threads[t].(pc := Fence(n, seen))];
      } else {
        threads := threads[t := threads[t].(pc := PullIncrement(seen))];
      }
      Record(Go(t, false));
    }

    // The acquire load of raw->count before the last releaser deletes the node.
    method FenceCount(t: Tid, n: Addr, seen: Ref)
      requires Valid() && StandsAt(View(), t, Fence(n, seen))
      modifies this
      ensures Valid() && past == old(past) + [View()] && env == old(env) && log == old(log) && old(n in heap)
      ensures View() == old(View()).(threads := At(old(View()), t, Drop(n, seen)))
      ensures t in threads && threads[t] == Thread(Drop(n, seen), old(threads[t].returned))
    {
      hide Inv, Lin, IsRun;
      GoOk(View(), t, false);
      var count := heap[n].count;
      threads := threads[t := threads[t].(pc := Drop(n, seen))];
      Record(Go(t, false));
    }

    // delete raw, by the last thread that lost the CAS
    method DeleteLost(t: Tid, n: Addr, seen: Ref)
      requires Valid() && StandsAt(View(), t, Drop(n, seen))
      modifies this
      ensures Valid() && past == old(past) + [View()] && env == old(env) && log == old(log) && old(n in heap)
      ensures View() == Delete(old(View()), n, At(old(View()), t, PullIncrement(seen)))
      ensures t in threads && threads[t] == Thread(PullIncrement(seen), old(threads[t].returned))
    {
      hide Inv, Lin, IsRun;
      GoOk(View(), t, false);
      heap := heap - {n};
      phase := phase - {n};
      threads := threads[t := threads[t].(pc := PullIncrement(seen))];
      Record(Go(t, false));
    }

    // sync_stack::push. It returns, whatever the other threads do, and its last step adds its one
    // event to the history and its value to the stack, on top.
    method Push(t: Tid, v: Value, n: Addr)
      requires Valid() && StandsAt(View(), t, Idle) && n != NULL && n !in heap
      modifies this
      ensures Valid() && old(past) <= past && old(log) <= log
      ensures t in threads && threads[t] == Thread(Idle, old(threads[t].returned) + [Pushed(t, v)])
      ensures |past| >= |old(past)| + 2 && Decides(past[|past| - 2], View(), Pushed(t, v))
      ensures old(env) == [] ==> Contents(View()) == old(Contents(View())) + [v]
    {
      hide Inv, Lin, IsRun, Contents, PushPrepare, Decides;
      ghost var start := View();
      PrepareNode(t, v, n);
      var ok := false;
      while !ok
        invariant Valid() && old(past) <= past && |past| > |old(past)| && t in threads && old(log) <= log
        invariant if ok then threads[t] == Thread(Idle, old(threads[t].returned) + [Pushed(t, v)])
                             && |past| >= |old(past)| + 2 && Decides(past[|past| - 2], View(), Pushed(t, v))
                  else threads[t] == Thread(PushTry(n), old(threads[t].returned)) && OwnsNode(View(), t, n, v)
        invariant old(env) == [] ==> env == [] && log == old(log) + if ok then [Pushed(t, v)] else []
        decreases |env|, !ok && head != heap[n].next, !ok
      {
        ok := TryPush(t, v, n);
      }
      if old(env) == [] { NextEvent(start, View(), [Pushed(t, v)]); }
    }

    // One round of the loop.
    method TryPush(t: Tid, v: Value, n: Addr) returns (ok: bool)
      requires Valid() && StandsAt(View(), t, PushTry(n)) && OwnsNode(View(), t, n, v)
      modifies this
      ensures Valid() && old(past) <= past && |past| > |old(past)| && t in threads && old(log) <= log
      ensures if ok then threads[t] == Thread(Idle, old(threads[t].returned) + [Pushed(t, v)])
                         && Decides(past[|past| - 2], View(), Pushed(t, v))
              else threads[t] == old(threads[t]) && OwnsNode(View(), t, n, v)
      ensures if old(env) == [] then env == [] && log == old(log) + if ok then [Pushed(t, v)] else []
              else |env| < |old(env)|
      ensures old(env) == [] ==> if old(head == heap[n].next) then ok else !ok && head == heap[n].next
    {
      hide Inv, Lin, IsRun, Contents;
      var spurious := Interfere(t);
      ghost var before := View();
      ok := CasHeadWeak(t, n, spurious);
      assert past[|past| - 2] == before;
      if ok { NextEvent(before, View(), [Pushed(t, v)]); }
    }

    // update_head_count: raises the head's count and returns the counted pointer it installed.
    method UpdateHeadCount(t: Tid, seen0: Ref) returns (seen: Ref)
      requires Valid() && StandsAt(View(), t, PullIncrement(seen0))
      modifies this
      ensures Valid() && old(past) <= past && |past| > |old(past)| && old(log) <= log && t in threads
      ensures |env| <= |old(env)|
      ensures if seen.ptr == NULL then threads[t] == Thread(Idle, old(threads[t].returned) + [SawEmpty(t)])
                                       && Decides(past[|past| - 2], View(), SawEmpty(t))
              else threads[t] == Thread(PullRead(seen), old(threads[t].returned)) && head == seen
      ensures old(env) == [] ==> env == [] && log == old(log) + if seen.ptr == NULL then [SawEmpty(t)] else []
    {
      hide Inv, Lin, IsRun, Decides;
      seen := seen0;
      var ok := false;
      while !ok
        invariant Valid() && old(past) <= past && t in threads && old(log) <= log && |env| <= |old(env)|
        invariant !ok ==> threads[t] == Thread(PullIncrement(seen), old(threads[t].returned))
        invariant ok ==> |past| > |old(past)| && head == seen
        invariant ok ==> if seen.ptr == NULL then threads[t] == Thread(Idle, old(threads[t].returned) + [SawEmpty(t)])
                                                  && Decides(past[|past| - 2], View(), SawEmpty(t))
                         else threads[t] == Thread(PullRead(seen), old(threads[t].returned))
        invariant old(env) == [] ==>
                    env == [] && log == old(log) + if ok && seen.ptr == NULL then [SawEmpty(t)] else []
        decreases |env|, !ok && head != seen, !ok
      {
        ok, seen := TryToCount(t, seen);
      }
    }

    // One round of that loop.
    method TryToCount(t: Tid, seen0: Ref) returns (ok: bool, seen: Ref)
      requires Valid() && StandsAt(View(), t, PullIncrement(seen0))
      modifies this
      ensures Valid() && old(past) <= past && |past| > |old(past)| && old(log) <= log && t in threads && head == seen
      ensures !ok ==> threads[t] == Thread(PullIncrement(seen), old(threads[t].returned))
      ensures ok ==> if seen.ptr == NULL then threads[t] == Thread(Idle, old(threads[t].returned) + [SawEmpty(t)])
                                              && Decides(past[|past| - 2], View(), SawEmpty(t))
                     else threads[t] == Thread(PullRead(seen), old(threads[t].returned))
      ensures if old(env) == [] then env == [] && ok == (old(head) == seen0)
                                     && log == old(log) + if ok && seen.ptr == NULL then [SawEmpty(t)] else []
              else |env| < |old(env)|
    {
      hide Inv, Lin, IsRun, Contents;
      var _ := Interfere(t);
      ghost var before := View();
      var temp := Ref(seen0.count + 1, seen0.ptr);
      var now;
      ok, now := CasHeadCount(t, seen0, temp);
      seen := if ok then temp else now;
      assert past[|past| - 2] == before;
      if ok && seen.ptr == NULL { NextEvent(before, View(), [SawEmpty(t)]); }
    }

    // sync_stack::pull. The step from the recorded state at to the next one decides it: it raises the
    // count of a null head, or takes the top value off. Alone it does that to the stack as it was at the
    // call. A round that loses the CAS consumes part of the environment.
    method Pull(t: Tid) returns (res: Option<Value>, ghost at: nat)
      requires Valid() && StandsAt(View(), t, Idle)
      modifies this
      ensures Valid() && old(past) <= past && old(log) <= log
      ensures t in threads && threads[t] == Thread(Idle, old(threads[t].returned) + [Response(t, res)])
      ensures |old(past)| <= at < |past| - 1 && Decides(past[at], past[at + 1], Response(t, res))
      ensures old(env) == [] ==> Apply(old(Contents(View())), Response(t, res)) == Some(Contents(View()))
    {
      hide Inv, Lin, IsRun, Contents, Decides, Apply;
      ghost var start := View();
      var seen := LoadHead(t);
      var done := false;
      res, at := None, 0;
      while !done
        invariant Valid() && old(past) <= past && |past| > |old(past)| && t in threads && old(log) <= log
        invariant if done then threads[t] == Thread(Idle, old(threads[t].returned) + [Response(t, res)])
                               && |old(past)| <= at < |past| - 1 && Decides(past[at], past[at + 1], Response(t, res))
                  else threads[t] == Thread(PullIncrement(seen), old(threads[t].returned))
        invariant old(env) == [] ==> env == [] && log == old(log) + if done then [Response(t, res)] else []
        decreases |env|, !done
      {
        done, res, seen, at := TryPull(t, seen);
      }
      if old(env) == [] { NextEvent(start, View(), [Response(t, res)]); }
    }

    // One round of the loop.
    method TryPull(t: Tid, seen0: Ref) returns (done: bool, res: Option<Value>, seen: Ref, ghost at: nat)
      requires Valid() && StandsAt(View(), t, PullIncrement(seen0))
      modifies this
      ensures Valid() && old(past) <= past && |past| > |old(past)| && t in threads && old(log) <= log
      ensures |env| <= |old(env)| && (!done ==> |env| < |old(env)|)
      ensures if done then threads[t] == Thread(Idle, old(threads[t].returned) + [Response(t, res)])
                           && |old(past)| - 1 <= at < |past| - 1 && Decides(past[at], past[at + 1], Response(t, res))
              else threads[t] == Thread(PullIncrement(seen), old(threads[t].returned))
      ensures old(env) == [] ==> env == [] && log == old(log) + if done then [Response(t, res)] else []
    {
      hide Inv, Lin, IsRun, Contents, Decides;
      seen := UpdateHeadCount(t, seen0);
      var raw := seen.ptr;
      done, res, at := true, None, |past| - 2;
      if raw != NULL {
        var now;
        ghost var v;
        done, now, at, v := TryToWin(t, seen);
        if done {
          res := FinishPull(t, seen, v);
        } else {
          seen := now;
          ReleaseNode(t, raw, seen);
        }
      }
    }

    // Read the link of the top node and try to take that node off the stack.
    method TryToWin(t: Tid, seen: Ref) returns (ok: bool, now: Ref, ghost at: nat, ghost v: Value)
      requires Valid() && StandsAt(View(), t, PullRead(seen)) && head == seen
      modifies this
      ensures Valid() && old(past) <= past && |past| > |old(past)| && old(log) <= log && t in threads
      ensures |env| <= |old(env)| && (!ok ==> |env| < |old(env)|)
      ensures ok ==> threads[t] == Thread(PullTake(seen), old(threads[t].returned))
      ensures ok ==> |old(past)| <= at == |past| - 2 && Decides(past[at], past[at + 1], Popped(t, v))
      ensures ok ==> Pending(View(), t) == [Popped(t, v)]
      ensures !ok ==> threads[t] == Thread(Release(seen.ptr, now), old(threads[t].returned))
      ensures old(env) == [] ==> env == [] && ok && log == old(log) + [Popped(t, v)]
    {
      hide Inv, Lin, IsRun, Contents, Apply;
      var _ := Interfere(t);
      var next := ReadNext(t, seen);
      var _ := Interfere(t);
      ghost var before := View();
      ok, now := CasHead(t, seen, next);
      at, v := |past| - 2, Datum(before.heap, seen.ptr);
      assert past[at] == before;
      if ok { NextEvent(before, View(), [Popped(t, v)]); }
    }

    // The winner's part of a pull.
    method FinishPull(t: Tid, seen: Ref, ghost v: Value) returns (res: Option<Value>)
      requires Valid() && StandsAt(View(), t, PullTake(seen)) && Pending(View(), t) == [Popped(t, v)]
      modifies this
      ensures Valid() && old(past) <= past && |past| > |old(past)| && old(log) <= log && |env| <= |old(env)|
      ensures t in threads && threads[t] == Thread(Idle, old(threads[t].returned) + [Response(t, res)])
      ensures res == Some(v)
      ensures old(env) == [] ==> env == [] && log == old(log)
    {
      hide Inv, Lin, IsRun, Take;
      ghost var start := View();
      var _ := Interfere(t);
      res := TakeData(t, seen);
      MergeCounts(t, seen, res);
      SameAnswer(start, View(), t, Popped(t, v), Response(t, res));
    }

    // The counts are merged, and the node is deleted if nobody else holds it.
    method MergeCounts(t: Tid, seen: Ref, res: Option<Value>)
      requires Valid() && StandsAt(View(), t, PullMerge(seen, res))
      modifies this
      ensures Valid() && old(past) <= past && |past| > |old(past)| && old(log) <= log && |env| <= |old(env)|
      ensures t in threads && threads[t] == Thread(Idle, old(threads[t].returned) + [Response(t, res)])
      ensures old(env) == [] ==> env == [] && log == old(log)
    {
      hide Inv, Lin, IsRun;
      var _ := Interfere(t);
      var decrease := seen.count - 2;
      var was := AddCount(t, seen, res, decrease);
      if was == -decrease {
        var _ := Interfere(t);
        DeleteWon(t, seen.ptr, res);
      }
    }

    // The loser's part: give the count back, and delete the node if it was the last one.
    method ReleaseNode(t: Tid, n: Addr, seen: Ref)
      requires Valid() && StandsAt(View(), t, Release(n, seen))
      modifies this
      ensures Valid() && old(past) <= past && old(log) <= log && |env| <= |old(env)|
      ensures t in threads && threads[t] == Thread(PullIncrement(seen), old(threads[t].returned))
    {
      hide Inv, Lin, IsRun, Decrement, Delete;
      var _ := Interfere(t);
      var was := SubCount(t, n, seen);
      if was == 1 {
        var _ := Interfere(t);
        FenceCount(t, n, seen);
        var _ := Interfere(t);
        DeleteLost(t, n, seen);
      }
    }
  }

  // The step from s to s' adds this event to the history and to the stack.
  predicate Decides(s: State, s': State, e: Effect) {
    s'.log == s.log + [e] && Apply(Contents(s), e) == Some(Contents(s'))
  }

  // The node that thread t is about to publish with v in it.
  predicate OwnsNode(s: State, t: Tid, n: Addr, v: Value) {
    n in s.heap && n in s.phase && s.phase[n] == Private(t) && s.heap[n].data == Some(v)
  }

  lemma {:induction false} ProjectPrefix(log: seq<Effect>, log': seq<Effect>, t: Tid)
    requires log <= log'
    ensures Project(log, t) <= Project(log', t)
    decreases |log'|
  {
    if |log| < |log'| {
      ProjectPrefix(log, log'[..|log'| - 1], t);
    } else {
      assert log == log';
    }
  }

  // A pull answers with the event it caused.
  lemma SameAnswer(s: State, s': State, t: Tid, e: Effect, e': Effect)
    requires Lin(s) && Lin(s') && s.log <= s'.log && t in s.threads && Pending(s, t) == [e]
    requires t in s'.threads && s'.threads[t] == Thread(Idle, s.threads[t].returned + [e'])
    ensures e' == e
  {
    ProjectPrefix(s.log, s'.log, t);
    var n := |s.threads[t].returned|;
    assert Project(s.log, t)[n] == e && Project(s'.log, t)[n] == e' by {
      assert Project(s.log, t) == s.threads[t].returned + [e];
      assert Project(s'.log, t) == s.threads[t].returned + [e'] + [];
    }
  }

  // Thread t's unpublished node is untouched between two states.
  ghost predicate OwnStays(s: State, s': State, t: Tid) {
    forall n :: n in s.phase && n in s.heap && s.phase[n] == Private(t) ==>
      n in s'.phase && n in s'.heap && s'.phase[n] == Private(t) && s'.heap[n] == s.heap[n]
  }

  // The node that a push is about to publish.
  lemma OwnNode(s: State, t: Tid, n: Addr)
    requires Inv(s) && t in s.threads && s.threads[t].pc == PushTry(n)
    ensures n in s.heap && s.heap[n].data.Some?
  {
    assert PcOk(s, t);
    assert NodeOk(s, n);
  }

  // A thread's next step, and the start of an operation, do not fault and keep the invariants.
  lemma GoOk(s: State, t: Tid, spurious: bool)
    requires Inv(s) && Lin(s) && t in s.threads
    ensures var out := Advance(s, t, spurious); out.Ok? && Inv(out.state) && Lin(out.state)
  {
    hide Inv, Lin, Advance;
    StepKeeps(s, Go(t, spurious));
    StepLin(s, Go(t, spurious));
  }

  lemma EnterOk(s: State, a: Action)
    requires Inv(s) && Lin(s)
    ensures Step(s, a).Ok? && Inv(Step(s, a).state) && Lin(Step(s, a).state)
  {
    hide Inv, Lin, Step;
    StepKeeps(s, a);
    StepLin(s, a);
  }

  lemma OtherNodeStays(s: State, a: Action, n: Addr)
    requires a.t in s.threads && n in s.phase && n in s.heap && NodeOf(s.threads[a.t].pc) != n && Step(s, a).Ok?
    ensures var s' := Step(s, a).state;
            n in s'.phase && n in s'.heap && s'.phase[n] == s.phase[n] && s'.heap[n] == s.heap[n]
  {
  }

  lemma OwnNodeStays(s: State, a: Action, t: Tid)
    requires Inv(s) && t in s.threads && a.t != t && Step(s, a).Ok?
    ensures OwnStays(s, Step(s, a).state, t)
  {
    if a.t in s.threads {
      assert PcOk(s, a.t);
      forall n | n in s.phase && n in s.heap && s.phase[n] == Private(t)
        ensures var s' := Step(s, a).state;
                n in s'.phase && n in s'.heap && s'.phase[n] == Private(t) && s'.heap[n] == s.heap[n]
      {
        OtherNodeStays(s, a, n);
      }
    }
  }

  // A step of another thread leaves thread t where it is and only adds to the log.
  lemma OthersStep(s: State, a: Action, t: Tid)
    requires t in s.threads && a.t != t && Step(s, a).Ok?
    ensures var s' := Step(s, a).state; t in s'.threads && s'.threads[t] == s.threads[t] && s.log <= s'.log
  {
  }
}
