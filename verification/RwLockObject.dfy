/**
 The readers-writer lock as an object: its four operations in the form the source
 gives them, with a burst of other threads' steps before every atomic access. When
 the bursts are used up, a thread that spins lets the holders leave one by one; so
 every spin ends.
 */
module RwLockObject {
  import opened Prelude
  import opened RwLock

  // What the other threads do at one point, and whether the next weak CAS fails for no reason.
  datatype Burst = Burst(actions: seq<Action>, spurious: bool)

  class LockObject {
    var word: int
    var threads: map<Tid, Pc>
    var env: seq<Burst>
    // history: the threads, and every state so far, the present one last
    ghost const tids: set<Tid>
    ghost var past: seq<State>

    function View(): State
      reads this
    {
      State(word, threads)
    }

    ghost predicate Valid()
      reads this
    {
      Inv(View()) && IsRun(past, tids) && past != [] && past[|past| - 1] == View()
    }

    constructor (tids: set<Tid>, env: seq<Burst>)
      ensures Valid() && View() == Init(tids) && this.env == env && this.tids == tids
    {
      word := R_FREE;
      threads := map t | t in tids :: Idle;
      this.env := env;
      this.tids, past := tids, [Init(tids)];
      new;
      assert Readers(View()) == {} && Writers(View()) == {};
    }

    // The step a has just led from the last recorded state to the present one.
    ghost method Record(a: Action)
      requires IsRun(past, tids) && past != [] && Step(past[|past| - 1], a) == View()
      modifies this`past
      ensures past == old(past) + [View()] && IsRun(past, tids)
    {
      hide Step, Init;
      assert StepTo(past[|past| - 1], View());
      ghost var was := past;
      past := past + [View()];
      forall i | 0 <= i < |past| - 1 ensures StepAt(past, i) {
        if i < |was| - 1 { assert StepAt(was, i); }
      }
    }

    method OtherStep(t: Tid, a: Action)
      requires Valid() && t in threads && a.t != t
      modifies this
      ensures Valid() && old(past) <= past && t in threads && threads[t] == old(threads[t]) && env == old(env)
    {
      StepKeeps(View(), a);
      hide IsRun, Inv;
      var s := Step(View(), a);
      word, threads := s.word, s.threads;
      Record(a);
    }

    // The other threads run for one burst; thread t stays where it is.
    method Interfere(t: Tid) returns (spurious: bool)
      requires Valid() && t in threads
      modifies this
      ensures Valid() && old(past) <= past && t in threads && threads[t] == old(threads[t])
      ensures if old(env) == [] then env == [] && View() == old(View()) && !spurious else |env| < |old(env)|
    {
      hide IsRun, Inv;
      spurious := false;
      if env != [] {
        var burst := env[0];
        env := env[1..];
        spurious := burst.spurious;
        for i := 0 to |burst.actions|
          invariant Valid() && old(past) <= past
          invariant t in threads && threads[t] == old(threads[t]) && env == old(env)[1..]
        {
          if burst.actions[i].t != t { OtherStep(t, burst.actions[i]); }
        }
      }
    }

    // A holder of the lock, which t is not, leaves.
    method HolderLeaves(t: Tid)
      requires Valid() && t in threads && !threads[t].Reading? && !threads[t].Writing? && word != R_FREE
      modifies this
      ensures Valid() && old(past) <= past && t in threads && threads[t] == old(threads[t]) && env == old(env)
      ensures Holders(View()) < old(Holders(View()))
    {
      SomeHolder(View());
      var u :| u in threads && (threads[u].Reading? || threads[u].Writing?);
      LeaveCounts(View(), u);
      StepKeeps(View(), Go(u, false));
      hide IsRun, Inv, Holders;
      var s := Step(View(), Go(u, false));
      word, threads := s.word, s.threads;
      Record(Go(u, false));
    }

    // r_lock: it returns as a reader, with a number that is made from the number of readers.
    method ReadAcquire(t: Tid) returns (number: nat)
      requires Valid() && t in threads && threads[t].Idle?
      modifies this
      ensures Valid() && old(past) <= past && t in threads && threads[t].Reading?
      ensures |past| >= |old(past)| + 3 && TookPart(past[|past| - 2], View())
      ensures word == R_FREE + |Readers(View())| && number == And(word, NUM)
      ensures number == |Readers(View())| <==> SmallDigits(|Readers(View())|, 6)
    {
      hide IsRun, Inv, Holders;
      StepKeeps(View(), ReadLock(t));
      threads := threads[t := ReadLoad];
      Record(ReadLock(t));
      var held := false;
      while !held
        invariant Valid() && old(past) <= past && t in threads && threads[t] == if held then Reading else ReadLoad
        invariant |past| > |old(past)|
        invariant held ==> |past| >= |old(past)| + 3 && TookPart(past[|past| - 2], View())
        decreases !held, |env|, Holders(View())
      {
        held := TryToRead(t);
      }
      ReaderInside(View(), t);
      number := And(word, NUM);
      NumberReturned(word - R_FREE);
    }

    // One round of the spin.
    method TryToRead(t: Tid) returns (held: bool)
      requires Valid() && t in threads && threads[t] == ReadLoad
      modifies this
      ensures Valid() && old(past) <= past && t in threads && threads[t] == if held then Reading else ReadLoad
      ensures held ==> |past| >= |old(past)| + 2 && TookPart(past[|past| - 2], View())
      ensures !held ==> |env| < |old(env)| || (env == old(env) && Holders(View()) < old(Holders(View())))
    {
      hide IsRun, Inv, Holders;
      var last := env == [];
      var _ := Interfere(t);
      var seen := word;
      StepKeeps(View(), Go(t, false));
      held := false;
      if FreeBit(seen) {
        NoWrap(View());
        threads := threads[t := ReadCas(seen)];
        Record(Go(t, false));
        var _ := Interfere(t);
        ghost var before := View();
        held := CasWord(t, seen);
        assert past[|past| - 2] == before;
      } else if last {
        HolderLeaves(t);
      }
    }

    // cnt.compare_exchange_strong(old, old + 1)
    method CasWord(t: Tid, seen: int) returns (ok: bool)
      requires Valid() && t in threads && threads[t] == ReadCas(seen)
      modifies this
      ensures Valid() && past == old(past) + [View()] && env == old(env) && ok == (old(word) == seen)
      ensures View() == if ok then State(Wrap(seen + 1), old(threads)[t := Reading])
                        else old(View()).(threads := old(threads)[t := ReadLoad])
    {
      hide IsRun, Inv;
      StepKeeps(View(), Go(t, false));
      ok := word == seen;
      if ok { word := Wrap(seen + 1); }
      threads := threads[t := if ok then Reading else ReadLoad];
      Record(Go(t, false));
    }

    // r_unlock: fetch_sub(1)
    method ReadRelease(t: Tid)
      requires Valid() && t in threads && threads[t].Reading?
      modifies this
      ensures Valid() && past == old(past) + [View()] && env == old(env)
      ensures word == old(word) - 1 && threads == old(threads)[t := Idle]
    {
      ReaderPresent(View(), t);
      FreeBitMeaning(View());
      hide IsRun, Inv;
      StepKeeps(View(), Go(t, false));
      word := Wrap(word - 1);
      threads := threads[t := Idle];
      Record(Go(t, false));
    }

    // w_lock: it returns as the writer, and the only holder.
    method WriteAcquire(t: Tid)
      requires Valid() && t in threads && threads[t].Idle?
      modifies this
      ensures Valid() && old(past) <= past && t in threads && threads[t].Writing? && word == W_FREE
      ensures Readers(View()) == {} && Writers(View()) == {t}
      ensures |past| >= |old(past)| + 2 && past[|past| - 2].word == R_FREE
    {
      hide IsRun, Inv, Holders;
      StepKeeps(View(), WriteLock(t));
      threads := threads[t := WriteTry];
      Record(WriteLock(t));
      var held := false;
      while !held
        invariant Valid() && old(past) <= past && t in threads && threads[t] == if held then Writing else WriteTry
        invariant |past| > |old(past)|
        invariant held ==> word == W_FREE && |past| >= |old(past)| + 2 && past[|past| - 2].word == R_FREE
        decreases !held, |env|, Holders(View())
      {
        var last := env == [];
        var spurious := Interfere(t);
        StepKeeps(View(), Go(t, spurious));
        if !spurious && word == R_FREE {
          word := W_FREE;
          threads := threads[t := Writing];
          held := true;
          Record(Go(t, spurious));
        } else if last {
          HolderLeaves(t);
        }
      }
      WriterInside(View(), t);
    }

    // w_unlock: store(R_FREE)
    method WriteRelease(t: Tid)
      requires Valid() && t in threads && threads[t].Writing?
      modifies this
      ensures Valid() && past == old(past) + [View()] && env == old(env)
      ensures View() == State(R_FREE, old(threads)[t := Idle])
    {
      hide IsRun, Inv;
      StepKeeps(View(), Go(t, false));
      word := R_FREE;
      threads := threads[t := Idle];
      Record(Go(t, false));
    }
  }

  // From s to s' one reader more has taken the lock, and the word has not wrapped.
  predicate TookPart(s: State, s': State) {
    FreeBit(s.word) && s'.word == s.word + 1
  }

  lemma NoWrap(s: State)
    requires Inv(s) && FreeBit(s.word)
    ensures Wrap(s.word + 1) == s.word + 1
  {
    FreeBitMeaning(s);
  }

  ghost function Holders(s: State): nat {
    |Readers(s)| + |Writers(s)|
  }

  lemma SomeHolder(s: State)
    requires Inv(s) && s.word != R_FREE
    ensures exists u :: u in s.threads && (s.threads[u].Reading? || s.threads[u].Writing?)
  {
    if s.word == W_FREE {
      var u :| u in Writers(s);
      assert s.threads[u].Writing?;
    } else {
      var u :| u in Readers(s);
      assert s.threads[u].Reading?;
    }
  }

  lemma LeaveCounts(s: State, u: Tid)
    requires Inv(s) && u in s.threads && (s.threads[u].Reading? || s.threads[u].Writing?)
    ensures Holders(Step(s, Go(u, false))) == Holders(s) - 1
  {
    ReadersAfter(s, Step(s, Go(u, false)), u, Idle);
    WritersAfter(s, Step(s, Go(u, false)), u, Idle);
  }

  lemma ReaderInside(s: State, t: Tid)
    requires Inv(s) && t in s.threads && s.threads[t].Reading?
    ensures s.word == R_FREE + |Readers(s)|
  {
    ReaderPresent(s, t);
  }

  lemma WriterInside(s: State, t: Tid)
    requires Inv(s) && t in s.threads && s.threads[t].Writing?
    ensures Readers(s) == {} && Writers(s) == {t}
  {
    WriterPresent(s, t);
  }
}
