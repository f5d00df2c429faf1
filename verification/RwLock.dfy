/**
 The readers-writer spin lock: one 32-bit word that is 0 while a writer holds the
 lock and R_FREE plus the number of readers otherwise. Clients are paired: a
 thread unlocks what it has locked. One atomic access is one step.
 */
module RwLock {
  import opened Prelude

  const WORD := 0x1_0000_0000
  const R_FREE := 0x0100_0000
  const W_FREE := 0
  const NUM := 0x0011_1111

  datatype Pc =
    | Idle
    | ReadLoad             // r_lock: about to load the word
    | ReadCas(seen: int)   // saw the R_FREE bit set: about to CAS seen to seen + 1
    | Reading
    | WriteTry             // w_lock: about to CAS R_FREE to W_FREE
    | Writing

  datatype State = State(word: int, threads: map<Tid, Pc>)

  // spurious: a weak CAS fails although the value matches.
  datatype Action = ReadLock(t: Tid) | WriteLock(t: Tid) | Go(t: Tid, spurious: bool)

  function Init(tids: set<Tid>): State {
    State(R_FREE, map t | t in tids :: Idle)
  }

  // word & R_FREE, for a word of 32 bits: bit 24.
  predicate FreeBit(word: int) {
    (word / R_FREE) % 2 == 1
  }

  // Addition and subtraction of uint32_t wrap around.
  function Wrap(x: int): int {
    x % WORD
  }

  function Step(s: State, a: Action): State {
    if a.t !in s.threads then s
    else match a
      case ReadLock(t) => if s.threads[t].Idle? then s.(threads := s.threads[t := ReadLoad]) else s
      case WriteLock(t) => if s.threads[t].Idle? then s.(threads := s.threads[t := WriteTry]) else s
      case Go(t, spurious) =>
        match s.threads[t]
        case Idle => s
        case ReadLoad => if FreeBit(s.word) then s.(threads := s.threads[t := ReadCas(s.word)]) else s
        case ReadCas(seen) =>
          if s.word == seen then State(Wrap(seen + 1), s.threads[t := Reading])
          else s.(threads := s.threads[t := ReadLoad])
        case Reading => State(Wrap(s.word - 1), s.threads[t := Idle])
        case WriteTry =>
          if !spurious && s.word == R_FREE then State(W_FREE, s.threads[t := Writing]) else s
        case Writing => State(R_FREE, s.threads[t := Idle])
  }

  function Exec(s: State, run: seq<Action>): State
    decreases |run|
  {
    if run == [] then s else Exec(Step(s, run[0]), run[1..])
  }

  ghost function Readers(s: State): set<Tid> {
    set t | t in s.threads && s.threads[t].Reading?
  }

  ghost function Writers(s: State): set<Tid> {
    set t | t in s.threads && s.threads[t].Writing?
  }

  // Either one writer and no reader and the word is 0, or no writer and the word counts the readers.
  ghost predicate WordOk(s: State) {
    || (s.word == W_FREE && |Writers(s)| == 1 && Readers(s) == {})
    || (s.word == R_FREE + |Readers(s)| && Writers(s) == {} && |Readers(s)| <= R_FREE)
  }

  ghost predicate Inv(s: State) {
    && WordOk(s)
    && forall t :: t in s.threads && s.threads[t].ReadCas? ==>
         0 <= s.threads[t].seen < WORD && FreeBit(s.threads[t].seen)
  }

  // The bit is set exactly while there is no writer and fewer than 2^24 readers.
  lemma FreeBitMeaning(s: State)
    requires WordOk(s)
    ensures FreeBit(s.word) <==> Writers(s) == {} && |Readers(s)| < R_FREE
    ensures 0 <= s.word <= 2 * R_FREE
  {
    if s.word != W_FREE {
      var r := |Readers(s)|;
      assert s.word == R_FREE + r;
      if r < R_FREE { assert s.word / R_FREE == 1; } else { assert s.word / R_FREE == 2; }
    } else {
      assert |Writers(s)| == 1;
    }
  }

  // One thread moves: only its own membership changes.
  lemma ReadersAfter(s: State, s': State, t: Tid, pc: Pc)
    requires t in s.threads && s'.threads == s.threads[t := pc]
    ensures |Readers(s')| == |Readers(s)| - (if s.threads[t].Reading? then 1 else 0) + (if pc.Reading? then 1 else 0)
  {
    var r := Readers(s) - {t};
    assert Readers(s') == (if pc.Reading? then r + {t} else r);
    assert Readers(s) == (if s.threads[t].Reading? then r + {t} else r);
  }

  lemma WritersAfter(s: State, s': State, t: Tid, pc: Pc)
    requires t in s.threads && s'.threads == s.threads[t := pc]
    ensures |Writers(s')| == |Writers(s)| - (if s.threads[t].Writing? then 1 else 0) + (if pc.Writing? then 1 else 0)
  {
    var w := Writers(s) - {t};
    assert Writers(s') == (if pc.Writing? then w + {t} else w);
    assert Writers(s) == (if s.threads[t].Writing? then w + {t} else w);
  }

  // The word after a step of t that changes the lock.
  lemma LockMoves(s: State, t: Tid, word: int, pc: Pc)
    requires WordOk(s) && t in s.threads
    requires var was := s.threads[t];
             || (pc.Reading? && word == Wrap(s.word + 1) && FreeBit(s.word) && !was.Reading? && !was.Writing?)
             || (pc.Idle? && was.Reading? && word == Wrap(s.word - 1))
             || (pc.Writing? && s.word == R_FREE && word == W_FREE && !was.Reading? && !was.Writing?)
             || (pc.Idle? && was.Writing? && word == R_FREE)
             || (!pc.Reading? && !pc.Writing? && !was.Reading? && !was.Writing? && word == s.word)
    ensures WordOk(State(word, s.threads[t := pc]))
  {
    var s' := State(word, s.threads[t := pc]);
    var r, w := Readers(s), Writers(s);
    ReadersAfter(s, s', t, pc);
    WritersAfter(s, s', t, pc);
    FreeBitMeaning(s);
    if s.threads[t].Reading? { ReaderPresent(s, t); }
    if s.threads[t].Writing? { WriterPresent(s, t); }
    assert w == {} ==> |w| == 0;
    assert |r| == 0 ==> r == {};
    assert |Readers(s')| == 0 ==> Readers(s') == {};
    assert |Writers(s')| == 0 ==> Writers(s') == {};
    hide Readers, Writers;
  }

  lemma StepKeeps(s: State, a: Action)
    requires Inv(s)
    ensures Inv(Step(s, a))
  {
    if a.t in s.threads {
      var s' := Step(s, a);
      hide WordOk;
      if s' != s { LockMoves(s, a.t, s'.word, s'.threads[a.t]); }
    }
  }

  lemma ReaderPresent(s: State, t: Tid)
    requires WordOk(s) && t in s.threads && s.threads[t].Reading?
    ensures s.word == R_FREE + |Readers(s)| && |Readers(s)| >= 1 && Writers(s) == {}
  {
    assert t in Readers(s);
  }

  lemma WriterPresent(s: State, t: Tid)
    requires WordOk(s) && t in s.threads && s.threads[t].Writing?
    ensures s.word == W_FREE && Readers(s) == {} && Writers(s) == {t}
  {
    assert t in Writers(s);
    assert |Writers(s) - {t}| == 0;
  }

  lemma {:induction false} RunKeeps(s: State, run: seq<Action>)
    requires Inv(s)
    ensures Inv(Exec(s, run))
    decreases |run|
  {
    if run != [] {
      StepKeeps(s, run[0]);
      RunKeeps(Step(s, run[0]), run[1..]);
    }
  }

  // ----- Main results -----

  ghost predicate Reachable(tids: set<Tid>, s: State) {
    exists run :: Exec(Init(tids), run) == s
  }

  ghost predicate StepTo(s: State, s': State) {
    exists a :: Step(s, a) == s'
  }

  // In past, a step leads from place i to the next one.
  ghost predicate StepAt(past: seq<State>, i: nat)
    requires i < |past| - 1
  {
    StepTo(past[i], past[i + 1])
  }

  // The states of a run, one after another.
  ghost predicate IsRun(past: seq<State>, tids: set<Tid>) {
    past != [] && past[0] == Init(tids) && forall i :: 0 <= i < |past| - 1 ==> StepAt(past, i)
  }

  lemma {:induction false} ExecSnoc(s: State, run: seq<Action>, a: Action)
    ensures Exec(s, run + [a]) == Step(Exec(s, run), a)
    decreases |run|
  {
    if run == [] {
      assert (run + [a])[1..] == [];
    } else {
      assert (run + [a])[1..] == run[1..] + [a];
      ExecSnoc(Step(s, run[0]), run[1..], a);
    }
  }

  lemma {:induction false} RunReaches(past: seq<State>, tids: set<Tid>, i: nat)
    requires IsRun(past, tids) && i < |past|
    ensures Reachable(tids, past[i])
  {
    if i == 0 {
      assert Exec(Init(tids), []) == Init(tids);
    } else {
      RunReaches(past, tids, i - 1);
      assert StepAt(past, i - 1);
      var a :| Step(past[i - 1], a) == past[i];
      var run :| Exec(Init(tids), run) == past[i - 1];
      ExecSnoc(Init(tids), run, a);
    }
  }

  lemma ReachableOk(tids: set<Tid>, s: State)
    requires Reachable(tids, s)
    ensures Inv(s)
  {
    var run :| Exec(Init(tids), run) == s;
    assert Readers(Init(tids)) == {} && Writers(Init(tids)) == {};
    RunKeeps(Init(tids), run);
  }

  // In every run of any number of clients the word says who holds the lock, and never more than
  // 2^24 readers do.
  lemma WordEncodesHolders(tids: set<Tid>, s: State)
    requires Reachable(tids, s)
    ensures s.word == W_FREE <==> |Writers(s)| == 1
    ensures s.word == W_FREE ==> Readers(s) == {}
    ensures s.word != W_FREE ==> Writers(s) == {} && s.word == R_FREE + |Readers(s)|
    ensures |Readers(s)| <= R_FREE
  {
    ReachableOk(tids, s);
    assert s.word != W_FREE ==> |Writers(s)| == 0;
  }

  // Additions and subtractions on the word never wrap around: readers are shut out at 2^24 by the
  // very bit that admits them, and a reader that leaves has been counted.
  lemma NeverWraps(tids: set<Tid>, s: State, t: Tid)
    requires Reachable(tids, s) && t in s.threads
    ensures FreeBit(s.word) <==> Writers(s) == {} && |Readers(s)| < R_FREE
    ensures s.threads[t].ReadCas? && s.word == s.threads[t].seen ==> Wrap(s.word + 1) == s.word + 1
    ensures s.threads[t].Reading? ==> Wrap(s.word - 1) == s.word - 1 >= R_FREE
  {
    ReachableOk(tids, s);
    FreeBitMeaning(s);
    if s.threads[t].Reading? { ReaderPresent(s, t); }
  }

  // A writer is alone.
  lemma Exclusion(tids: set<Tid>, s: State, t: Tid, u: Tid)
    requires Reachable(tids, s) && t in s.threads && u in s.threads
    requires s.threads[t].Writing? && (s.threads[u].Writing? || s.threads[u].Reading?)
    ensures t == u
  {
    ReachableOk(tids, s);
    WriterPresent(s, t);
    assert s.threads[u].Writing? ==> u in Writers(s);
    assert s.threads[u].Reading? ==> u in Readers(s);
  }

  // ----- The number that r_lock returns -----

  // x & mask
  function And(x: nat, mask: nat): nat {
    if mask == 0 then 0 else (x % 2) * (mask % 2) + 2 * And(x / 2, mask / 2)
  }

  // Each of the n hexadecimal digits of r is 0 or 1, and there are no more.
  predicate SmallDigits(r: nat, n: nat) {
    if n == 0 then r == 0 else r % 16 <= 1 && SmallDigits(r / 16, n - 1)
  }

  // A mask of n hexadecimal digits 1, like NUM with its six.
  function Ones(n: nat): nat {
    if n == 0 then 0 else 16 * Ones(n - 1) + 1
  }

  lemma {:induction false} AndEven(x: nat, m: nat)
    ensures And(x, 2 * m) == 2 * And(x / 2, m)
  {
  }

  lemma AndDigit(x: nat, m: nat)
    ensures And(x, 16 * m + 1) == x % 2 + 16 * And(x / 16, m)
  {
    hide And;
    AndOdd(x, 8 * m);
    AndEven(x / 2, 4 * m);
    AndEven(x / 4, 2 * m);
    AndEven(x / 8, m);
    assert x / 2 / 2 == x / 4 && x / 4 / 2 == x / 8 && x / 8 / 2 == x / 16;
  }

  lemma {:induction false} AndOdd(x: nat, m: nat)
    ensures And(x, 2 * m + 1) == x % 2 + 2 * And(x / 2, m)
  {
  }

  lemma LowDigit(r: nat)
    ensures r == 16 * (r / 16) + r % 16 && r % 2 <= r % 16 && (r % 2 == r % 16 <==> r % 16 <= 1)
  {
    Parity(8 * (r / 16) + r % 16 / 2, r % 16 % 2);
    assert r % 16 == 2 * (r % 16 / 2) + r % 16 % 2;
  }

  lemma {:induction false} AndOnes(r: nat, n: nat)
    ensures And(r, Ones(n)) <= r
    ensures And(r, Ones(n)) == r <==> SmallDigits(r, n)
    decreases n
  {
    if n > 0 {
      hide And;
      AndDigit(r, Ones(n - 1));
      AndOnes(r / 16, n - 1);
      LowDigit(r);
    }
  }

  function Power(n: nat): nat {
    if n == 0 then 1 else 16 * Power(n - 1)
  }

  lemma Quotient(q: nat, r: nat)
    requires r < 16
    ensures (16 * q + r) / 16 == q
  {
  }

  lemma Parity(h: nat, b: nat)
    requires b < 2
    ensures (2 * h + b) % 2 == b
  {
  }

  lemma OneMore(x: nat)
    ensures (x + 16) / 16 == x / 16 + 1 && (x + 16) % 2 == x % 2
  {
    Quotient(x / 16 + 1, x % 16);
    Parity(x / 2 + 8, x % 2);
    assert x + 16 == 16 * (x / 16 + 1) + x % 16 == 2 * (x / 2 + 8) + x % 2;
  }

  lemma {:induction false} Sixteenth(r: nat, p: nat)
    ensures (r + 16 * p) / 16 == r / 16 + p && (r + 16 * p) % 2 == r % 2
  {
    if p > 0 {
      var x := r + 16 * (p - 1);
      Sixteenth(r, p - 1);
      OneMore(x);
      assert r + 16 * p == x + 16;
    }
  }

  // The digit above those of the mask does not count.
  lemma {:induction false} AndLow(r: nat, n: nat)
    ensures And(r + Power(n), Ones(n)) == And(r, Ones(n))
    decreases n
  {
    if n > 0 {
      hide And;
      Sixteenth(r, Power(n - 1));
      AndDigit(r + 16 * Power(n - 1), Ones(n - 1));
      AndDigit(r, Ones(n - 1));
      AndLow(r / 16, n - 1);
    }
  }

  // The number that r_lock returns with r readers inside never exceeds r. It is r if and only if
  // every hexadecimal digit of r is 0 or 1, so it is right for one reader and wrong for two.
  lemma NumberReturned(r: nat)
    ensures And(R_FREE + r, NUM) <= r
    ensures And(R_FREE + r, NUM) == r <==> SmallDigits(r, 6)
  {
    AndLow(r, 6);
    AndOnes(r, 6);
    assert Ones(6) == NUM && Power(6) == R_FREE;
  }

  lemma TwoReaders()
    ensures And(R_FREE + 1, NUM) == 1 && And(R_FREE + 2, NUM) < 2
  {
    hide And;
    NumberReturned(1);
    NumberReturned(2);
    assert SmallDigits(0, 5);
    assert SmallDigits(1, 6) && !SmallDigits(2, 6);
  }
}
