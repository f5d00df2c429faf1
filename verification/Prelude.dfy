// Types shared by every protocol model.
module Prelude {

  datatype Option<+T> = None | Some(value: T)

  // Threads and stored values are opaque tokens: no protocol inspects them.
  type Tid = nat
  type Value = int

  // Thread t did something with value v.
  datatype Event = Event(t: Tid, v: Value)

  // The values of one thread's events, in order.
  function Of(log: seq<Event>, t: Tid): seq<Value> {
    if log == [] then []
    else Of(log[..|log| - 1], t) + if log[|log| - 1].t == t then [log[|log| - 1].v] else []
  }

  lemma OfAppend(log: seq<Event>, e: Event, t: Tid)
    ensures Of(log + [e], t) == Of(log, t) + if e.t == t then [e.v] else []
  {
    assert (log + [e])[..|log|] == log;
  }

  lemma {:induction false} OfPrefix(log: seq<Event>, log': seq<Event>, t: Tid)
    requires log <= log'
    ensures Of(log, t) <= Of(log', t)
    decreases |log'|
  {
    if |log| < |log'| {
      OfPrefix(log, log'[..|log'| - 1], t);
    } else {
      assert log == log';
    }
  }

  // Whose turn it is at time n, of k threads in a circle.
  function Seat(k: nat, n: nat): (i: nat)
    requires k > 0
    ensures i < k
  {
    if n < k then n else Seat(k, n - k)
  }

  lemma {:induction false} SeatComes(k: nat, i: nat, n: nat) returns (m: nat)
    requires i < k
    ensures m >= n && Seat(k, m) == i
  {
    if n <= i {
      m := i;
    } else {
      m := SeatComes(k, i, if n < k then 0 else n - k);
      m := m + k;
    }
  }
}
