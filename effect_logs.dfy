/** Counting in effect logs: both components record what they do to the outside world as a sequence. */
module EffectLogs {

  /** How often an effect occurs in a log. */
  function Occurrences<T(==)>(log: seq<T>, e: T): nat {
    if log == [] then 0
    else (if log[0] == e then 1 else 0) + Occurrences(log[1..], e)
  }

  lemma OccurrencesSingle<T>(x: T, e: T)
    ensures Occurrences([x], e) == if x == e then 1 else 0
  {
  }

  lemma {:induction false} OccurrencesAppend<T>(a: seq<T>, b: seq<T>, e: T)
    ensures Occurrences(a + b, e) == Occurrences(a, e) + Occurrences(b, e)
  {
    if a == [] {
      assert a + b == b;
    } else {
      assert (a + b)[1..] == a[1..] + b;
      OccurrencesAppend(a[1..], b, e);
    }
  }
}
