/** Facts about concatenation that the solver has to be pointed at. */
module Sequences {

  lemma Regroup<T>(a: seq<T>, b: seq<T>, c: seq<T>)
    ensures a + b + c == a + (b + c)
  {
  }

  lemma Gained<T>(before: seq<T>, more: seq<T>)
    ensures before <= before + more && (before + more)[|before|..] == more
    ensures before[|before|..] == []
  {
  }

  /** What has been gained since, when one more comes. */
  lemma GainedOne<T>(before: seq<T>, now: seq<T>, x: T)
    requires before <= now
    ensures before <= now + [x] && (now + [x])[|before|..] == now[|before|..] + [x]
  {
  }
}
