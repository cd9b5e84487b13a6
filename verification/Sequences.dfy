/** Two facts about concatenation that the verifier is better told than left to find. */
module Sequences {

  lemma Regroup<T>(a: seq<T>, b: seq<T>, c: seq<T>)
    ensures (a + b) + c == a + (b + c)
  {
  }

  lemma EmptyIsNeutral<T>(a: seq<T>)
    ensures a + [] == a && [] + a == a
  {
  }
}
