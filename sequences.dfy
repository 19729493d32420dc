/** Two facts of sequence algebra that the parser and printer proofs use to
    regroup concatenations without asking the solver to rediscover them. */
module Sequences {
  /** Concatenation associates. */
  lemma {:induction false} Regroup<T>(a: seq<T>, b: seq<T>, c: seq<T>)
    ensures a + b + c == a + (b + c)
  {
  }

  /** Moving the head of a list onto what precedes it. */
  lemma {:induction false} Snoc<T>(acc: seq<T>, xs: seq<T>)
    requires |xs| > 0
    ensures acc + [xs[0]] + xs[1..] == acc + xs
  {
    assert [xs[0]] + xs[1..] == xs;
  }
}
