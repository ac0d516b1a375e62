/** Element-type-independent facts about sequence concatenation. Stating them once for any
    element type keeps the solver from comparing elements field by field. */
module Seqs {

  lemma AppendAssoc<T>(a: seq<T>, b: seq<T>, c: seq<T>)
    ensures (a + b) + c == a + (b + c)
  {
  }

  lemma AppendEmpty<T>(a: seq<T>)
    ensures [] + a == a && a + [] == a
  {
  }

  lemma AppendTail<T>(a: seq<T>, b: seq<T>)
    requires |a| > 0
    ensures (a + b)[0] == a[0] && (a + b)[1..] == a[1..] + b
  {
  }

  /** Appending four pieces one after another appends their concatenation. */
  lemma AppendFour<T>(x: seq<T>, a: seq<T>, b: seq<T>, c: seq<T>, d: seq<T>)
    ensures (((x + a) + b) + c) + d == x + (((a + b) + c) + d)
  {
    AppendAssoc(x, a, b);
    AppendAssoc(x, a + b, c);
    AppendAssoc(x, (a + b) + c, d);
  }

  /** A prefix one element longer is the shorter prefix plus that element. */
  lemma TakeSnoc<T>(s: seq<T>, i: nat)
    requires i < |s|
    ensures s[..i + 1][..i] == s[..i] && s[..i + 1][i] == s[i]
  {
  }
}
