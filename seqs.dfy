/** Small facts about sequences shared by the modules below. */
module Seqs {
  lemma AppendAssoc<T>(a: seq<T>, b: seq<T>, c: seq<T>)
    ensures a + b + c == a + (b + c)
  {
  }

  lemma PrefixTransitive<T>(a: seq<T>, b: seq<T>, c: seq<T>)
    requires a <= b && b <= c
    ensures a <= c
  {
    assert c[..|a|] == b[..|a|];
  }

  /** Putting the first element back in front of the rest of `w`. */
  lemma PrependHead<T>(w: seq<T>, x: seq<T>, y: seq<T>)
    requires |w| > 0
    ensures [w[0]] + (w[1..] + x + y) == w + x + y
  {
    assert [w[0]] + w[1..] == w;
  }
}
