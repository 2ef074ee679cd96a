/** Arithmetic shared by the audio mixer and the clustering code. */
module Numbers {
  /** Left-to-right sum, as `sum()` and an accumulating `for` loop compute it. */
  function Sum(xs: seq<real>): real
  {
    if xs == [] then 0.0 else Sum(xs[..|xs| - 1]) + xs[|xs| - 1]
  }

  /** `c` copies of the same value add up to `c` times it. */
  lemma {:induction false} SumOfCopies(x: real, c: nat)
    ensures Sum(seq(c, _ => x)) == (c as real) * x
  {
    if c > 0 {
      SumOfCopies(x, c - 1);
      assert seq(c, _ => x)[..c - 1] == seq(c - 1, _ => x);
    }
  }
}
