/**
 * The processing chain of engine.py: the configured stages are applied to a
 * frame one after the other, each stage receiving the previous stage's output.
 * The frame type is left abstract; a stage is any total function on frames.
 */
module Chain {

  /** The chain's result: the stages folded over `frame` from left to right. */
  function Apply<F>(stages: seq<F -> F>, frame: F): F
    decreases |stages|
  {
    if stages == [] then frame else Apply(stages[1..], stages[0](frame))
  }

  /** An empty chain hands the frame back unchanged. */
  lemma ApplyEmpty<F>(frame: F)
    ensures Apply([], frame) == frame
  {
  }

  /** Two stages `[f, g]` give `g(f(x))`: the first stage listed runs first. */
  lemma ApplyPair<F>(f: F -> F, g: F -> F, x: F)
    ensures Apply([f, g], x) == g(f(x))
  {
    assert [f, g][1..] == [g];
    assert [g][1..] == [];
    calc {
      Apply([f, g], x);
      Apply([g], f(x));
      Apply([], g(f(x)));
    }
  }

  /** Running two chains back to back is running their concatenation. */
  lemma {:induction false} ApplyAppend<F>(s: seq<F -> F>, t: seq<F -> F>, x: F)
    ensures Apply(s + t, x) == Apply(t, Apply(s, x))
    decreases |s|
  {
    if s == [] {
      assert s + t == t;
    } else {
      assert (s + t)[0] == s[0];
      assert (s + t)[1..] == s[1..] + t;
      ApplyAppend(s[1..], t, s[0](x));
    }
  }

  /** Appending one stage applies it to the chain's previous output. */
  lemma ApplySnoc<F>(s: seq<F -> F>, f: F -> F, x: F)
    ensures Apply(s + [f], x) == f(Apply(s, x))
  {
    ApplyAppend(s, [f], x);
    assert [f][1..] == [];
  }

  /** Every stage keeps property `p` of frames. */
  ghost predicate AllPreserve<F(!new)>(stages: seq<F -> F>, p: F -> bool)
  {
    forall i, y :: 0 <= i < |stages| && p(y) ==> p(stages[i](y))
  }

  /** A property every stage keeps is kept by the whole chain. */
  lemma {:induction false} ApplyPreserves<F(!new)>(stages: seq<F -> F>, p: F -> bool, x: F)
    requires AllPreserve(stages, p)
    requires p(x)
    ensures p(Apply(stages, x))
    decreases |stages|
  {
    if stages != [] {
      assert p(stages[0](x));
      assert AllPreserve(stages[1..], p) by {
        forall i, y | 0 <= i < |stages[1..]| && p(y) ensures p(stages[1..][i](y)) {
          assert stages[1..][i] == stages[i + 1];
        }
      }
      ApplyPreserves(stages[1..], p, stages[0](x));
    }
  }
}
