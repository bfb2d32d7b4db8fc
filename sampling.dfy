/** The uniform random draws the simulator consumes, supplied as values. */
module Sampling {
  import opened Failures

  /** A draw of numpy's or Python's uniform generator: a real in [0, 1). */
  predicate Uniform(u: real)
  {
    0.0 <= u < 1.0
  }

  predicate AllUniform(us: seq<real>)
  {
    forall i :: 0 <= i < |us| ==> Uniform(us[i])
  }

  /** np.random.choice(k): the index that a uniform draw u selects among k equally likely arms.
      numpy refuses to choose among zero arms. */
  function Choice(k: nat, u: real): (r: Result<nat>)
    requires Uniform(u)
    ensures r.Err? <==> k == 0
    ensures r.Err? ==> r.error == EmptyChoice
    ensures r.Ok? ==> r.value < k
    ensures r.Ok? ==> r.value as real <= u * k as real < r.value as real + 1.0
  {
    if k == 0 then Err(EmptyChoice)
    else
      var x := u * k as real;
      assert 0.0 <= x < k as real by {
        assert k as real - x == (1.0 - u) * k as real;
      }
      Ok(x.Floor)
  }

  /** The draws consumed after i + 1 steps are those after i steps and the i-th. */
  lemma ConsumeDraw(consumed: seq<real>, us: seq<real>, i: nat)
    requires i < |us|
    ensures consumed + us[..i + 1] == (consumed + us[..i]) + [us[i]]
  {
    assert us[..i + 1] == us[..i] + [us[i]];
  }
}
