/**
 * The UCBBandit helper: select_arm returns the first arm never pulled, and otherwise the
 * first arm with the highest upper confidence bound values[a] + bonus(round, counts[a]);
 * update records one pull and keeps values[a] the running average of arm a's rewards.
 * The Hoeffding term sqrt(2 * log(round + 1) / counts[a]) is the uninterpreted `bonus`.
 */
module UcbBanditModel {
  import opened Failures
  import opened ValueEstimates
  import Indexing

  /** The confidence bound of every arm in a round. The bonus depends only on the round and the
      count, so of two arms pulled equally often the one with the higher value bounds higher. */
  function Bounds(values: seq<real>, counts: seq<nat>, bonus: (nat, nat) -> real, round: nat): (s: seq<real>)
    requires |values| == |counts|
    ensures |s| == |values|
    ensures forall a, b :: 0 <= a < |s| && 0 <= b < |s| && counts[a] == counts[b] && values[a] <= values[b] ==> s[a] <= s[b]
  {
    seq(|values|, a requires 0 <= a < |values| => values[a] + bonus(round, counts[a]))
  }

  /** update's formula: the old average weighted by the n - 1 earlier pulls, plus the reward,
      over the n pulls so far. It is the agents' incremental step, so update keeps values[a]
      the mean of arm a's rewards. */
  function RunningAverage(value: real, n: nat, reward: real): (r: real)
    requires n > 0
    ensures r == IncrementalStep(value, n, reward)
  {
    var m := n as real;
    calc {
      IncrementalStep(value, n, reward);
      value + (1.0 / m) * (reward - value);
      (value * m + (reward - value)) / m;
      ((m - 1.0) * value + reward) / m;
    }
    ((n - 1) as real * value + reward) / n as real
  }

  class UcbBandit {
    const nArms: nat
    const counts: array<nat>
    const values: array<real>
    /** Every update so far: the arm it resolved to and the reward it recorded. */
    ghost var arms: seq<nat>
    ghost var obs: seq<real>

    /** counts and values are the pull counts and reward means of the updates so far. */
    ghost predicate Valid()
      reads this, counts, values
    {
      && counts.Length == values.Length == nArms
      && |arms| == |obs|
      && counts[..] == Counts(nArms, arms)
      && values[..] == Estimates(nArms, arms, obs)
    }

    constructor (nArms: nat)
      ensures Valid()
      ensures this.nArms == nArms && fresh(counts) && fresh(values)
      ensures arms == [] && obs == []
      ensures counts[..] == seq(nArms, _ => 0) && values[..] == seq(nArms, _ => 0.0)
    {
      this.nArms := nArms;
      counts := new nat[nArms](_ => 0);
      values := new real[nArms](_ => 0.0);
      arms, obs := [], [];
    }

    /** UCBBandit(n_arms) for any integer: np.zeros raises ValueError on a negative length
        before any field is set. */
    static method Create(nArms: int) returns (result: Result<UcbBandit>)
      ensures result.Err? <==> nArms < 0
      ensures result.Err? ==> result.error == NegativeDimension(nArms)
      ensures result.Ok? ==> && fresh(result.value) && fresh(result.value.counts) && fresh(result.value.values)
                             && result.value.Valid() && result.value.nArms == nArms
                             && result.value.arms == [] && result.value.obs == []
                             && result.value.counts[..] == seq(nArms, _ => 0)
                             && result.value.values[..] == seq(nArms, _ => 0.0)
    {
      if nArms < 0 {
        return Err(NegativeDimension(nArms));
      }
      var bandit := new UcbBandit(nArms);
      return Ok(bandit);
    }

    /** select_arm(round): scan the arms in order, returning the first untried one; when all
        have been tried, numpy's argmax of the bounds, which fails when there are no arms. */
    method SelectArm(round: nat, bonus: (nat, nat) -> real) returns (result: Result<nat>)
      requires counts.Length == values.Length == nArms
      ensures result.Err? <==> nArms == 0
      ensures result.Err? ==> result.error == EmptyArgMax
      ensures result.Ok? ==> result.value < nArms
      ensures (exists a :: 0 <= a < nArms && counts[a] == 0) ==>
                && result.Ok? && counts[result.value] == 0
                && forall b :: 0 <= b < result.value ==> counts[b] > 0
      ensures nArms > 0 && (forall a :: 0 <= a < nArms ==> counts[a] > 0) ==>
                result.Ok? && IsFirstMax(Bounds(values[..], counts[..], bonus, round), result.value)
    {
      var ucbValues := new real[nArms](_ => 0.0);
      for arm := 0 to nArms
        invariant forall b :: 0 <= b < arm ==> counts[b] > 0
        invariant forall b :: 0 <= b < arm ==> ucbValues[b] == values[b] + bonus(round, counts[b])
      {
        if counts[arm] == 0 {
          return Ok(arm);
        }
        ucbValues[arm] := values[arm] + bonus(round, counts[arm]);
      }
      if nArms == 0 {
        return Err(EmptyArgMax);
      }
      assert ucbValues[..] == Bounds(values[..], counts[..], bonus, round);
      return Ok(ArgMax(ucbValues[..]));
    }

    /** update(chosen_arm, reward): one more pull of the arm the index denotes and the
        running-average update of its value; an index outside [-n_arms, n_arms) raises
        IndexError before anything changes. The result is the position updated. */
    method Update(chosenArm: int, reward: real) returns (result: Result<nat>)
      requires Valid()
      modifies this, counts, values
      ensures Valid()
      ensures result == Indexing.Resolve(chosenArm, nArms)
      ensures result.Err? ==> unchanged(this, counts, values)
      ensures result.Ok? ==>
                && counts[..] == old(counts[..])[result.value := old(counts[result.value]) + 1]
                && values[..] == old(values[..])[result.value := RunningAverage(old(values[result.value]), counts[result.value], reward)]
                && arms == old(arms) + [result.value] && obs == old(obs) + [reward]
    {
      result := Indexing.Resolve(chosenArm, nArms);
      if result.Err? {
        return;
      }
      var a := result.value;
      Replay(nArms, arms, obs, a, reward);
      counts[a] := counts[a] + 1;
      var n := counts[a];
      var value := values[a];
      values[a] := RunningAverage(value, n, reward);
      arms, obs := arms + [a], obs + [reward];
    }

    /** Each value is the mean of the rewards recorded for its arm, 0 for an untried arm. */
    lemma ValuesAreMeans(a: nat)
      requires Valid() && a < nArms
      ensures values[a] == Mean(Observed(arms, obs, a))
      ensures counts[a] == Pulls(arms, a)
    {
      EstimateIsMean(nArms, arms, obs, a);
      CountIsPulls(nArms, arms, a);
    }
  }
}
