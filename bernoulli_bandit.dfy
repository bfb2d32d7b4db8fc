/**
 * The Bernoulli bandit: arm a pays 1 with probability means[a] and 0 otherwise. It counts
 * the pulls and the rewards of every arm and reports the regret against always pulling the
 * best arm. The uniform draw behind each pull is a parameter.
 */
module Bernoulli {
  import opened Failures
  import opened ValueEstimates
  import Indexing

  /** The largest mean. */
  function Max(s: seq<real>): (m: real)
    requires |s| > 0
    ensures forall i :: 0 <= i < |s| ==> s[i] <= m
    ensures exists i :: 0 <= i < |s| && s[i] == m
  {
    if |s| == 1 then s[0]
    else
      var m := Max(s[..|s| - 1]);
      assert forall i :: 0 <= i < |s| - 1 ==> s[i] == s[..|s| - 1][i];
      if s[|s| - 1] > m then s[|s| - 1] else m
  }

  /** The reward of a pull with mean p under draw u: 1 exactly when u falls below p. */
  function Reward(p: real, u: real): (r: nat)
    ensures r <= 1
    ensures r == 1 <==> u < p
  {
    if u < p then 1 else 0
  }

  /** best_mean times the number of pulls, less the rewards received. */
  function RegretOf(bestMean: real, pulls: seq<nat>, rewards: seq<nat>): real
  {
    bestMean * Total(pulls) as real - Total(rewards) as real
  }

  /** Rewards are never negative, so the regret is at most that of the same pulls paying nothing;
      with no more rewards than pulls, it is at least that of the same pulls all paying 1. */
  lemma RegretBetween(bestMean: real, pulls: seq<nat>, rewards: seq<nat>)
    ensures RegretOf(bestMean, pulls, rewards) <= RegretOf(bestMean, pulls, [])
    ensures Total(rewards) <= Total(pulls) ==> RegretOf(bestMean, pulls, pulls) <= RegretOf(bestMean, pulls, rewards)
  {
    var m := bestMean * Total(pulls) as real;
    assert RegretOf(bestMean, pulls, rewards) == m - Total(rewards) as real;
    assert RegretOf(bestMean, pulls, pulls) == m - Total(pulls) as real;
    assert RegretOf(bestMean, pulls, []) == m;
  }

  /** Before any pull the regret is 0. */
  lemma RegretOfNoPulls(bestMean: real, k: nat)
    ensures RegretOf(bestMean, seq(k, _ => 0), seq(k, _ => 0)) == 0.0
  {
    TotalOfZeros(seq(k, _ => 0));
  }

  /** One pull of arm i paying x adds bestMean - x to the regret. */
  lemma RegretAfterPull(bestMean: real, pulls: seq<nat>, rewards: seq<nat>, i: nat, x: nat)
    requires i < |pulls| == |rewards|
    ensures RegretOf(bestMean, pulls[i := pulls[i] + 1], rewards[i := rewards[i] + x])
            == RegretOf(bestMean, pulls, rewards) + bestMean - x as real
  {
    var p, q := Total(pulls), Total(rewards);
    TotalUpdate(pulls, i, pulls[i] + 1);
    TotalUpdate(rewards, i, rewards[i] + x);
    assert Total(pulls[i := pulls[i] + 1]) as real == p as real + 1.0;
    assert Total(rewards[i := rewards[i] + x]) as real == q as real + x as real;
    assert RegretOf(bestMean, pulls[i := pulls[i] + 1], rewards[i := rewards[i] + x])
           == bestMean * (p as real + 1.0) - (q as real + x as real);
    OneMorePull(bestMean, p as real, q as real, x as real);
  }

  lemma OneMorePull(m: real, p: real, r: real, x: real)
    ensures m * (p + 1.0) - (r + x) == (m * p - r) + m - x
  {
  }

  /** No arm has more rewards than pulls, so neither do all arms together. */
  lemma RewardsAtMostPulls(pulls: seq<nat>, rewards: seq<nat>)
    requires |pulls| == |rewards|
    requires forall a :: 0 <= a < |pulls| ==> rewards[a] <= pulls[a]
    ensures Total(rewards) <= Total(pulls)
  {
    TotalMonotone(rewards, pulls);
  }

  class BernoulliBandit {
    const means: seq<real>
    const numArms: nat
    const bestMean: real
    var totalPulls: seq<nat>
    var totalRewards: seq<nat>

    ghost predicate Valid()
      reads this
    {
      && numArms == |means| > 0
      && |totalPulls| == |totalRewards| == numArms
      && bestMean == Max(means)
      && forall a :: 0 <= a < numArms ==> totalRewards[a] <= totalPulls[a]
    }

    /** BernoulliBandit(means) on a non-empty list (max of an empty one raises; Create
        models that). */
    constructor (means: seq<real>)
      requires |means| > 0
      ensures Valid()
      ensures this.means == means && numArms == |means| && bestMean == Max(means)
      ensures totalPulls == seq(|means|, _ => 0) && totalRewards == seq(|means|, _ => 0)
      ensures Regret() == 0.0
    {
      this.means := means;
      numArms := |means|;
      totalPulls := seq(|means|, _ => 0);
      totalRewards := seq(|means|, _ => 0);
      bestMean := Max(means);
      new;
      RegretOfNoPulls(bestMean, |means|);
    }

    /** Construction from any list: an empty one makes max raise ValueError. */
    static method Create(means: seq<real>) returns (result: Result<BernoulliBandit>)
      ensures result.Err? <==> |means| == 0
      ensures result.Err? ==> result.error == EmptyMax
      ensures result.Ok? ==> && fresh(result.value) && result.value.Valid()
                             && result.value.means == means && result.value.numArms == |means|
                             && result.value.bestMean == Max(means)
                             && result.value.totalPulls == seq(|means|, _ => 0)
                             && result.value.totalRewards == seq(|means|, _ => 0)
                             && result.value.Regret() == 0.0
    {
      if |means| == 0 {
        return Err(EmptyMax);
      }
      var bandit := new BernoulliBandit(means);
      return Ok(bandit);
    }

    /** K(): the number of arms. */
    function K(): (k: nat)
      reads this
      requires Valid()
      ensures k == |means| && k > 0
    {
      numArms
    }

    /** pull(a) under draw u: the reward is 1 when u falls below the arm's mean, and the arm
        gets one more pull and that reward. An index outside [-K, K) raises IndexError after
        the draw and before anything changes. */
    method Pull(a: int, u: real) returns (result: Result<nat>)
      requires Valid()
      modifies this
      ensures Valid()
      ensures result.Err? <==> Indexing.Resolve(a, numArms).Err?
      ensures result.Err? ==> result.error == IndexOutOfRange(a, numArms) && unchanged(this)
      ensures result.Ok? ==>
                var i := Indexing.Resolve(a, numArms).value;
                && result.value == Reward(means[i], u)
                && totalPulls == old(totalPulls)[i := old(totalPulls)[i] + 1]
                && totalRewards == old(totalRewards)[i := old(totalRewards)[i] + result.value]
                && Regret() == old(Regret()) + bestMean - result.value as real
    {
      var index := Indexing.Resolve(a, numArms);
      if index.Err? {
        return Err(index.error);
      }
      var i := index.value;
      var reward := Reward(means[i], u);
      RegretAfterPull(bestMean, totalPulls, totalRewards, i, reward);
      totalPulls := totalPulls[i := totalPulls[i] + 1];
      totalRewards := totalRewards[i := totalRewards[i] + reward];
      return Ok(reward);
    }

    /** regret(): best_mean times all pulls, less all rewards. No arm pays more rewards than it
        was pulled, so the regret lies between that of the same pulls all paying 1 and that of
        the same pulls paying nothing. */
    function Regret(): (r: real)
      reads this
      requires Valid()
      ensures RegretOf(bestMean, totalPulls, totalPulls) <= r <= RegretOf(bestMean, totalPulls, [])
    {
      RewardsAtMostPulls(totalPulls, totalRewards);
      RegretBetween(bestMean, totalPulls, totalRewards);
      RegretOf(bestMean, totalPulls, totalRewards)
    }
  }
}
