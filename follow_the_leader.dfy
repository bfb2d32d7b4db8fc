/**
 * Follow the leader on a Bernoulli bandit: every round scans the arms for the first one with
 * the highest average reward so far (an untried arm counts as 0), pulls it, and tallies the
 * pull and its reward locally. The scan is the greedy rule: the averages it compares are
 * exactly the sample-mean estimates of the shared bookkeeping.
 */
module FollowTheLeaderModel {
  import opened Failures
  import opened ValueEstimates
  import Bernoulli
  import Indexing

  /** The running best of the scan: minus infinity before the first arm, then a real. */
  datatype Extended = NegInf | Finite(value: real)

  /** x > best, with everything above minus infinity. */
  predicate Above(x: real, best: Extended)
  {
    best.NegInf? || x > best.value
  }

  /** The average reward the scan computes for every arm: rewards over pulls, 0 when untried. */
  function Averages(rewards: seq<nat>, pulls: seq<nat>): (s: seq<real>)
    requires |rewards| == |pulls|
    ensures |s| == |pulls|
  {
    seq(|pulls|, i requires 0 <= i < |pulls| => if pulls[i] > 0 then rewards[i] as real / pulls[i] as real else 0.0)
  }

  /** Each average is the arm's mean reward: times its pulls it gives back the arm's reward
      total, and an arm never pulled averages 0. */
  lemma AveragesAreMeans(rewards: seq<nat>, pulls: seq<nat>, i: nat)
    requires |rewards| == |pulls| && i < |pulls|
    ensures pulls[i] == 0 ==> Averages(rewards, pulls)[i] == 0.0
    ensures pulls[i] > 0 ==> Averages(rewards, pulls)[i] * pulls[i] as real == rewards[i] as real
  {
    if pulls[i] > 0 {
      var r, p := rewards[i] as real, pulls[i] as real;
      assert Averages(rewards, pulls)[i] == r / p;
      assert r / p * p == r;
    }
  }

  /** The inner loop: the strict comparison keeps the first arm of the highest average, and
      minus infinity as the starting best makes arm 0 the leader until a higher one appears. */
  method Leader(armRewards: seq<nat>, armPulls: seq<nat>) returns (bestArm: nat)
    requires |armRewards| == |armPulls|
    ensures |armPulls| == 0 ==> bestArm == 0
    ensures |armPulls| > 0 ==> IsFirstMax(Averages(armRewards, armPulls), bestArm)
  {
    ghost var averages := Averages(armRewards, armPulls);
    bestArm := 0;
    var bestAverageReward := NegInf;
    for i := 0 to |armPulls|
      invariant i == 0 ==> bestArm == 0 && bestAverageReward == NegInf
      invariant i > 0 ==> IsFirstMax(averages[..i], bestArm) && bestAverageReward == Finite(averages[bestArm])
    {
      var averageReward;
      if armPulls[i] > 0 {
        averageReward := armRewards[i] as real / armPulls[i] as real;
      } else {
        averageReward := 0.0;
      }
      assert averageReward == averages[i];
      if Above(averageReward, bestAverageReward) {
        bestArm := i;
        bestAverageReward := Finite(averageReward);
      }
      assert averages[..i + 1][..i] == averages[..i];
    }
    assert averages[..|armPulls|] == averages;
  }

  /** The reward tallies as reals, to compare with the totals of the history. */
  function AsReals(xs: seq<nat>): (r: seq<real>)
    ensures |r| == |xs| && forall i :: 0 <= i < |xs| ==> r[i] == xs[i] as real
  {
    seq(|xs|, i requires 0 <= i < |xs| => xs[i] as real)
  }

  /** The pointwise sum of two tallies: what the bandit has counted plus what this run added. */
  function Plus(xs: seq<nat>, ys: seq<nat>): (r: seq<nat>)
    requires |xs| == |ys|
    ensures |r| == |xs| && forall i :: 0 <= i < |xs| ==> r[i] == xs[i] + ys[i]
  {
    seq(|xs|, i requires 0 <= i < |xs| => xs[i] + ys[i])
  }

  lemma PlusBump(xs: seq<nat>, ys: seq<nat>, b: nat, d: nat)
    requires |xs| == |ys| && b < |ys|
    ensures Plus(xs, ys[b := ys[b] + d]) == Plus(xs, ys)[b := Plus(xs, ys)[b] + d]
  {
  }

  lemma AsRealsBump(xs: seq<nat>, b: nat, d: nat)
    requires b < |xs|
    ensures AsReals(xs[b := xs[b] + d]) == AsReals(xs)[b := AsReals(xs)[b] + d as real]
  {
  }

  /** The local tallies after the pulls arms with rewards obs: every pull was the leader of
      its round, the pull tally is the pull counts and the reward tally the reward totals. */
  ghost predicate Tallied(k: nat, arms: seq<nat>, obs: seq<real>, rewards: seq<nat>, pulls: seq<nat>)
  {
    && |arms| == |obs| && InRange(k, arms)
    && GreedyChoices(k, arms, obs)
    && pulls == Counts(k, arms)
    && |rewards| == k && AsReals(rewards) == Totals(k, arms, obs)
  }

  /** On tallies of a history, the averages the scan compares are the sample-mean estimates,
      so the leader the scan finds is the arm the greedy rule picks. */
  lemma LeaderIsGreedy(k: nat, arms: seq<nat>, obs: seq<real>, rewards: seq<nat>, pulls: seq<nat>, best: nat)
    requires Tallied(k, arms, obs, rewards, pulls) && IsFirstMax(Averages(rewards, pulls), best)
    ensures Averages(rewards, pulls) == Estimates(k, arms, obs)
    ensures best == ArgMax(Estimates(k, arms, obs))
  {
    forall a | 0 <= a < k
      ensures Averages(rewards, pulls)[a] == Estimates(k, arms, obs)[a]
    {
      EstimateIsTotalOverCount(k, arms, obs, a);
    }
    FirstMaxIsArgMax(Estimates(k, arms, obs), best);
  }

  /** One round keeps the tallies those of the history: the primed values are the tallies and
      history after pulling the leader b of the tallies and receiving x. */
  lemma TallyStep(k: nat, arms: seq<nat>, obs: seq<real>, rewards: seq<nat>, pulls: seq<nat>, b: nat, x: nat,
                  arms': seq<nat>, obs': seq<real>, rewards': seq<nat>, pulls': seq<nat>)
    requires Tallied(k, arms, obs, rewards, pulls) && IsFirstMax(Averages(rewards, pulls), b)
    requires arms' == arms + [b] && obs' == obs + [x as real]
    requires rewards' == rewards[b := rewards[b] + x] && pulls' == pulls[b := pulls[b] + 1]
    ensures Tallied(k, arms', obs', rewards', pulls')
  {
    LeaderIsGreedy(k, arms, obs, rewards, pulls, b);
    Replay(k, arms, obs, b, x as real);
    GreedyChoicesExtend(k, arms, obs, x as real);
    AsRealsBump(rewards, b, x);
    assert InRange(k, arms');
  }

  /** Every pull of the run paid what the bandit pays for that arm and draw, as a real. */
  ghost predicate PaidBy(means: seq<real>, arms: seq<nat>, draws: seq<real>, obs: seq<real>)
  {
    && |arms| == |draws| == |obs|
    && (|arms| > 0 ==>
          && PaidBy(means, arms[..|arms| - 1], draws[..|arms| - 1], obs[..|arms| - 1])
          && arms[|arms| - 1] < |means|
          && obs[|arms| - 1] == Bernoulli.Reward(means[arms[|arms| - 1]], draws[|arms| - 1]) as real)
  }

  lemma PaidByStep(means: seq<real>, arms: seq<nat>, draws: seq<real>, obs: seq<real>, t: nat, b: nat, x: nat)
    requires t < |draws| && PaidBy(means, arms, draws[..t], obs)
    requires b < |means| && x == Bernoulli.Reward(means[b], draws[t])
    ensures PaidBy(means, arms + [b], draws[..t + 1], obs + [x as real])
  {
    assert draws[..t + 1][..t] == draws[..t];
    assert (arms + [b])[..|arms|] == arms && (obs + [x as real])[..|obs|] == obs;
  }

  /** When every pull so far paid 0, every round's leader was arm 0: all averages stay 0 and
      the strict comparison never moves past the first arm. */
  lemma ZeroPaysFollowArmZero(k: nat, arms: seq<nat>, obs: seq<real>, rewards: seq<nat>, pulls: seq<nat>)
    requires Tallied(k, arms, obs, rewards, pulls)
    requires forall i :: 0 <= i < |obs| ==> obs[i] == 0.0
    ensures forall j :: 0 <= j < |arms| ==> arms[j] == 0
  {
    AllZeroRewardsPickArmZero(k, arms, obs);
  }

  /** On a fresh bandit, whose counters start at zero, the bandit's counters after the run are
      the run's own tallies. */
  lemma FreshBanditMatchesTallies(before: seq<nat>, tally: seq<nat>)
    requires |before| == |tally| && forall a :: 0 <= a < |before| ==> before[a] == 0
    ensures Plus(before, tally) == tally
  {
  }

  /** One round of the outer loop: find the leader of the tallies, pull it, and add the pull
      and its reward to the tallies. The bandit's own counters grow the same way, and since
      the leader is always a valid arm the pull never fails. */
  method Round(bandit: Bernoulli.BernoulliBandit, armRewards: seq<nat>, armPulls: seq<nat>, draw: real)
    returns (bestArm: nat, reward: nat, armRewards': seq<nat>, armPulls': seq<nat>)
    requires bandit.Valid() && |armRewards| == |armPulls| == bandit.numArms
    modifies bandit
    ensures bandit.Valid()
    ensures IsFirstMax(Averages(armRewards, armPulls), bestArm)
    ensures reward == Bernoulli.Reward(bandit.means[bestArm], draw)
    ensures armRewards' == armRewards[bestArm := armRewards[bestArm] + reward]
    ensures armPulls' == armPulls[bestArm := armPulls[bestArm] + 1]
    ensures bandit.totalPulls == old(bandit.totalPulls)[bestArm := old(bandit.totalPulls)[bestArm] + 1]
    ensures bandit.totalRewards == old(bandit.totalRewards)[bestArm := old(bandit.totalRewards)[bestArm] + reward]
  {
    bestArm := Leader(armRewards, armPulls);
    assert Indexing.Resolve(bestArm, bandit.numArms) == Ok(bestArm);
    var pulled := bandit.Pull(bestArm, draw);
    reward := pulled.value;
    armRewards' := armRewards[bestArm := armRewards[bestArm] + reward];
    armPulls' := armPulls[bestArm := armPulls[bestArm] + 1];
  }

  /** The bandit's side of the outer loop after the pulls arms with rewards obs under the draws
      so far: every pull paid what the bandit pays, and the bandit's counters are what they
      were at the start plus the local tallies. */
  ghost predicate Booked(means: seq<real>, draws: seq<real>, arms: seq<nat>, obs: seq<real>,
                         rewards: seq<nat>, pulls: seq<nat>, pulls0: seq<nat>, rewards0: seq<nat>,
                         totalPulls: seq<nat>, totalRewards: seq<nat>)
  {
    && PaidBy(means, arms, draws, obs)
    && |pulls0| == |pulls| && |rewards0| == |rewards|
    && totalPulls == Plus(pulls0, pulls) && totalRewards == Plus(rewards0, rewards)
  }

  /** One round keeps the bandit's side: the primed values are those after pulling arm b under
      draw u and receiving x. */
  lemma BookedStep(means: seq<real>, draws: seq<real>, t: nat, arms: seq<nat>, obs: seq<real>,
                   rewards: seq<nat>, pulls: seq<nat>, pulls0: seq<nat>, rewards0: seq<nat>,
                   totalPulls: seq<nat>, totalRewards: seq<nat>, b: nat, x: nat,
                   arms': seq<nat>, obs': seq<real>, rewards': seq<nat>, pulls': seq<nat>,
                   totalPulls': seq<nat>, totalRewards': seq<nat>)
    requires t < |draws| && b < |means| && b < |pulls| && b < |rewards|
    requires Booked(means, draws[..t], arms, obs, rewards, pulls, pulls0, rewards0, totalPulls, totalRewards)
    requires x == Bernoulli.Reward(means[b], draws[t])
    requires arms' == arms + [b] && obs' == obs + [x as real]
    requires rewards' == rewards[b := rewards[b] + x] && pulls' == pulls[b := pulls[b] + 1]
    requires totalPulls' == totalPulls[b := totalPulls[b] + 1] && totalRewards' == totalRewards[b := totalRewards[b] + x]
    ensures Booked(means, draws[..t + 1], arms', obs', rewards', pulls', pulls0, rewards0, totalPulls', totalRewards')
  {
    PaidByStep(means, arms, draws, obs, t, b, x);
    PlusBump(pulls0, pulls, b, 1);
    PlusBump(rewards0, rewards, b, x);
  }

  /** FollowTheLeader(bandit, n) with the draws of the pulls range(n) makes, none for a negative
      n. The source returns nothing; the
      local tallies are returned here, with the history of pulled arms and their rewards, so
      the contract can name them. */
  method FollowTheLeader(bandit: Bernoulli.BernoulliBandit, n: int, draws: seq<real>)
    returns (armRewards: seq<nat>, armPulls: seq<nat>, ghost arms: seq<nat>, ghost obs: seq<real>)
    requires bandit.Valid() && |draws| == Indexing.RangeLength(n)
    modifies bandit
    ensures bandit.Valid()
    ensures |arms| == Indexing.RangeLength(n) && Tallied(bandit.numArms, arms, obs, armRewards, armPulls)
    ensures PaidBy(bandit.means, arms, draws, obs)
    ensures Total(armPulls) == Indexing.RangeLength(n)
    ensures bandit.totalPulls == Plus(old(bandit.totalPulls), armPulls)
    ensures bandit.totalRewards == Plus(old(bandit.totalRewards), armRewards)
  {
    var k := bandit.numArms;
    armRewards := seq(k, _ => 0);
    armPulls := seq(k, _ => 0);
    arms, obs := [], [];
    ghost var pulls0, rewards0 := bandit.totalPulls, bandit.totalRewards;
    for t := 0 to |draws|
      invariant bandit.Valid() && bandit.numArms == k && |arms| == t && |armRewards| == |armPulls| == k
      invariant Tallied(k, arms, obs, armRewards, armPulls)
      invariant Booked(bandit.means, draws[..t], arms, obs, armRewards, armPulls, pulls0, rewards0,
                       bandit.totalPulls, bandit.totalRewards)
    {
      ghost var arms0, obs0, rewardsBefore, pullsBefore := arms, obs, armRewards, armPulls;
      ghost var totalPulls0, totalRewards0 := bandit.totalPulls, bandit.totalRewards;
      var bestArm, reward;
      bestArm, reward, armRewards, armPulls := Round(bandit, armRewards, armPulls, draws[t]);
      arms, obs := arms + [bestArm], obs + [reward as real];
      TallyStep(k, arms0, obs0, rewardsBefore, pullsBefore, bestArm, reward, arms, obs, armRewards, armPulls);
      BookedStep(bandit.means, draws, t, arms0, obs0, rewardsBefore, pullsBefore, pulls0, rewards0,
                 totalPulls0, totalRewards0, bestArm, reward, arms, obs, armRewards, armPulls,
                 bandit.totalPulls, bandit.totalRewards);
    }
    TotalOfCounts(k, arms);
    assert draws[..|draws|] == draws;
  }
}
