/**
 * The bandit environment: k arms, each paying its fixed reward with its fixed
 * probability. Built once, validated at construction, never changed afterwards.
 * The uniform draw that decides a pull is a parameter.
 */
module BanditEnvironment {
  import opened Failures

  datatype Environment = Environment(rewardProbabilities: seq<real>, actualRewards: seq<real>, kArms: nat)

  predicate IsProbability(p: real)
  {
    0.0 <= p <= 1.0
  }

  /** What construction guarantees: one probability and one reward per arm, every probability in [0, 1]. */
  ghost predicate Wellformed(env: Environment)
  {
    && |env.rewardProbabilities| == |env.actualRewards| == env.kArms
    && forall a :: 0 <= a < env.kArms ==> IsProbability(env.rewardProbabilities[a])
  }

  /** Environment(reward_probabilities, actual_rewards): the length check comes first, then the range check. */
  function Create(rewardProbabilities: seq<real>, actualRewards: seq<real>): (r: Result<Environment>)
    ensures |rewardProbabilities| != |actualRewards|
            ==> r == Err(LengthMismatch(|rewardProbabilities|, |actualRewards|))
    ensures |rewardProbabilities| == |actualRewards| && (exists i :: 0 <= i < |rewardProbabilities| && !IsProbability(rewardProbabilities[i]))
            ==> r == Err(ProbabilityOutOfRange)
    ensures r.Ok? <==> |rewardProbabilities| == |actualRewards| && forall i :: 0 <= i < |rewardProbabilities| ==> IsProbability(rewardProbabilities[i])
    ensures r.Ok? ==> && Wellformed(r.value)
                      && r.value.rewardProbabilities == rewardProbabilities
                      && r.value.actualRewards == actualRewards
                      && r.value.kArms == |rewardProbabilities|
  {
    if |rewardProbabilities| != |actualRewards| then
      Err(LengthMismatch(|rewardProbabilities|, |actualRewards|))
    else if !(forall i :: 0 <= i < |rewardProbabilities| ==> IsProbability(rewardProbabilities[i])) then
      Err(ProbabilityOutOfRange)
    else
      Ok(Environment(rewardProbabilities, actualRewards, |rewardProbabilities|))
  }

  /** choose_arm(arm) with uniform draw u: an out-of-range index fails; otherwise the arm pays
      its reward when u falls below its probability, and 0.0 when it does not. */
  function ChooseArm(env: Environment, arm: int, u: real): (r: Result<real>)
    requires Wellformed(env)
    ensures r.Err? <==> !(0 <= arm < env.kArms)
    ensures r.Err? ==> r.error == ArmOutOfRange(arm, env.kArms)
    ensures r.Ok? ==> r.value == env.actualRewards[arm] || r.value == 0.0
    ensures r.Ok? && u < env.rewardProbabilities[arm] ==> r.value == env.actualRewards[arm]
    ensures r.Ok? && env.rewardProbabilities[arm] <= u ==> r.value == 0.0
    ensures r.Ok? && env.rewardProbabilities[arm] == 1.0 && u < 1.0 ==> r.value == env.actualRewards[arm]
    ensures r.Ok? && env.rewardProbabilities[arm] == 0.0 && 0.0 <= u ==> r.value == 0.0
  {
    if !(0 <= arm < env.kArms) then Err(ArmOutOfRange(arm, env.kArms))
    else if u < env.rewardProbabilities[arm] then Ok(env.actualRewards[arm])
    else Ok(0.0)
  }

  /** Pulling arms[j] with draw draws[j] paid rewards[j], for every step j of a run; stated
      step by step from the last one back (PaysEach gives the pointwise reading). */
  predicate Pays(env: Environment, arms: seq<nat>, draws: seq<real>, rewards: seq<real>)
    requires Wellformed(env)
  {
    && |arms| == |draws| == |rewards|
    && (|arms| > 0 ==>
          var n := |arms| - 1;
          && Pays(env, arms[..n], draws[..n], rewards[..n])
          && ChooseArm(env, arms[n], draws[n]) == Ok(rewards[n]))
  }

  /** A run pays each step's reward: the environment gave rewards[j] for arms[j] under draws[j]. */
  lemma {:induction false} PaysEach(env: Environment, arms: seq<nat>, draws: seq<real>, rewards: seq<real>)
    requires Wellformed(env) && Pays(env, arms, draws, rewards)
    ensures forall j :: 0 <= j < |arms| ==> ChooseArm(env, arms[j], draws[j]) == Ok(rewards[j])
  {
    if |arms| > 0 {
      var n := |arms| - 1;
      PaysEach(env, arms[..n], draws[..n], rewards[..n]);
      forall j | 0 <= j < |arms|
        ensures ChooseArm(env, arms[j], draws[j]) == Ok(rewards[j])
      {
        if j < n {
          assert arms[..n][j] == arms[j] && draws[..n][j] == draws[j] && rewards[..n][j] == rewards[j];
        }
      }
    }
  }

  lemma PaysAppend(env: Environment, arms: seq<nat>, draws: seq<real>, rewards: seq<real>, a: nat, u: real, r: real)
    requires Wellformed(env) && Pays(env, arms, draws, rewards) && ChooseArm(env, a, u) == Ok(r)
    ensures Pays(env, arms + [a], draws + [u], rewards + [r])
  {
    assert (arms + [a])[..|arms|] == arms;
    assert (draws + [u])[..|draws|] == draws;
    assert (rewards + [r])[..|rewards|] == rewards;
  }
}
