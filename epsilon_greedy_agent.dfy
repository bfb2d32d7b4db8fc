/**
 * The epsilon-greedy agent: every step first draws u; when u < epsilon it explores an arm
 * chosen uniformly at random, otherwise it exploits the first arm with the highest
 * estimate. The bookkeeping after the pull is the one every agent shares.
 */
module EpsilonGreedy {
  import opened Failures
  import opened ValueEstimates
  import BanditEnvironment
  import Indexing
  import Sampling

  /** The arm one step pulls: explore with the choice draw c when the explore draw e falls
      below epsilon, exploit the estimates q otherwise. With no arms the explore branch fails
      in numpy's random choice and the exploit branch in its argmax. */
  function EpsilonArm(k: nat, epsilon: real, q: seq<real>, e: real, c: real): (r: Result<nat>)
    requires |q| == k && Sampling.Uniform(c)
    ensures r.Err? <==> k == 0
    ensures r.Err? ==> r.error == (if e < epsilon then EmptyChoice else EmptyArgMax)
    ensures r.Ok? ==> r.value < k
    ensures e < epsilon ==> r == Sampling.Choice(k, c)
    ensures epsilon <= e && r.Ok? ==> IsFirstMax(q, r.value)
  {
    if e < epsilon then Sampling.Choice(k, c)
    else if k == 0 then Err(EmptyArgMax)
    else Ok(ArgMax(q))
  }

  /** Every step so far pulled the arm EpsilonArm gives for that step's draws and for the
      estimates over what had been observed before it. */
  ghost predicate EpsilonChoices(k: nat, epsilon: real, arms: seq<nat>, obs: seq<real>, explores: seq<real>, choices: seq<real>)
    decreases |arms|
  {
    && |arms| == |obs| == |explores| == |choices|
    && (|arms| > 0 ==>
          && EpsilonChoices(k, epsilon, arms[..|arms| - 1], obs[..|arms| - 1], explores[..|arms| - 1], choices[..|arms| - 1])
          && Sampling.Uniform(choices[|arms| - 1])
          && EpsilonArm(k, epsilon, Estimates(k, arms[..|arms| - 1], obs[..|arms| - 1]), explores[|arms| - 1], choices[|arms| - 1])
             == Ok(arms[|arms| - 1]))
  }

  lemma EpsilonChoicesExtend(k: nat, epsilon: real, arms: seq<nat>, obs: seq<real>, explores: seq<real>, choices: seq<real>,
                             e: real, c: real, a: nat, r: real)
    requires EpsilonChoices(k, epsilon, arms, obs, explores, choices) && Sampling.Uniform(c)
    requires EpsilonArm(k, epsilon, Estimates(k, arms, obs), e, c) == Ok(a)
    ensures EpsilonChoices(k, epsilon, arms + [a], obs + [r], explores + [e], choices + [c])
  {
    assert (arms + [a])[..|arms|] == arms && (obs + [r])[..|obs|] == obs;
    assert (explores + [e])[..|explores|] == explores && (choices + [c])[..|choices|] == choices;
  }

  /** With nothing but zero rewards every exploiting step pulls arm 0. */
  lemma {:induction false} AllZeroRewardsExploitArmZero(k: nat, epsilon: real, arms: seq<nat>, obs: seq<real>,
                                                          explores: seq<real>, choices: seq<real>)
    requires EpsilonChoices(k, epsilon, arms, obs, explores, choices)
    requires forall i :: 0 <= i < |obs| ==> obs[i] == 0.0
    ensures forall j :: 0 <= j < |arms| && epsilon <= explores[j] ==> arms[j] == 0
    decreases |arms|
  {
    if |arms| > 0 {
      var n := |arms| - 1;
      AllZeroRewardsExploitArmZero(k, epsilon, arms[..n], obs[..n], explores[..n], choices[..n]);
      ZeroRewardsZeroEstimates(k, arms[..n], obs[..n]);
      forall j | 0 <= j < |arms| && epsilon <= explores[j]
        ensures arms[j] == 0
      {
        if j < n {
          assert arms[j] == arms[..n][j] && explores[j] == explores[..n][j];
        } else {
          var zeros: seq<real> := seq(k, _ => 0.0);
          assert IsFirstMax(zeros, arms[n]);
          assert zeros[0] == 0.0;
        }
      }
    }
  }

  class EpsilonGreedyAgent {
    const environment: BanditEnvironment.Environment
    const iterations: int
    const epsilon: real
    const qValues: array<real>
    const armCounts: array<nat>
    const armRewards: array<real>
    var rewards: seq<real>
    var cumRewards: seq<real>
    /** The arm pulled at each step so far, oldest first; the source does not keep it. */
    ghost var arms: seq<nat>
    /** The explore/exploit draw, the random-choice draw and the reward draw of each step. */
    ghost var explores: seq<real>
    ghost var choices: seq<real>
    ghost var draws: seq<real>

    ghost predicate Valid()
      reads this, qValues, armCounts, armRewards
    {
      && BanditEnvironment.Wellformed(environment)
      && qValues.Length == armCounts.Length == armRewards.Length == environment.kArms
      && qValues != armRewards
      && Consistent(environment, epsilon, arms, explores, choices, draws, rewards, cumRewards, armCounts[..], qValues[..], armRewards[..])
    }

    /** All estimates, counts and totals start at zero; both lists start as [0.0]. */
    constructor (environment: BanditEnvironment.Environment, maxIterations: int, epsilon: real)
      requires BanditEnvironment.Wellformed(environment)
      ensures Valid()
      ensures this.environment == environment && iterations == maxIterations && this.epsilon == epsilon
      ensures fresh(qValues) && fresh(armCounts) && fresh(armRewards)
      ensures arms == [] && rewards == [0.0] && cumRewards == [0.0]
      ensures qValues[..] == armRewards[..] == seq(environment.kArms, _ => 0.0)
      ensures armCounts[..] == seq(environment.kArms, _ => 0)
    {
      this.environment := environment;
      iterations := maxIterations;
      this.epsilon := epsilon;
      qValues := new real[environment.kArms](_ => 0.0);
      armCounts := new nat[environment.kArms](_ => 0);
      armRewards := new real[environment.kArms](_ => 0.0);
      rewards := [0.0];
      cumRewards := [0.0];
      arms, explores, choices, draws := [], [], [], [];
      new;
      InitialHistory(environment.kArms);
    }

    /** act(): `iterations` epsilon-greedy steps; step i explores when exploreDraws[i] < epsilon,
        then with choiceDraws[i], and its reward is decided by rewardDraws[i]. With no arms and
        at least one step, the first step fails before anything changes. */
    method Act(exploreDraws: seq<real>, choiceDraws: seq<real>, rewardDraws: seq<real>) returns (result: Result<RunRecord>)
      requires Valid()
      requires |exploreDraws| == |choiceDraws| == |rewardDraws| == Indexing.RangeLength(iterations)
      requires Sampling.AllUniform(exploreDraws) && Sampling.AllUniform(choiceDraws) && Sampling.AllUniform(rewardDraws)
      modifies this, qValues, armCounts, armRewards
      ensures Valid()
      ensures result.Ok? <==> environment.kArms > 0 || iterations <= 0
      ensures result.Err? ==> && result.error == (if exploreDraws[0] < epsilon then EmptyChoice else EmptyArgMax)
                              && unchanged(this, qValues, armCounts, armRewards)
      ensures result.Ok? ==> result.value == RunRecord(armCounts[..], rewards, cumRewards)
      ensures result.Ok? ==> && explores == old(explores) + exploreDraws && choices == old(choices) + choiceDraws
                             && draws == old(draws) + rewardDraws && |arms| == old(|arms|) + Indexing.RangeLength(iterations)
      ensures old(arms) <= arms
      ensures Total(armCounts[..]) == |arms|
    {
      if environment.kArms == 0 && iterations > 0 {
        TotalOfCounts(environment.kArms, arms);
        return Err(if exploreDraws[0] < epsilon then EmptyChoice else EmptyArgMax);
      }
      Run(exploreDraws, choiceDraws, rewardDraws);
      TotalOfCounts(environment.kArms, arms);
      return Ok(RunRecord(armCounts[..], rewards, cumRewards));
    }

    /** act's loop: one Step per triple of draws. */
    method Run(exploreDraws: seq<real>, choiceDraws: seq<real>, rewardDraws: seq<real>)
      requires Valid() && (environment.kArms > 0 || rewardDraws == [])
      requires |exploreDraws| == |choiceDraws| == |rewardDraws| && Sampling.AllUniform(choiceDraws)
      modifies this, qValues, armCounts, armRewards
      ensures Valid()
      ensures explores == old(explores) + exploreDraws && choices == old(choices) + choiceDraws
      ensures draws == old(draws) + rewardDraws
      ensures old(arms) <= arms
    {
      ghost var arms0, explores0, choices0, draws0 := arms, explores, choices, draws;
      for i := 0 to |rewardDraws|
        invariant Valid()
        invariant explores == explores0 + exploreDraws[..i] && choices == choices0 + choiceDraws[..i]
        invariant draws == draws0 + rewardDraws[..i]
        invariant arms0 <= arms
      {
        ghost var before := arms;
        Sampling.ConsumeDraw(explores0, exploreDraws, i);
        Sampling.ConsumeDraw(choices0, choiceDraws, i);
        Sampling.ConsumeDraw(draws0, rewardDraws, i);
        Step(exploreDraws[i], choiceDraws[i], rewardDraws[i]);
        PrefixOfExtension(arms0, before, arms[|arms| - 1]);
      }
      assert exploreDraws[..|exploreDraws|] == exploreDraws && choiceDraws[..|choiceDraws|] == choiceDraws;
      assert rewardDraws[..|rewardDraws|] == rewardDraws;
    }

    /** One pass of act's loop: explore or exploit, pull, apply the shared incremental update,
        then grow both lists by one. */
    method Step(explore: real, choice: real, draw: real)
      requires Valid() && environment.kArms > 0 && Sampling.Uniform(choice)
      modifies this, qValues, armCounts, armRewards
      ensures Valid()
      ensures arms == old(arms) + [EpsilonArm(environment.kArms, epsilon, old(qValues[..]), explore, choice).value]
      ensures explores == old(explores) + [explore] && choices == old(choices) + [choice] && draws == old(draws) + [draw]
      ensures rewards == old(rewards) + [BanditEnvironment.ChooseArm(environment, arms[|arms| - 1], draw).value]
      ensures cumRewards == old(cumRewards) + [Mean(rewards)]
    {
      var arm := SelectArm(explore, choice);
      var reward := BanditEnvironment.ChooseArm(environment, arm, draw).value;
      ghost var arms0, explores0, choices0, draws0, rewards0, cum0 := arms, explores, choices, draws, rewards, cumRewards;
      ghost var counts0, q0, sums0 := armCounts[..], qValues[..], armRewards[..];
      UpdateStatistics(arm, reward);
      var rewards' := rewards + [reward];
      rewards, cumRewards := rewards', cumRewards + [Mean(rewards')];
      arms, explores, choices, draws := arms + [arm], explores + [explore], choices + [choice], draws + [draw];
      ConsistentStep(environment, epsilon, arms0, explores0, choices0, draws0, rewards0, cum0, counts0, q0, sums0,
                     explore, choice, draw, arm, reward,
                     arms, explores, choices, draws, rewards, cumRewards, armCounts[..], qValues[..], armRewards[..]);
    }

    /** The branch at the top of act's loop: explore with numpy's random choice when the
        explore draw falls below epsilon, exploit with its argmax otherwise. */
    method SelectArm(explore: real, choice: real) returns (arm: nat)
      requires qValues.Length == environment.kArms > 0 && Sampling.Uniform(choice)
      ensures EpsilonArm(environment.kArms, epsilon, qValues[..], explore, choice) == Ok(arm)
    {
      if explore < epsilon {
        arm := Sampling.Choice(environment.kArms, choice).value;
      } else {
        arm := ArgMax(qValues[..]);
      }
    }

    /** The shared bookkeeping after a pull of arm paying reward: one more pull and reward
        for that arm, and the incremental step on its estimate; no other arm changes. */
    method UpdateStatistics(arm: nat, reward: real)
      requires arm < qValues.Length == armCounts.Length == armRewards.Length && qValues != armRewards
      modifies qValues, armCounts, armRewards
      ensures armCounts[..] == old(armCounts[..])[arm := old(armCounts[arm]) + 1]
      ensures armRewards[..] == old(armRewards[..])[arm := old(armRewards[arm]) + reward]
      ensures qValues[..] == old(qValues[..])[arm := IncrementalStep(old(qValues[arm]), old(armCounts[arm]) + 1, reward)]
    {
      armCounts[arm] := armCounts[arm] + 1;
      armRewards[arm] := armRewards[arm] + reward;
      qValues[arm] := IncrementalStep(qValues[arm], armCounts[arm], reward);
    }
  }

  /** The epsilon-greedy agent's state as a function of its history: the shared statistics,
      every step's arm the one its draws select, every reward the one the environment paid. */
  ghost predicate Consistent(env: BanditEnvironment.Environment, epsilon: real, arms: seq<nat>, explores: seq<real>,
                             choices: seq<real>, draws: seq<real>, rewards: seq<real>, cum: seq<real>,
                             counts: seq<nat>, q: seq<real>, sums: seq<real>)
    requires BanditEnvironment.Wellformed(env)
  {
    && History(env.kArms, arms, rewards, cum, counts, q, sums)
    && EpsilonChoices(env.kArms, epsilon, arms, rewards[1..], explores, choices)
    && BanditEnvironment.Pays(env, arms, draws, rewards[1..])
  }

  /** One step keeps the state consistent with its history: the primed values are the state
      after pulling a (chosen by EpsilonArm from draws e and c) and receiving r. */
  lemma ConsistentStep(env: BanditEnvironment.Environment, epsilon: real, arms: seq<nat>, explores: seq<real>,
                       choices: seq<real>, draws: seq<real>, rewards: seq<real>, cum: seq<real>,
                       counts: seq<nat>, q: seq<real>, sums: seq<real>, e: real, c: real, draw: real, a: nat, r: real,
                       arms': seq<nat>, explores': seq<real>, choices': seq<real>, draws': seq<real>, rewards': seq<real>,
                       cum': seq<real>, counts': seq<nat>, q': seq<real>, sums': seq<real>)
    requires BanditEnvironment.Wellformed(env) && Sampling.Uniform(c)
    requires Consistent(env, epsilon, arms, explores, choices, draws, rewards, cum, counts, q, sums)
    requires |q| == env.kArms && EpsilonArm(env.kArms, epsilon, q, e, c) == Ok(a)
    requires BanditEnvironment.ChooseArm(env, a, draw) == Ok(r)
    requires arms' == arms + [a] && explores' == explores + [e] && choices' == choices + [c] && draws' == draws + [draw]
    requires rewards' == rewards + [r] && cum' == cum + [Mean(rewards')]
    requires counts' == counts[a := counts[a] + 1] && sums' == sums[a := sums[a] + r]
    requires q' == q[a := IncrementalStep(q[a], counts[a] + 1, r)]
    ensures Consistent(env, epsilon, arms', explores', choices', draws', rewards', cum', counts', q', sums')
  {
    RecordStep(env.kArms, arms, rewards, cum, counts, q, sums, a, r);
    EpsilonChoicesExtend(env.kArms, epsilon, arms, rewards[1..], explores, choices, e, c, a, r);
    BanditEnvironment.PaysAppend(env, arms, draws, rewards[1..], a, draw, r);
  }
}
