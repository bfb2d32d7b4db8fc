/**
 * The random agent: every step pulls an arm chosen uniformly at random, then applies the
 * bookkeeping every agent shares.
 */
module RandomPolicy {
  import opened Failures
  import opened ValueEstimates
  import BanditEnvironment
  import Indexing
  import Sampling

  /** Every step so far pulled the arm numpy's random choice gives for that step's draw. */
  ghost predicate RandomChoices(k: nat, arms: seq<nat>, choices: seq<real>)
    decreases |arms|
  {
    && |arms| == |choices|
    && (|arms| > 0 ==>
          && RandomChoices(k, arms[..|arms| - 1], choices[..|arms| - 1])
          && Sampling.Uniform(choices[|arms| - 1])
          && Sampling.Choice(k, choices[|arms| - 1]) == Ok(arms[|arms| - 1]))
  }

  lemma RandomChoicesExtend(k: nat, arms: seq<nat>, choices: seq<real>, c: real, a: nat)
    requires RandomChoices(k, arms, choices) && Sampling.Uniform(c) && Sampling.Choice(k, c) == Ok(a)
    ensures RandomChoices(k, arms + [a], choices + [c])
  {
    assert (arms + [a])[..|arms|] == arms && (choices + [c])[..|choices|] == choices;
  }

  /** Every randomly chosen arm is in range, so the environment never refuses one of them. */
  lemma {:induction false} RandomChoicesNeverFail(env: BanditEnvironment.Environment, arms: seq<nat>, choices: seq<real>)
    requires BanditEnvironment.Wellformed(env) && RandomChoices(env.kArms, arms, choices)
    ensures forall j :: 0 <= j < |arms| ==> arms[j] < env.kArms
    ensures forall j, u :: 0 <= j < |arms| ==> BanditEnvironment.ChooseArm(env, arms[j], u).Ok?
    decreases |arms|
  {
    if |arms| > 0 {
      var n := |arms| - 1;
      RandomChoicesNeverFail(env, arms[..n], choices[..n]);
      forall j | 0 <= j < |arms|
        ensures arms[j] < env.kArms
      {
        if j < n {
          assert arms[j] == arms[..n][j];
        }
      }
    }
  }

  class RandomAgent {
    const environment: BanditEnvironment.Environment
    const iterations: int
    const qValues: array<real>
    const armCounts: array<nat>
    const armRewards: array<real>
    var rewards: seq<real>
    var cumulativeRewards: seq<real>
    /** The arm pulled at each step so far, oldest first; the source does not keep it. */
    ghost var arms: seq<nat>
    /** The random-choice draw and the reward draw of each step. */
    ghost var choices: seq<real>
    ghost var draws: seq<real>

    ghost predicate Valid()
      reads this, qValues, armCounts, armRewards
    {
      && BanditEnvironment.Wellformed(environment)
      && qValues.Length == armCounts.Length == armRewards.Length == environment.kArms
      && qValues != armRewards
      && Consistent(environment, arms, choices, draws, rewards, cumulativeRewards, armCounts[..], qValues[..], armRewards[..])
    }

    /** All estimates, counts and totals start at zero; both lists start as [0.0]. */
    constructor (environment: BanditEnvironment.Environment, maxIterations: int)
      requires BanditEnvironment.Wellformed(environment)
      ensures Valid()
      ensures this.environment == environment && iterations == maxIterations
      ensures fresh(qValues) && fresh(armCounts) && fresh(armRewards)
      ensures arms == [] && rewards == [0.0] && cumulativeRewards == [0.0]
      ensures qValues[..] == armRewards[..] == seq(environment.kArms, _ => 0.0)
      ensures armCounts[..] == seq(environment.kArms, _ => 0)
    {
      this.environment := environment;
      iterations := maxIterations;
      qValues := new real[environment.kArms](_ => 0.0);
      armCounts := new nat[environment.kArms](_ => 0);
      armRewards := new real[environment.kArms](_ => 0.0);
      rewards := [0.0];
      cumulativeRewards := [0.0];
      arms, choices, draws := [], [], [];
      new;
      InitialHistory(environment.kArms);
    }

    /** act(): `iterations` random steps; step i pulls the arm choiceDraws[i] selects and its
        reward is decided by rewardDraws[i]. With no arms and at least one step, numpy's random
        choice fails before anything changes. */
    method Act(choiceDraws: seq<real>, rewardDraws: seq<real>) returns (result: Result<RunRecord>)
      requires Valid()
      requires |choiceDraws| == |rewardDraws| == Indexing.RangeLength(iterations)
      requires Sampling.AllUniform(choiceDraws) && Sampling.AllUniform(rewardDraws)
      modifies this, qValues, armCounts, armRewards
      ensures Valid()
      ensures result.Ok? <==> environment.kArms > 0 || iterations <= 0
      ensures result.Err? ==> result.error == EmptyChoice && unchanged(this, qValues, armCounts, armRewards)
      ensures result.Ok? ==> result.value == RunRecord(armCounts[..], rewards, cumulativeRewards)
      ensures result.Ok? ==> && choices == old(choices) + choiceDraws && draws == old(draws) + rewardDraws
                             && |arms| == old(|arms|) + Indexing.RangeLength(iterations)
      ensures old(arms) <= arms
      ensures Total(armCounts[..]) == |arms|
    {
      if environment.kArms == 0 && iterations > 0 {
        TotalOfCounts(environment.kArms, arms);
        return Err(EmptyChoice);
      }
      Run(choiceDraws, rewardDraws);
      TotalOfCounts(environment.kArms, arms);
      return Ok(RunRecord(armCounts[..], rewards, cumulativeRewards));
    }

    /** act's loop: one Step per pair of draws. */
    method Run(choiceDraws: seq<real>, rewardDraws: seq<real>)
      requires Valid() && (environment.kArms > 0 || rewardDraws == [])
      requires |choiceDraws| == |rewardDraws| && Sampling.AllUniform(choiceDraws)
      modifies this, qValues, armCounts, armRewards
      ensures Valid()
      ensures choices == old(choices) + choiceDraws && draws == old(draws) + rewardDraws
      ensures old(arms) <= arms
    {
      ghost var arms0, choices0, draws0 := arms, choices, draws;
      for i := 0 to |rewardDraws|
        invariant Valid()
        invariant choices == choices0 + choiceDraws[..i] && draws == draws0 + rewardDraws[..i]
        invariant arms0 <= arms
      {
        ghost var before := arms;
        Sampling.ConsumeDraw(choices0, choiceDraws, i);
        Sampling.ConsumeDraw(draws0, rewardDraws, i);
        Step(choiceDraws[i], rewardDraws[i]);
        PrefixOfExtension(arms0, before, arms[|arms| - 1]);
      }
      assert choiceDraws[..|choiceDraws|] == choiceDraws && rewardDraws[..|rewardDraws|] == rewardDraws;
    }

    /** One pass of act's loop: pull a random arm, apply the shared incremental update, then
        grow both lists by one. */
    method Step(choice: real, draw: real)
      requires Valid() && environment.kArms > 0 && Sampling.Uniform(choice)
      modifies this, qValues, armCounts, armRewards
      ensures Valid()
      ensures arms == old(arms) + [Sampling.Choice(environment.kArms, choice).value]
      ensures choices == old(choices) + [choice] && draws == old(draws) + [draw]
      ensures rewards == old(rewards) + [BanditEnvironment.ChooseArm(environment, arms[|arms| - 1], draw).value]
      ensures cumulativeRewards == old(cumulativeRewards) + [Mean(rewards)]
    {
      var arm := Sampling.Choice(environment.kArms, choice).value;
      var reward := BanditEnvironment.ChooseArm(environment, arm, draw).value;
      ghost var arms0, choices0, draws0, rewards0, cum0 := arms, choices, draws, rewards, cumulativeRewards;
      ghost var counts0, q0, sums0 := armCounts[..], qValues[..], armRewards[..];
      UpdateStatistics(arm, reward);
      var rewards' := rewards + [reward];
      rewards, cumulativeRewards := rewards', cumulativeRewards + [Mean(rewards')];
      arms, choices, draws := arms + [arm], choices + [choice], draws + [draw];
      ConsistentStep(environment, arms0, choices0, draws0, rewards0, cum0, counts0, q0, sums0, choice, draw, arm, reward,
                     arms, choices, draws, rewards, cumulativeRewards, armCounts[..], qValues[..], armRewards[..]);
    }

    /** The shared bookkeeping after a pull of arm paying reward: one more pull and reward
        for that arm, and the incremental step on its estimate; no other arm changes. */
    method UpdateStatistics(arm: nat, reward: real)
      requires arm < qValues.Length == armCounts.Length == armRewards.Length && qValues != armRewards
      modifies qValues, armCounts, armRewards
      ensures armCounts[..] == old(armCounts[..])[arm := old(armCounts[arm]) + 1]
      ensures armRewards[..] == old(armRewards[..])[arm := old(armRewards[arm]) + reward]
      ensures qValues[..] == old(qValues[..])[arm := IncrementalStep(old(qValues[arm]), old(armCounts[arm]) + 1, reward)]
    {
      armCounts[arm] := armCounts[arm] + 1;
      armRewards[arm] := armRewards[arm] + reward;
      qValues[arm] := IncrementalStep(qValues[arm], armCounts[arm], reward);
    }
  }

  /** The random agent's state as a function of its history: the shared statistics, every
      step's arm the one its choice draw selects, every reward the one the environment paid. */
  ghost predicate Consistent(env: BanditEnvironment.Environment, arms: seq<nat>, choices: seq<real>, draws: seq<real>,
                             rewards: seq<real>, cum: seq<real>, counts: seq<nat>, q: seq<real>, sums: seq<real>)
    requires BanditEnvironment.Wellformed(env)
  {
    && History(env.kArms, arms, rewards, cum, counts, q, sums)
    && RandomChoices(env.kArms, arms, choices)
    && BanditEnvironment.Pays(env, arms, draws, rewards[1..])
  }

  /** One random step keeps the state consistent with its history: the primed values are the
      state after pulling the arm choice draw c selects and receiving r. */
  lemma ConsistentStep(env: BanditEnvironment.Environment, arms: seq<nat>, choices: seq<real>, draws: seq<real>,
                       rewards: seq<real>, cum: seq<real>, counts: seq<nat>, q: seq<real>, sums: seq<real>,
                       c: real, draw: real, a: nat, r: real,
                       arms': seq<nat>, choices': seq<real>, draws': seq<real>, rewards': seq<real>, cum': seq<real>,
                       counts': seq<nat>, q': seq<real>, sums': seq<real>)
    requires BanditEnvironment.Wellformed(env) && Sampling.Uniform(c)
    requires Consistent(env, arms, choices, draws, rewards, cum, counts, q, sums)
    requires Sampling.Choice(env.kArms, c) == Ok(a) && BanditEnvironment.ChooseArm(env, a, draw) == Ok(r)
    requires arms' == arms + [a] && choices' == choices + [c] && draws' == draws + [draw]
    requires rewards' == rewards + [r] && cum' == cum + [Mean(rewards')]
    requires counts' == counts[a := counts[a] + 1] && sums' == sums[a := sums[a] + r]
    requires q' == q[a := IncrementalStep(q[a], counts[a] + 1, r)]
    ensures Consistent(env, arms', choices', draws', rewards', cum', counts', q', sums')
  {
    RecordStep(env.kArms, arms, rewards, cum, counts, q, sums, a, r);
    RandomChoicesExtend(env.kArms, arms, choices, c, a);
    BanditEnvironment.PaysAppend(env, arms, draws, rewards[1..], a, draw, r);
  }
}
