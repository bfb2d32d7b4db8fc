/**
 * The greedy agent: every step pulls the first arm with the highest estimate, then applies
 * the shared incremental update and extends its reward list and prefix-mean list.
 */
module Greedy {
  import opened Failures
  import opened ValueEstimates
  import BanditEnvironment
  import Indexing
  import Sampling

  class GreedyAgent {
    const environment: BanditEnvironment.Environment
    const iterations: int
    const qValues: array<real>
    const armCounts: array<nat>
    const armRewards: array<real>
    var rewards: seq<real>
    var cumRewards: seq<real>
    /** The arm pulled at each step so far, oldest first; the source does not keep it. */
    ghost var arms: seq<nat>
    /** The uniform draw that decided each step's reward, oldest first. */
    ghost var draws: seq<real>

    ghost predicate Valid()
      reads this, qValues, armCounts, armRewards
    {
      && BanditEnvironment.Wellformed(environment)
      && qValues.Length == armCounts.Length == armRewards.Length == environment.kArms
      && qValues != armRewards
      && Consistent(environment, arms, draws, rewards, cumRewards, armCounts[..], qValues[..], armRewards[..])
    }

    /** All estimates, counts and totals start at zero; both lists start as [0.0]. */
    constructor (environment: BanditEnvironment.Environment, maxIterations: int)
      requires BanditEnvironment.Wellformed(environment)
      ensures Valid()
      ensures this.environment == environment && iterations == maxIterations
      ensures fresh(qValues) && fresh(armCounts) && fresh(armRewards)
      ensures arms == [] && draws == [] && rewards == [0.0] && cumRewards == [0.0]
      ensures qValues[..] == armRewards[..] == seq(environment.kArms, _ => 0.0)
      ensures armCounts[..] == seq(environment.kArms, _ => 0)
    {
      this.environment := environment;
      iterations := maxIterations;
      qValues := new real[environment.kArms](_ => 0.0);
      armCounts := new nat[environment.kArms](_ => 0);
      armRewards := new real[environment.kArms](_ => 0.0);
      rewards := [0.0];
      cumRewards := [0.0];
      arms, draws := [], [];
      new;
      InitialHistory(environment.kArms);
    }

    /** act(): `iterations` greedy steps, the reward of step i decided by rewardDraws[i].
        With no arms and at least one step, numpy's argmax fails before anything changes. */
    method Act(rewardDraws: seq<real>) returns (result: Result<RunRecord>)
      requires Valid()
      requires |rewardDraws| == Indexing.RangeLength(iterations) && Sampling.AllUniform(rewardDraws)
      modifies this, qValues, armCounts, armRewards
      ensures Valid()
      ensures result.Ok? <==> environment.kArms > 0 || iterations <= 0
      ensures result.Err? ==> result.error == EmptyArgMax && unchanged(this, qValues, armCounts, armRewards)
      ensures result.Ok? ==> result.value == RunRecord(armCounts[..], rewards, cumRewards)
      ensures result.Ok? ==> draws == old(draws) + rewardDraws && |arms| == old(|arms|) + Indexing.RangeLength(iterations)
      ensures old(arms) <= arms
      ensures Total(armCounts[..]) == |arms|
    {
      if environment.kArms == 0 && iterations > 0 {
        TotalOfCounts(environment.kArms, arms);
        return Err(EmptyArgMax);
      }
      Run(rewardDraws);
      TotalOfCounts(environment.kArms, arms);
      return Ok(RunRecord(armCounts[..], rewards, cumRewards));
    }

    /** act's loop: one Step per draw. */
    method Run(rewardDraws: seq<real>)
      requires Valid() && (environment.kArms > 0 || rewardDraws == [])
      modifies this, qValues, armCounts, armRewards
      ensures Valid()
      ensures draws == old(draws) + rewardDraws
      ensures old(arms) <= arms
    {
      ghost var arms0, draws0 := arms, draws;
      for i := 0 to |rewardDraws|
        invariant Valid()
        invariant draws == draws0 + rewardDraws[..i]
        invariant arms0 <= arms
      {
        ghost var before := arms;
        Sampling.ConsumeDraw(draws0, rewardDraws, i);
        Step(rewardDraws[i]);
        PrefixOfExtension(arms0, before, arms[|arms| - 1]);
      }
      assert rewardDraws[..|rewardDraws|] == rewardDraws;
    }

    /** One pass of act's loop: pull the first arm with the highest estimate, apply the shared
        incremental update, then grow both lists by one. */
    method Step(draw: real)
      requires Valid() && environment.kArms > 0
      modifies this, qValues, armCounts, armRewards
      ensures Valid()
      ensures arms == old(arms) + [ArgMax(old(qValues[..]))] && draws == old(draws) + [draw]
      ensures rewards == old(rewards) + [BanditEnvironment.ChooseArm(environment, arms[|arms| - 1], draw).value]
      ensures cumRewards == old(cumRewards) + [Mean(rewards)]
    {
      var arm := ArgMax(qValues[..]);
      var reward := BanditEnvironment.ChooseArm(environment, arm, draw).value;
      ghost var arms0, draws0, rewards0, cum0 := arms, draws, rewards, cumRewards;
      ghost var counts0, q0, sums0 := armCounts[..], qValues[..], armRewards[..];
      UpdateStatistics(arm, reward);
      var rewards' := rewards + [reward];
      rewards, cumRewards := rewards', cumRewards + [Mean(rewards')];
      arms, draws := arms + [arm], draws + [draw];
      ConsistentStep(environment, arms0, draws0, rewards0, cum0, counts0, q0, sums0, draw, arm, reward,
                     arms, draws, rewards, cumRewards, armCounts[..], qValues[..], armRewards[..]);
    }

    /** The shared bookkeeping after a pull of arm paying reward: one more pull and reward
        for that arm, and the incremental step on its estimate; no other arm changes. */
    method UpdateStatistics(arm: nat, reward: real)
      requires arm < qValues.Length == armCounts.Length == armRewards.Length && qValues != armRewards
      modifies qValues, armCounts, armRewards
      ensures armCounts[..] == old(armCounts[..])[arm := old(armCounts[arm]) + 1]
      ensures armRewards[..] == old(armRewards[..])[arm := old(armRewards[arm]) + reward]
      ensures qValues[..] == old(qValues[..])[arm := IncrementalStep(old(qValues[arm]), old(armCounts[arm]) + 1, reward)]
    {
      armCounts[arm] := armCounts[arm] + 1;
      armRewards[arm] := armRewards[arm] + reward;
      qValues[arm] := IncrementalStep(qValues[arm], armCounts[arm], reward);
    }
  }

  /** The greedy agent's state as a function of its history: the shared statistics, every
      step greedy, every reward the one the environment paid. */
  ghost predicate Consistent(env: BanditEnvironment.Environment, arms: seq<nat>, draws: seq<real>, rewards: seq<real>,
                             cum: seq<real>, counts: seq<nat>, q: seq<real>, sums: seq<real>)
    requires BanditEnvironment.Wellformed(env)
  {
    && History(env.kArms, arms, rewards, cum, counts, q, sums)
    && GreedyChoices(env.kArms, arms, rewards[1..])
    && BanditEnvironment.Pays(env, arms, draws, rewards[1..])
  }

  /** One greedy step keeps the state consistent with its history: the primed values are
      the state after pulling the first arm with the highest estimate and receiving r. */
  lemma ConsistentStep(env: BanditEnvironment.Environment, arms: seq<nat>, draws: seq<real>, rewards: seq<real>,
                       cum: seq<real>, counts: seq<nat>, q: seq<real>, sums: seq<real>, draw: real, a: nat, r: real,
                       arms': seq<nat>, draws': seq<real>, rewards': seq<real>, cum': seq<real>,
                       counts': seq<nat>, q': seq<real>, sums': seq<real>)
    requires BanditEnvironment.Wellformed(env) && env.kArms > 0
    requires Consistent(env, arms, draws, rewards, cum, counts, q, sums)
    requires |q| == env.kArms && a == ArgMax(q) && BanditEnvironment.ChooseArm(env, a, draw) == Ok(r)
    requires arms' == arms + [a] && draws' == draws + [draw] && rewards' == rewards + [r] && cum' == cum + [Mean(rewards')]
    requires counts' == counts[a := counts[a] + 1] && sums' == sums[a := sums[a] + r]
    requires q' == q[a := IncrementalStep(q[a], counts[a] + 1, r)]
    ensures Consistent(env, arms', draws', rewards', cum', counts', q', sums')
  {
    RecordStep(env.kArms, arms, rewards, cum, counts, q, sums, a, r);
    GreedyChoicesExtend(env.kArms, arms, rewards[1..], r);
    BanditEnvironment.PaysAppend(env, arms, draws, rewards[1..], a, draw, r);
  }
}
