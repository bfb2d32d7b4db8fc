/**
 * The UCB agent: in round t of act (t counting from 1), the first k_arms rounds pull arm
 * t - 1; later rounds pull the first arm with the highest score q + c * bonus(t, count).
 * The exploration term sqrt(log(t) / (count + 1e-10)) is the uninterpreted function
 * `bonus`. The agent keeps counts and estimates but no reward totals.
 */
module Ucb {
  import opened Failures
  import opened ValueEstimates
  import BanditEnvironment
  import Indexing
  import Sampling

  /** The vector act compares in round t: each arm's estimate plus c times its bonus. */
  function Scores(q: seq<real>, counts: seq<nat>, c: real, bonus: (nat, nat) -> real, t: nat): (s: seq<real>)
    requires |q| == |counts|
    ensures |s| == |q|
    ensures forall a, b :: 0 <= a < |s| && 0 <= b < |s| && counts[a] == counts[b] && q[a] <= q[b] ==> s[a] <= s[b]
  {
    seq(|q|, a requires 0 <= a < |q| => q[a] + c * bonus(t, counts[a]))
  }

  /** The arm round t pulls: t - 1 while t <= k, the first maximal score afterwards. With no
      arms the first round already reaches numpy's argmax over nothing. */
  function UcbArm(k: nat, c: real, bonus: (nat, nat) -> real, t: nat, q: seq<real>, counts: seq<nat>): (r: Result<nat>)
    requires |q| == |counts| == k && t >= 1
    ensures r.Err? <==> k == 0
    ensures r.Err? ==> r.error == EmptyArgMax
    ensures r.Ok? ==> r.value < k
    ensures t <= k ==> r == Ok(t - 1)
    ensures 0 < k < t ==> r.Ok? && IsFirstMax(Scores(q, counts, c, bonus, t), r.value)
  {
    if t <= k then Ok(t - 1)
    else if k == 0 then Err(EmptyArgMax)
    else Ok(ArgMax(Scores(q, counts, c, bonus, t)))
  }

  /** Every step so far pulled the arm UcbArm gives for its round, over the counts and
      estimates of what had been observed before it. */
  ghost predicate UcbChoices(k: nat, c: real, bonus: (nat, nat) -> real, arms: seq<nat>, obs: seq<real>, rounds: seq<nat>)
    decreases |arms|
  {
    && |arms| == |obs| == |rounds|
    && (|arms| > 0 ==>
          && UcbChoices(k, c, bonus, arms[..|arms| - 1], obs[..|arms| - 1], rounds[..|arms| - 1])
          && rounds[|arms| - 1] >= 1
          && UcbArm(k, c, bonus, rounds[|arms| - 1], Estimates(k, arms[..|arms| - 1], obs[..|arms| - 1]),
                    Counts(k, arms[..|arms| - 1])) == Ok(arms[|arms| - 1]))
  }

  lemma UcbChoicesExtend(k: nat, c: real, bonus: (nat, nat) -> real, arms: seq<nat>, obs: seq<real>, rounds: seq<nat>,
                         t: nat, a: nat, r: real)
    requires UcbChoices(k, c, bonus, arms, obs, rounds) && t >= 1
    requires UcbArm(k, c, bonus, t, Estimates(k, arms, obs), Counts(k, arms)) == Ok(a)
    ensures UcbChoices(k, c, bonus, arms + [a], obs + [r], rounds + [t])
  {
    assert (arms + [a])[..|arms|] == arms && (obs + [r])[..|obs|] == obs && (rounds + [t])[..|rounds|] == rounds;
  }

  /** The rounds of one call of act: 1, 2, ..., n. */
  function Rounds(n: nat): (r: seq<nat>)
    ensures |r| == n
    ensures forall j :: 0 <= j < n ==> r[j] == j + 1
  {
    if n == 0 then [] else Rounds(n - 1) + [n]
  }

  /** The rounds played after round t of a call are those after round t - 1 and t itself. */
  lemma ConsumeRound(rounds: seq<nat>, t: nat)
    requires t >= 1
    ensures rounds + Rounds(t) == (rounds + Rounds(t - 1)) + [t]
  {
  }

  /** Round t <= k pulls arm t - 1, whatever the rewards were. */
  lemma {:induction false} ForcedRounds(k: nat, c: real, bonus: (nat, nat) -> real, arms: seq<nat>, obs: seq<real>, rounds: seq<nat>)
    requires UcbChoices(k, c, bonus, arms, obs, rounds)
    ensures forall j :: 0 <= j < |arms| && rounds[j] <= k ==> arms[j] + 1 == rounds[j]
    decreases |arms|
  {
    if |arms| > 0 {
      var n := |arms| - 1;
      ForcedRounds(k, c, bonus, arms[..n], obs[..n], rounds[..n]);
      forall j | 0 <= j < |arms| && rounds[j] <= k
        ensures arms[j] + 1 == rounds[j]
      {
        if j < n {
          assert arms[j] == arms[..n][j] && rounds[j] == rounds[..n][j];
        }
      }
    }
  }

  /** Pulling arms 0, 1, ..., n - 1 once each leaves every one of them with exactly one pull. */
  lemma {:induction false} EachOnce(arms: seq<nat>, a: nat)
    requires forall j :: 0 <= j < |arms| ==> arms[j] == j
    ensures Pulls(arms, a) == if a < |arms| then 1 else 0
  {
    if |arms| > 0 {
      var n := |arms| - 1;
      EachOnce(arms[..n], a);
    }
  }

  /** A fresh run of at least k rounds pulls every arm exactly once in its first k steps. */
  lemma EveryArmOnceAfterK(k: nat, c: real, bonus: (nat, nat) -> real, arms: seq<nat>, obs: seq<real>, rounds: seq<nat>)
    requires UcbChoices(k, c, bonus, arms, obs, rounds) && k <= |arms|
    requires forall j :: 0 <= j < k ==> rounds[j] == j + 1
    ensures Counts(k, arms[..k]) == seq(k, _ => 1)
  {
    ForcedRounds(k, c, bonus, arms, obs, rounds);
    forall a | 0 <= a < k
      ensures Counts(k, arms[..k])[a] == 1
    {
      CountIsPulls(k, arms[..k], a);
      EachOnce(arms[..k], a);
    }
  }

  class UCBAgent {
    const environment: BanditEnvironment.Environment
    const iterations: int
    const c: real
    /** The exploration term of a round and a count, left uninterpreted. */
    const bonus: (nat, nat) -> real
    const qValues: array<real>
    const armCounts: array<nat>
    var rewards: seq<real>
    var cumRewards: seq<real>
    /** The arm pulled at each step so far, oldest first; the source does not keep it. */
    ghost var arms: seq<nat>
    /** The round t of each step and the draw that decided its reward. */
    ghost var rounds: seq<nat>
    ghost var draws: seq<real>

    ghost predicate Valid()
      reads this, qValues, armCounts
    {
      && BanditEnvironment.Wellformed(environment)
      && qValues.Length == armCounts.Length == environment.kArms
      && Consistent(environment, c, bonus, arms, rounds, draws, rewards, cumRewards, armCounts[..], qValues[..])
    }

    /** Estimates and counts start at zero; both lists start as [0.0]. */
    constructor (environment: BanditEnvironment.Environment, maxIterations: int, c: real, bonus: (nat, nat) -> real)
      requires BanditEnvironment.Wellformed(environment)
      ensures Valid()
      ensures this.environment == environment && iterations == maxIterations && this.c == c && this.bonus == bonus
      ensures fresh(qValues) && fresh(armCounts)
      ensures arms == [] && rounds == [] && rewards == [0.0] && cumRewards == [0.0]
      ensures qValues[..] == seq(environment.kArms, _ => 0.0)
      ensures armCounts[..] == seq(environment.kArms, _ => 0)
    {
      this.environment := environment;
      iterations := maxIterations;
      this.c := c;
      this.bonus := bonus;
      qValues := new real[environment.kArms](_ => 0.0);
      armCounts := new nat[environment.kArms](_ => 0);
      rewards := [0.0];
      cumRewards := [0.0];
      arms, rounds, draws := [], [], [];
      new;
      InitialHistory(environment.kArms);
    }

    /** act(): rounds t = 1 .. iterations, the reward of round t decided by rewardDraws[t - 1].
        With no arms and at least one round, numpy's argmax fails before anything changes. */
    method Act(rewardDraws: seq<real>) returns (result: Result<RunRecord>)
      requires Valid()
      requires |rewardDraws| == Indexing.RangeLength(iterations) && Sampling.AllUniform(rewardDraws)
      modifies this, qValues, armCounts
      ensures Valid()
      ensures result.Ok? <==> environment.kArms > 0 || iterations <= 0
      ensures result.Err? ==> result.error == EmptyArgMax && unchanged(this, qValues, armCounts)
      ensures result.Ok? ==> result.value == RunRecord(armCounts[..], rewards, cumRewards)
      ensures result.Ok? ==> && rounds == old(rounds) + Rounds(Indexing.RangeLength(iterations)) && draws == old(draws) + rewardDraws
                             && |arms| == old(|arms|) + Indexing.RangeLength(iterations)
      ensures old(arms) <= arms
      ensures Total(armCounts[..]) == |arms|
    {
      if environment.kArms == 0 && iterations > 0 {
        TotalOfCounts(environment.kArms, arms);
        return Err(EmptyArgMax);
      }
      Run(rewardDraws);
      TotalOfCounts(environment.kArms, arms);
      return Ok(RunRecord(armCounts[..], rewards, cumRewards));
    }

    /** act's loop over the rounds t = i + 1. */
    method Run(rewardDraws: seq<real>)
      requires Valid() && (environment.kArms > 0 || rewardDraws == [])
      modifies this, qValues, armCounts
      ensures Valid()
      ensures rounds == old(rounds) + Rounds(|rewardDraws|) && draws == old(draws) + rewardDraws
      ensures old(arms) <= arms
    {
      ghost var arms0, rounds0, draws0 := arms, rounds, draws;
      for i := 0 to |rewardDraws|
        invariant Valid()
        invariant rounds == rounds0 + Rounds(i) && draws == draws0 + rewardDraws[..i]
        invariant arms0 <= arms
      {
        ghost var before := arms;
        ConsumeRound(rounds0, i + 1);
        Sampling.ConsumeDraw(draws0, rewardDraws, i);
        Step(i + 1, rewardDraws[i]);
        PrefixOfExtension(arms0, before, arms[|arms| - 1]);
      }
      assert rewardDraws[..|rewardDraws|] == rewardDraws;
    }

    /** One round: select, pull, one more pull for the arm and the incremental step on its
        estimate, then grow both lists by one. */
    method Step(t: nat, draw: real)
      requires Valid() && environment.kArms > 0 && t >= 1
      modifies this, qValues, armCounts
      ensures Valid()
      ensures arms == old(arms) + [UcbArm(environment.kArms, c, bonus, t, old(qValues[..]), old(armCounts[..])).value]
      ensures rounds == old(rounds) + [t] && draws == old(draws) + [draw]
      ensures rewards == old(rewards) + [BanditEnvironment.ChooseArm(environment, arms[|arms| - 1], draw).value]
      ensures cumRewards == old(cumRewards) + [Mean(rewards)]
    {
      var arm := SelectArm(t);
      var reward := BanditEnvironment.ChooseArm(environment, arm, draw).value;
      ghost var arms0, rounds0, draws0, rewards0, cum0 := arms, rounds, draws, rewards, cumRewards;
      ghost var counts0, q0 := armCounts[..], qValues[..];
      UpdateStatistics(arm, reward);
      var rewards' := rewards + [reward];
      rewards, cumRewards := rewards', cumRewards + [Mean(rewards')];
      arms, rounds, draws := arms + [arm], rounds + [t], draws + [draw];
      ConsistentStep(environment, c, bonus, arms0, rounds0, draws0, rewards0, cum0, counts0, q0, t, draw, arm, reward,
                     arms, rounds, draws, rewards, cumRewards, armCounts[..], qValues[..]);
    }

    /** The selection at the top of act's loop: round t <= k_arms pulls arm t - 1, a later
        round the argmax of the score vector. */
    method SelectArm(t: nat) returns (arm: nat)
      requires qValues.Length == armCounts.Length == environment.kArms > 0 && t >= 1
      ensures UcbArm(environment.kArms, c, bonus, t, qValues[..], armCounts[..]) == Ok(arm)
    {
      if t <= environment.kArms {
        arm := t - 1;
      } else {
        var scores := Scores(qValues[..], armCounts[..], c, bonus, t);
        arm := ArgMax(scores);
      }
    }

    /** One more pull for the arm and the incremental step on its estimate; no other arm changes. */
    method UpdateStatistics(arm: nat, reward: real)
      requires arm < qValues.Length == armCounts.Length
      modifies qValues, armCounts
      ensures armCounts[..] == old(armCounts[..])[arm := old(armCounts[arm]) + 1]
      ensures qValues[..] == old(qValues[..])[arm := IncrementalStep(old(qValues[arm]), old(armCounts[arm]) + 1, reward)]
    {
      armCounts[arm] := armCounts[arm] + 1;
      qValues[arm] := IncrementalStep(qValues[arm], armCounts[arm], reward);
    }
  }

  /** The UCB agent's state as a function of its history: counts and estimates (the reward
      totals the other agents keep are implicit), every step's arm the one its round selects,
      every reward the one the environment paid. */
  ghost predicate Consistent(env: BanditEnvironment.Environment, c: real, bonus: (nat, nat) -> real, arms: seq<nat>,
                             rounds: seq<nat>, draws: seq<real>, rewards: seq<real>, cum: seq<real>,
                             counts: seq<nat>, q: seq<real>)
    requires BanditEnvironment.Wellformed(env)
  {
    && |rewards| == |arms| + 1
    && History(env.kArms, arms, rewards, cum, counts, q, Totals(env.kArms, arms, rewards[1..]))
    && UcbChoices(env.kArms, c, bonus, arms, rewards[1..], rounds)
    && BanditEnvironment.Pays(env, arms, draws, rewards[1..])
  }

  /** One round keeps the state consistent with its history: the primed values are the state
      after pulling the arm UcbArm selects in round t and receiving r. */
  lemma ConsistentStep(env: BanditEnvironment.Environment, c: real, bonus: (nat, nat) -> real, arms: seq<nat>,
                       rounds: seq<nat>, draws: seq<real>, rewards: seq<real>, cum: seq<real>,
                       counts: seq<nat>, q: seq<real>, t: nat, draw: real, a: nat, r: real,
                       arms': seq<nat>, rounds': seq<nat>, draws': seq<real>, rewards': seq<real>, cum': seq<real>,
                       counts': seq<nat>, q': seq<real>)
    requires BanditEnvironment.Wellformed(env) && t >= 1
    requires Consistent(env, c, bonus, arms, rounds, draws, rewards, cum, counts, q)
    requires |q| == |counts| == env.kArms && UcbArm(env.kArms, c, bonus, t, q, counts) == Ok(a)
    requires BanditEnvironment.ChooseArm(env, a, draw) == Ok(r)
    requires arms' == arms + [a] && rounds' == rounds + [t] && draws' == draws + [draw]
    requires rewards' == rewards + [r] && cum' == cum + [Mean(rewards')]
    requires counts' == counts[a := counts[a] + 1] && q' == q[a := IncrementalStep(q[a], counts[a] + 1, r)]
    ensures Consistent(env, c, bonus, arms', rounds', draws', rewards', cum', counts', q')
  {
    var obs := rewards[1..];
    var sums := Totals(env.kArms, arms, obs);
    RecordStep(env.kArms, arms, rewards, cum, counts, q, sums, a, r);
    Replay(env.kArms, arms, obs, a, r);
    UcbChoicesExtend(env.kArms, c, bonus, arms, obs, rounds, t, a, r);
    BanditEnvironment.PaysAppend(env, arms, draws, obs, a, draw, r);
  }
}
