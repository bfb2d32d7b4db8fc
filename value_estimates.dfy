/**
 * The value-estimation bookkeeping that every agent repeats: per-arm pull counts,
 * per-arm reward totals and per-arm estimates updated by the incremental mean, plus
 * the run's reward list seeded with 0.0 and its list of prefix means.
 *
 * Everything is stated against the history of a run: `arms[i]` is the arm pulled at
 * step i and `obs[i]` the reward it paid. The arrays an agent keeps are proved equal to
 * functions of that history (Counts, Totals, Estimates), so each estimate is the true
 * sample mean of the rewards its arm has paid.
 */
module ValueEstimates {

  /** The record an agent's act returns: per-arm counts, the reward list and its prefix means. */
  datatype RunRecord = RunRecord(armCounts: seq<nat>, rewards: seq<real>, cumRewards: seq<real>)

  // ---------------------------------------------------------------------------
  // Sums and means

  /** Sum of a list of rewards, accumulated left to right. */
  function Sum(s: seq<real>): real
  {
    if |s| == 0 then 0.0 else Sum(s[..|s| - 1]) + s[|s| - 1]
  }

  /** Arithmetic mean; 0.0 for no rewards, the value a zero-initialised estimate starts at. */
  function Mean(s: seq<real>): real
  {
    if |s| == 0 then 0.0 else Sum(s) / |s| as real
  }

  /** Sum of a list of counts. */
  function Total(s: seq<nat>): nat
  {
    if |s| == 0 then 0 else Total(s[..|s| - 1]) + s[|s| - 1]
  }

  /** The update every agent applies after a pull: q + (1/n) * (reward - q), n the count after the pull. */
  function IncrementalStep(q: real, n: nat, reward: real): real
    requires n > 0
  {
    q + (1.0 / n as real) * (reward - q)
  }

  /** The step moves the estimate towards the reward without passing it: the new estimate lies
      between the old one and the reward. */
  lemma IncrementalStepBetween(q: real, n: nat, reward: real)
    requires n > 0
    ensures n == 1 ==> IncrementalStep(q, n, reward) == reward
    ensures q <= reward ==> q <= IncrementalStep(q, n, reward) <= reward
    ensures reward <= q ==> reward <= IncrementalStep(q, n, reward) <= q
  {
    var w, d := 1.0 / n as real, reward - q;
    assert 0.0 < w <= 1.0;
    assert IncrementalStep(q, n, reward) == q + w * d;
    assert w * d == d - (1.0 - w) * d;
    if d >= 0.0 {
      NonNegativeProduct(w, d);
      NonNegativeProduct(1.0 - w, d);
    } else {
      NonNegativeProduct(w, -d);
      NonNegativeProduct(1.0 - w, -d);
    }
  }

  lemma NonNegativeProduct(x: real, y: real)
    requires 0.0 <= x && 0.0 <= y
    ensures 0.0 <= x * y
  {
  }

  lemma SumAppend(s: seq<real>, x: real)
    ensures Sum(s + [x]) == Sum(s) + x
  {
    assert (s + [x])[..|s|] == s;
  }

  /** The incremental step turns the mean of the rewards seen so far into the mean of those
      rewards and the new one: the estimate is the exact running mean, not a weighted average. */
  lemma IncrementalMean(s: seq<real>, r: real)
    ensures Mean(s + [r]) == IncrementalStep(Mean(s), |s| + 1, r)
  {
    SumAppend(s, r);
    var m := |s| as real;
    if |s| == 0 {
      assert s == [];
    } else {
      var mean := Sum(s) / m;
      assert mean * m == Sum(s);
      calc {
        IncrementalStep(mean, |s| + 1, r);
        mean + (1.0 / (m + 1.0)) * (r - mean);
        (mean * (m + 1.0) + (r - mean)) / (m + 1.0);
        (mean * m + r) / (m + 1.0);
        (Sum(s) + r) / (m + 1.0);
      }
    }
  }

  lemma {:induction false} SumOfZeros(s: seq<real>)
    requires forall i :: 0 <= i < |s| ==> s[i] == 0.0
    ensures Sum(s) == 0.0
  {
    if |s| > 0 {
      SumOfZeros(s[..|s| - 1]);
    }
  }

  lemma {:induction false} TotalOfZeros(s: seq<nat>)
    requires forall i :: 0 <= i < |s| ==> s[i] == 0
    ensures Total(s) == 0
  {
    if |s| > 0 {
      TotalOfZeros(s[..|s| - 1]);
    }
  }

  /** Overwriting one entry of a list of counts changes its total by the difference. */
  lemma {:induction false} TotalUpdate(s: seq<nat>, i: nat, v: nat)
    requires i < |s|
    ensures Total(s[i := v]) == Total(s) - s[i] + v
  {
    var n := |s| - 1;
    if i == n {
      assert s[i := v][..n] == s[..n];
    } else {
      assert s[i := v][..n] == s[..n][i := v];
      TotalUpdate(s[..n], i, v);
    }
  }

  /** Entry-wise smaller counts have a smaller total. */
  lemma {:induction false} TotalMonotone(s: seq<nat>, t: seq<nat>)
    requires |s| == |t|
    requires forall i :: 0 <= i < |s| ==> s[i] <= t[i]
    ensures Total(s) <= Total(t)
  {
    if |s| > 0 {
      TotalMonotone(s[..|s| - 1], t[..|t| - 1]);
    }
  }

  // ---------------------------------------------------------------------------
  // The history of a run and the per-arm statistics it determines

  predicate InRange(k: nat, arms: seq<nat>)
  {
    forall i :: 0 <= i < |arms| ==> arms[i] < k
  }

  /** A run only ever grows its history: what was a prefix stays one after another pull. */
  lemma PrefixOfExtension(p: seq<nat>, arms: seq<nat>, b: nat)
    requires p <= arms
    ensures p <= arms + [b]
  {
    assert (arms + [b])[..|p|] == arms[..|p|];
  }

  /** How often arm a was pulled. */
  function Pulls(arms: seq<nat>, a: int): nat
  {
    if |arms| == 0 then 0
    else Pulls(arms[..|arms| - 1], a) + (if arms[|arms| - 1] == a then 1 else 0)
  }

  /** The rewards arm a paid, in the order they were observed. */
  function Observed(arms: seq<nat>, obs: seq<real>, a: int): seq<real>
  {
    if |arms| == 0 || |obs| == 0 then []
    else Observed(arms[..|arms| - 1], obs[..|obs| - 1], a) + (if arms[|arms| - 1] == a then [obs[|obs| - 1]] else [])
  }

  /** arm_counts as the run loop builds it: zeros, then one more for each pulled arm. */
  function Counts(k: nat, arms: seq<nat>): (c: seq<nat>)
    ensures |c| == k
  {
    if |arms| == 0 then seq(k, _ => 0)
    else
      var c, b := Counts(k, arms[..|arms| - 1]), arms[|arms| - 1];
      if b < k then c[b := c[b] + 1] else c
  }

  /** arm_rewards as the run loop builds it: zeros, then each reward added to its arm's total. */
  function Totals(k: nat, arms: seq<nat>, obs: seq<real>): (t: seq<real>)
    ensures |t| == k
  {
    if |arms| == 0 || |obs| == 0 then seq(k, _ => 0.0)
    else
      var t, b := Totals(k, arms[..|arms| - 1], obs[..|obs| - 1]), arms[|arms| - 1];
      if b < k then t[b := t[b] + obs[|obs| - 1]] else t
  }

  /** q_values as the run loop builds it: zeros, then the incremental step after each pull. */
  function Estimates(k: nat, arms: seq<nat>, obs: seq<real>): (e: seq<real>)
    ensures |e| == k
  {
    if |arms| == 0 || |obs| == 0 then seq(k, _ => 0.0)
    else
      var n := |arms| - 1;
      var e, b := Estimates(k, arms[..n], obs[..|obs| - 1]), arms[n];
      if b < k then e[b := IncrementalStep(e[b], Counts(k, arms[..n])[b] + 1, obs[|obs| - 1])] else e
  }

  /** One pull of arm b paying r: only b's count, total and estimate change, and none of
      them changes when b is out of range. */
  lemma Replay(k: nat, arms: seq<nat>, obs: seq<real>, b: nat, r: real)
    ensures b < k ==> Counts(k, arms + [b]) == Counts(k, arms)[b := Counts(k, arms)[b] + 1]
    ensures b < k ==> Totals(k, arms + [b], obs + [r]) == Totals(k, arms, obs)[b := Totals(k, arms, obs)[b] + r]
    ensures b < k ==>
      Estimates(k, arms + [b], obs + [r])
      == Estimates(k, arms, obs)[b := IncrementalStep(Estimates(k, arms, obs)[b], Counts(k, arms)[b] + 1, r)]
    ensures k <= b ==>
      && Counts(k, arms + [b]) == Counts(k, arms)
      && Totals(k, arms + [b], obs + [r]) == Totals(k, arms, obs)
      && Estimates(k, arms + [b], obs + [r]) == Estimates(k, arms, obs)
  {
    assert (arms + [b])[..|arms|] == arms;
    assert (obs + [r])[..|obs|] == obs;
  }

  /** One more pull of b paying r adds one to b's pulls and r to b's observations, nothing else. */
  lemma ObservedAppend(arms: seq<nat>, obs: seq<real>, b: nat, r: real, a: int)
    ensures Pulls(arms + [b], a) == Pulls(arms, a) + (if b == a then 1 else 0)
    ensures Observed(arms + [b], obs + [r], a) == Observed(arms, obs, a) + (if b == a then [r] else [])
  {
    assert (arms + [b])[..|arms|] == arms;
    assert (obs + [r])[..|obs|] == obs;
  }

  lemma {:induction false} ObservedLength(arms: seq<nat>, obs: seq<real>, a: int)
    requires |arms| == |obs|
    ensures |Observed(arms, obs, a)| == Pulls(arms, a)
  {
    if |arms| > 0 {
      ObservedLength(arms[..|arms| - 1], obs[..|obs| - 1], a);
    }
  }

  /** The count the loop keeps for an arm is the number of times it occurs in the history. */
  lemma {:induction false} CountIsPulls(k: nat, arms: seq<nat>, a: nat)
    requires a < k
    ensures Counts(k, arms)[a] == Pulls(arms, a)
  {
    if |arms| > 0 {
      var p, b := arms[..|arms| - 1], arms[|arms| - 1];
      assert arms == p + [b];
      CountIsPulls(k, p, a);
      Replay(k, p, [], b, 0.0);
      ObservedAppend(p, [], b, 0.0, a);
    }
  }

  /** The total the loop keeps for an arm is the sum of the rewards that arm paid. */
  lemma {:induction false} TotalIsSum(k: nat, arms: seq<nat>, obs: seq<real>, a: nat)
    requires |arms| == |obs| && a < k
    ensures Totals(k, arms, obs)[a] == Sum(Observed(arms, obs, a))
  {
    if |arms| > 0 {
      var p, b := arms[..|arms| - 1], arms[|arms| - 1];
      var o, r := obs[..|obs| - 1], obs[|obs| - 1];
      assert arms == p + [b] && obs == o + [r];
      TotalIsSum(k, p, o, a);
      Replay(k, p, o, b, r);
      ObservedAppend(p, o, b, r, a);
      if b == a {
        SumAppend(Observed(p, o, a), r);
      } else {
        assert Observed(p, o, a) + [] == Observed(p, o, a);
      }
    }
  }

  /** The central property: the estimate the loop keeps for an arm, by repeated incremental
      steps, is the arithmetic mean of all rewards that arm has paid (0 before its first pull). */
  lemma {:induction false} EstimateIsMean(k: nat, arms: seq<nat>, obs: seq<real>, a: nat)
    requires |arms| == |obs| && a < k
    ensures Estimates(k, arms, obs)[a] == Mean(Observed(arms, obs, a))
  {
    if |arms| > 0 {
      var p, b := arms[..|arms| - 1], arms[|arms| - 1];
      var o, r := obs[..|obs| - 1], obs[|obs| - 1];
      assert arms == p + [b] && obs == o + [r];
      EstimateIsMean(k, p, o, a);
      Replay(k, p, o, b, r);
      ObservedAppend(p, o, b, r, a);
      if b == a {
        CountIsPulls(k, p, a);
        ObservedLength(p, o, a);
        IncrementalMean(Observed(p, o, a), r);
      } else {
        assert Observed(p, o, a) + [] == Observed(p, o, a);
      }
    }
  }

  /** A mean times the number of rewards it averages is their sum. */
  lemma MeanTimesLength(s: seq<real>)
    ensures Mean(s) * |s| as real == Sum(s)
  {
    if |s| > 0 {
      var n := |s| as real;
      calc {
        Mean(s) * n;
        (Sum(s) / n) * n;
        Sum(s);
      }
    }
  }

  /** After any history of in-range pulls, the counts add up to the number of pulls. */
  lemma {:induction false} TotalOfCounts(k: nat, arms: seq<nat>)
    requires InRange(k, arms)
    ensures Total(Counts(k, arms)) == |arms|
  {
    if |arms| == 0 {
      TotalOfZeros(Counts(k, arms));
    } else {
      var p, b := arms[..|arms| - 1], arms[|arms| - 1];
      TotalOfCounts(k, p);
      TotalUpdate(Counts(k, p), b, Counts(k, p)[b] + 1);
    }
  }

  /** An estimate times its count is the arm's reward total; an untried arm's estimate is 0,
      a tried arm's is its total divided by its count. */
  lemma {:induction false} EstimateIsTotalOverCount(k: nat, arms: seq<nat>, obs: seq<real>, a: nat)
    requires |arms| == |obs| && a < k
    ensures Estimates(k, arms, obs)[a] * Counts(k, arms)[a] as real == Totals(k, arms, obs)[a]
    ensures Counts(k, arms)[a] == 0 ==> Estimates(k, arms, obs)[a] == 0.0
    ensures Counts(k, arms)[a] > 0 ==> Estimates(k, arms, obs)[a] == Totals(k, arms, obs)[a] / Counts(k, arms)[a] as real
  {
    var o := Observed(arms, obs, a);
    ObservedLength(arms, obs, a);
    CountIsPulls(k, arms, a);
    TotalIsSum(k, arms, obs, a);
    EstimateIsMean(k, arms, obs, a);
    MeanTimesLength(o);
    if |o| > 0 {
      assert Mean(o) == Sum(o) / |o| as real;
    }
  }

  lemma {:induction false} ObservedOfZeros(arms: seq<nat>, obs: seq<real>, a: int)
    requires forall i :: 0 <= i < |obs| ==> obs[i] == 0.0
    ensures forall i :: 0 <= i < |Observed(arms, obs, a)| ==> Observed(arms, obs, a)[i] == 0.0
  {
    if |arms| > 0 && |obs| > 0 {
      ObservedOfZeros(arms[..|arms| - 1], obs[..|obs| - 1], a);
    }
  }

  // ---------------------------------------------------------------------------
  // First-maximum selection (numpy's argmax, and the scans that mimic it)

  /** i is the lowest index holding the maximum of s. */
  predicate IsFirstMax(s: seq<real>, i: int)
  {
    && 0 <= i < |s|
    && (forall j :: 0 <= j < |s| ==> s[j] <= s[i])
    && (forall j :: 0 <= j < i ==> s[j] < s[i])
  }

  /** np.argmax: the first index of the maximum. */
  function ArgMax(s: seq<real>): (i: nat)
    requires |s| > 0
    ensures IsFirstMax(s, i)
  {
    if |s| == 1 then 0
    else
      var m := ArgMax(s[..|s| - 1]);
      if s[|s| - 1] > s[m] then |s| - 1 else m
  }

  /** The first maximum is unique, so any scan that finds one agrees with ArgMax. */
  lemma FirstMaxIsArgMax(s: seq<real>, i: int)
    requires IsFirstMax(s, i)
    ensures i == ArgMax(s)
  {
  }

  /** Every step so far pulled the first arm whose sample mean, over what had been observed
      before that step, was highest: the greedy rule. */
  ghost predicate GreedyChoices(k: nat, arms: seq<nat>, obs: seq<real>)
    decreases |arms|
  {
    && |arms| == |obs|
    && (|arms| > 0 ==>
          var n := |arms| - 1;
          && GreedyChoices(k, arms[..n], obs[..n])
          && k > 0
          && arms[n] == ArgMax(Estimates(k, arms[..n], obs[..n])))
  }

  lemma GreedyChoicesExtend(k: nat, arms: seq<nat>, obs: seq<real>, r: real)
    requires k > 0 && GreedyChoices(k, arms, obs)
    ensures GreedyChoices(k, arms + [ArgMax(Estimates(k, arms, obs))], obs + [r])
  {
    var arms', obs' := arms + [ArgMax(Estimates(k, arms, obs))], obs + [r];
    assert arms'[..|arms|] == arms && obs'[..|obs|] == obs;
  }

  /** With nothing but zero rewards every estimate stays 0. */
  lemma ZeroRewardsZeroEstimates(k: nat, arms: seq<nat>, obs: seq<real>)
    requires |arms| == |obs|
    requires forall i :: 0 <= i < |obs| ==> obs[i] == 0.0
    ensures Estimates(k, arms, obs) == seq(k, _ => 0.0)
  {
    forall a | 0 <= a < k
      ensures Estimates(k, arms, obs)[a] == 0.0
    {
      EstimateIsMean(k, arms, obs, a);
      ObservedOfZeros(arms, obs, a);
      SumOfZeros(Observed(arms, obs, a));
    }
  }

  /** So with nothing but zero rewards the greedy rule picks arm 0 at every step. */
  lemma {:induction false} AllZeroRewardsPickArmZero(k: nat, arms: seq<nat>, obs: seq<real>)
    requires GreedyChoices(k, arms, obs)
    requires forall i :: 0 <= i < |obs| ==> obs[i] == 0.0
    ensures forall j :: 0 <= j < |arms| ==> arms[j] == 0
    decreases |arms|
  {
    if |arms| > 0 {
      var n := |arms| - 1;
      AllZeroRewardsPickArmZero(k, arms[..n], obs[..n]);
      ZeroRewardsZeroEstimates(k, arms[..n], obs[..n]);
      var zeros: seq<real> := seq(k, _ => 0.0);
      assert zeros[0] == 0.0;
      assert arms[n] == ArgMax(zeros);
      forall j | 0 <= j < |arms|
        ensures arms[j] == 0
      {
        if j < n {
          assert arms[j] == arms[..n][j];
        }
      }
    }
  }

  // ---------------------------------------------------------------------------
  // What an agent's state is, in terms of the history

  /** counts, q and sums are exactly the arm counts, sample means and reward totals of the
      history (arms, obs). */
  ghost predicate Tracks(k: nat, arms: seq<nat>, obs: seq<real>, counts: seq<nat>, q: seq<real>, sums: seq<real>)
  {
    && |arms| == |obs|
    && InRange(k, arms)
    && counts == Counts(k, arms)
    && q == Estimates(k, arms, obs)
    && sums == Totals(k, arms, obs)
  }

  /** cum[i] is the mean of rewards[0..i], stated from the last entry back (PrefixMeansEach
      gives the pointwise reading). */
  ghost predicate PrefixMeans(rewards: seq<real>, cum: seq<real>)
  {
    && |cum| == |rewards|
    && (|rewards| > 0 ==>
          && PrefixMeans(rewards[..|rewards| - 1], cum[..|cum| - 1])
          && cum[|cum| - 1] == Mean(rewards))
  }

  /** The state of an agent that keeps a reward list: the list starts with the 0.0
      placeholder, then holds one reward per pull; cum holds its prefix means; counts, q and
      sums track the pulls. */
  ghost predicate History(k: nat, arms: seq<nat>, rewards: seq<real>, cum: seq<real>, counts: seq<nat>, q: seq<real>, sums: seq<real>)
  {
    && |rewards| == |arms| + 1
    && rewards[0] == 0.0
    && PrefixMeans(rewards, cum)
    && Tracks(k, arms, rewards[1..], counts, q, sums)
  }

  /** A freshly built agent: no pulls, all statistics zero, both lists [0.0]. */
  lemma InitialHistory(k: nat)
    ensures History(k, [], [0.0], [0.0], seq(k, _ => 0), seq(k, _ => 0.0), seq(k, _ => 0.0))
  {
    assert [0.0][..0] == [];
    assert Sum([0.0]) == Sum([]) + 0.0;
  }

  /** Every entry of cum is the mean of the rewards up to and including its position. */
  lemma {:induction false} PrefixMeansEach(rewards: seq<real>, cum: seq<real>)
    requires PrefixMeans(rewards, cum)
    ensures forall i :: 0 <= i < |rewards| ==> cum[i] == Mean(rewards[..i + 1])
  {
    if |rewards| > 0 {
      var n := |rewards| - 1;
      PrefixMeansEach(rewards[..n], cum[..n]);
      forall i | 0 <= i < |rewards|
        ensures cum[i] == Mean(rewards[..i + 1])
      {
        if i < n {
          assert cum[..n][i] == cum[i] && rewards[..n][..i + 1] == rewards[..i + 1];
        } else {
          assert rewards[..i + 1] == rewards;
        }
      }
    }
  }

  /** Appending the overall mean after each new reward keeps cum the list of prefix means. */
  lemma PrefixMeansAppend(rewards: seq<real>, cum: seq<real>, r: real)
    requires PrefixMeans(rewards, cum)
    ensures PrefixMeans(rewards + [r], cum + [Mean(rewards + [r])])
  {
    assert (rewards + [r])[..|rewards|] == rewards;
    assert (cum + [Mean(rewards + [r])])[..|cum|] == cum;
  }

  /** One pass of the run loop keeps History: pull b, receive r, add one to b's count and r
      to b's total, apply the incremental step to b's estimate, append r to the rewards and
      the new overall mean to cum. */
  lemma RecordStep(k: nat, arms: seq<nat>, rewards: seq<real>, cum: seq<real>, counts: seq<nat>, q: seq<real>, sums: seq<real>, b: nat, r: real)
    requires History(k, arms, rewards, cum, counts, q, sums) && b < k
    ensures (rewards + [r])[1..] == rewards[1..] + [r]
    ensures History(k, arms + [b], rewards + [r], cum + [Mean(rewards + [r])],
                    counts[b := counts[b] + 1], q[b := IncrementalStep(q[b], counts[b] + 1, r)], sums[b := sums[b] + r])
  {
    var rewards' := rewards + [r];
    assert rewards'[1..] == rewards[1..] + [r];
    Replay(k, arms, rewards[1..], b, r);
    PrefixMeansAppend(rewards, cum, r);
    assert InRange(k, arms + [b]);
  }

  /** What the history says about the reward lists: both are one longer than the number of
      pulls, both start with 0.0, and each entry of cum is the mean of the rewards up to it. */
  lemma HistoryLists(k: nat, arms: seq<nat>, rewards: seq<real>, cum: seq<real>, counts: seq<nat>, q: seq<real>, sums: seq<real>)
    requires History(k, arms, rewards, cum, counts, q, sums)
    ensures |rewards| == |cum| == |arms| + 1
    ensures rewards[0] == 0.0 && cum[0] == 0.0
    ensures forall i :: 0 <= i < |rewards| ==> cum[i] == Mean(rewards[..i + 1])
  {
    PrefixMeansEach(rewards, cum);
    assert rewards[..1] == [0.0];
    assert Sum([0.0]) == Sum([]) + 0.0;
  }

  /** What tracking the history means for the per-arm statistics: the counts add up to the
      number of pulls, and every arm's estimate is the mean of the rewards it paid: 0 while
      the arm is untried, its reward total over its count once it has been tried. */
  lemma TrackedEstimates(k: nat, arms: seq<nat>, obs: seq<real>, counts: seq<nat>, q: seq<real>, sums: seq<real>, a: nat)
    requires Tracks(k, arms, obs, counts, q, sums) && a < k
    ensures Total(counts) == |arms|
    ensures counts[a] == Pulls(arms, a)
    ensures q[a] == Mean(Observed(arms, obs, a))
    ensures counts[a] == 0 ==> q[a] == 0.0
    ensures counts[a] > 0 ==> q[a] == sums[a] / counts[a] as real
  {
    TotalOfCounts(k, arms);
    CountIsPulls(k, arms, a);
    EstimateIsMean(k, arms, obs, a);
    EstimateIsTotalOverCount(k, arms, obs, a);
  }
}
