# Multi-armed bandit simulator, modelled in Dafny

This project models the decision and bookkeeping logic of a small multi-armed-bandit simulator:

- the bandit `Environment`, which validates its arms and pays a reward on a threshold draw;
- four agents that run `iterations` pulls and keep per-arm counts, reward totals and incremental value estimates, plus a reward list seeded with `0.0` and its list of prefix means:
  - the greedy agent;
  - the epsilon-greedy agent;
  - the random agent;
  - the UCB agent of `main.py`;
- the `UCBBandit` helper of `test.py`;
- a 0/1 `BernoulliBandit` with per-arm counters and regret;
- the follow-the-leader loop that drives a `BernoulliBandit`.

Randomness enters only as supplied draws: one per reward, one per explore/exploit decision and one per random arm choice, each uniform in `[0, 1)`, and one per Bernoulli pull, which may be any real (a draw outside `[0, 1)` simply pays 1 or 0 by the same comparison). `np.random.choice(k)` is the arm `floor(u * k)` of its draw `u`.

The modules are:

- `Failures` holds the error cases the source raises: `ValueError`, `IndexError`, and numpy's errors on empty arrays.
- `Indexing` says how a Python or numpy index is resolved, negative indices included.
- `Sampling` describes the draws.
- `BanditEnvironment` is `environment.py`.
- `ValueEstimates` is the bookkeeping every agent repeats. The counts, totals and estimates an agent keeps are functions of its history of pulled arms and received rewards. The central lemmas say that the incremental update `q += (r - q) / n` keeps `q[a]` the sample mean of arm `a`'s rewards, and that `np.argmax` is the first index of the maximum.
- One module per agent, each a class:
  - `numpy` arrays become `array` fields;
  - Python lists become `seq` fields;
  - ghost fields record the history the source does not keep: pulled arms, draws, rounds.
  Each `act` is split into:
  - `Act`: the error case, then the loop;
  - `Run`: the loop;
  - `Step`: one pass of the loop;
  - `SelectArm` (epsilon-greedy and UCB agents): the selection branch, which the greedy and random agents keep inline in `Step`;
  - `UpdateStatistics`: the array updates.
  `Valid()` ties the arrays and lists to the history.
- `UcbBanditModel`, `Bernoulli` and `FollowTheLeaderModel` are the remaining source files.

## Model

| member | source | states |
|---|---|---|
| BanditEnvironment.Create | environment.py:24-34 | Construction fails with a length mismatch first, then with a probability outside [0, 1]. It succeeds exactly when both checks pass. On success the lists are stored unchanged and `k_arms` is their length. |
| BanditEnvironment.ChooseArm | environment.py:49-53 | Fails exactly when the arm is outside `[0, k_arms)`. Otherwise the reward is the arm's reward or `0.0`: the arm's reward exactly when the draw is below its probability. So probability 1 always pays and probability 0 never does. |
| BanditEnvironment.PaysEach | environment.py:52-53 | Every recorded step's reward is what `choose_arm` pays for that step's arm and draw. |
| BanditEnvironment.PaysAppend | environment.py:52-53 | A further pull extends the record of what the environment paid. |
| Sampling.Choice | agents/random_agent.py:53 | `np.random.choice(k)` fails exactly when `k == 0`. Otherwise it gives the in-range arm `floor(u * k)`. |
| Indexing.Resolve | test.py:26-32 | An index is valid exactly in `[-n, n)`. A negative index counts from the end. Any other index raises `IndexError`. |
| ValueEstimates.IncrementalStepBetween | greedy_agent.py:25 | The step `q + (1/n) * (reward - q)` gives the reward itself on an arm's first pull. Otherwise the new estimate lies between the old one and the reward. |
| ValueEstimates.IncrementalMean | greedy_agent.py:25 | One incremental step on the mean of the rewards seen gives the mean of those rewards plus the new one. |
| ValueEstimates.SumAppend | greedy_agent.py:28 | The sum of a list grows by the appended reward. |
| ValueEstimates.Replay | greedy_agent.py:22-25 | A pull of arm b adds one to b's count, adds the reward to b's total, and takes one incremental step on b's estimate. Every other arm is unchanged. A pull of an out-of-range arm changes nothing. |
| ValueEstimates.Counts | greedy_agent.py:22 | One count per arm, as `np.zeros(k_arms)` gives. Its meaning is stated by `CountIsPulls`. |
| ValueEstimates.Totals | greedy_agent.py:23 | One reward total per arm. Its meaning is stated by `TotalIsSum`. |
| ValueEstimates.Estimates | greedy_agent.py:25 | One estimate per arm. Its meaning is stated by `EstimateIsMean` and `EstimateIsTotalOverCount`. |
| ValueEstimates.CountIsPulls | greedy_agent.py:22 | The count kept for an arm is the number of times it was pulled. |
| ValueEstimates.TotalIsSum | greedy_agent.py:23 | The total kept for an arm is the sum of the rewards it paid. |
| ValueEstimates.EstimateIsMean | greedy_agent.py:22-25 | The estimate kept for an arm is the mean of the rewards it paid, and 0 if it paid none. |
| ValueEstimates.EstimateIsTotalOverCount | agents/random_agent.py:59-63 | `q[a] * counts[a] == arm_rewards[a]`. `q[a]` is 0 while the count is 0, and `arm_rewards[a] / counts[a]` once it is positive. |
| ValueEstimates.TotalOfCounts | greedy_agent.py:18-22 | The counts sum to the number of pulls. |
| ValueEstimates.TotalUpdate | greedy_agent.py:22 | Changing one count changes the total by the difference. |
| ValueEstimates.TotalMonotone | algorithms/bernoulli_bandit.py:28-29 | Entry-wise smaller counts have a smaller total. |
| ValueEstimates.ArgMax | greedy_agent.py:19 | `np.argmax`: the result is in range, no entry is larger, and every earlier entry is strictly smaller. |
| ValueEstimates.FirstMaxIsArgMax | greedy_agent.py:19 | Any index with that first-maximum property is `np.argmax`'s result. |
| ValueEstimates.GreedyChoicesExtend | greedy_agent.py:19-20 | Pulling the first arm of the highest estimate keeps every step of the history greedy. |
| ValueEstimates.ZeroRewardsZeroEstimates | greedy_agent.py:10-25 | If every reward was 0, every estimate is 0. |
| ValueEstimates.AllZeroRewardsPickArmZero | greedy_agent.py:10-25 | If every reward was 0, every greedy step pulled arm 0. |
| ValueEstimates.InitialHistory | greedy_agent.py:10-15 | Zero arrays with both lists `[0.0]` are the state of the empty history. |
| ValueEstimates.PrefixMeansAppend | greedy_agent.py:27-28 | Appending a reward and the new mean keeps `cum_rewards` the list of prefix means. |
| ValueEstimates.PrefixMeansEach | greedy_agent.py:27-28 | `cum_rewards[i]` is the mean of `rewards[0..i]` for every `i`. |
| ValueEstimates.RecordStep | greedy_agent.py:22-28 | One step keeps the arrays the counts, totals and estimates of the history. It also keeps the lists the rewards and their prefix means. |
| ValueEstimates.HistoryLists | greedy_agent.py:14-28 | Both lists are one longer than the number of pulls and start with `0.0`. `cum_rewards[i]` is the mean of `rewards[0..i]`. |
| ValueEstimates.TrackedEstimates | greedy_agent.py:10-25 | The counts sum to the number of pulls, and `counts[a]` is arm `a`'s pulls. `q[a]` is the mean of its rewards: 0 while untried, `arm_rewards[a] / counts[a]` once tried. |
| Greedy.GreedyAgent.constructor | greedy_agent.py:6-15 | Zero arrays of length `k_arms` and both lists `[0.0]`, consistent with the empty history. |
| Greedy.GreedyAgent.Act | greedy_agent.py:17-30 | Fails with numpy's empty-argmax error exactly when there are no arms and a positive iteration count, and then changes nothing. Otherwise it returns the counts and both lists after as many pulls as `range(iterations)` yields, none for a negative count. The counts sum to the pulls, and the state stays consistent with the history. |
| Greedy.GreedyAgent.Run | greedy_agent.py:18-28 | Each iteration consumes one draw and keeps the state consistent with the history. The history only grows. |
| Greedy.GreedyAgent.Step | greedy_agent.py:19-28 | Pulls `np.argmax(q_values)` and appends its reward and the new prefix mean. The state stays consistent with the history. |
| Greedy.GreedyAgent.UpdateStatistics | greedy_agent.py:22-25 | Only the chosen arm's count (+1), reward total (+reward) and estimate (one incremental step) change. |
| Greedy.ConsistentStep | greedy_agent.py:19-28 | A greedy step keeps the state a function of the history: the statistics, every step greedy, every reward paid by the environment. |
| EpsilonGreedy.EpsilonArm | epsilon_greedy_agent.py:57-60 | A draw below epsilon gives the random choice's in-range arm. Otherwise the arm is the first maximum of `q_values`. It fails exactly when there are no arms, with the error of the branch taken. |
| EpsilonGreedy.EpsilonChoicesExtend | epsilon_greedy_agent.py:57-60 | A step by the epsilon rule keeps every step of the history an epsilon-rule step. |
| EpsilonGreedy.AllZeroRewardsExploitArmZero | epsilon_greedy_agent.py:33-70 | If every reward was 0, every exploit step pulled arm 0. |
| EpsilonGreedy.EpsilonGreedyAgent.constructor | epsilon_greedy_agent.py:19-39 | Zero arrays, both lists `[0.0]`, `epsilon` stored, consistent with the empty history. |
| EpsilonGreedy.EpsilonGreedyAgent.Act | epsilon_greedy_agent.py:55-81 | Fails exactly when there are no arms and a positive iteration count. The error is `np.random.choice`'s or `np.argmax`'s, depending on the first decision draw, and nothing changes. Otherwise it returns the counts and lists after as many steps as `range(iterations)` yields, none for a negative count. The counts sum to the pulls, and the state stays consistent. |
| EpsilonGreedy.EpsilonGreedyAgent.Run | epsilon_greedy_agent.py:55-75 | Each iteration consumes one decision, one choice and one reward draw. The state stays consistent and the history only grows. |
| EpsilonGreedy.EpsilonGreedyAgent.Step | epsilon_greedy_agent.py:57-75 | Pulls the arm of the epsilon rule and appends its reward and the new prefix mean. The state stays consistent. |
| EpsilonGreedy.EpsilonGreedyAgent.SelectArm | epsilon_greedy_agent.py:57-60 | The branch picks exactly the epsilon rule's arm. |
| EpsilonGreedy.EpsilonGreedyAgent.UpdateStatistics | epsilon_greedy_agent.py:66-70 | Only the chosen arm's count, reward total and estimate change. |
| EpsilonGreedy.ConsistentStep | epsilon_greedy_agent.py:57-75 | An epsilon-greedy step keeps the state a function of the history. |
| RandomPolicy.RandomChoicesExtend | agents/random_agent.py:53 | A random step keeps every step of the history the arm its draw selects. |
| RandomPolicy.RandomChoicesNeverFail | agents/random_agent.py:53-56 | Every randomly chosen arm is in `[0, k_arms)`, so `choose_arm` never fails on one. |
| RandomPolicy.RandomAgent.constructor | agents/random_agent.py:18-36 | Zero arrays and both lists `[0.0]`, consistent with the empty history. |
| RandomPolicy.RandomAgent.Act | agents/random_agent.py:38-74 | Fails with `np.random.choice`'s error exactly when there are no arms and a positive iteration count, and then changes nothing. Otherwise it returns the counts and lists after as many steps as `range(iterations)` yields, none for a negative count. The counts sum to the pulls, and the state stays consistent. |
| RandomPolicy.RandomAgent.Run | agents/random_agent.py:51-68 | Each iteration consumes one choice and one reward draw. The state stays consistent and the history only grows. |
| RandomPolicy.RandomAgent.Step | agents/random_agent.py:53-68 | Pulls the arm its choice draw selects and appends its reward and the new prefix mean. |
| RandomPolicy.RandomAgent.UpdateStatistics | agents/random_agent.py:59-63 | Only the chosen arm's count, reward total and estimate change. |
| RandomPolicy.ConsistentStep | agents/random_agent.py:53-68 | A random step keeps the state a function of the history. |
| Ucb.Scores | main.py:35 | One score per arm. Since the bonus depends only on the round and the count, of two arms with equal counts the one with the higher estimate scores at least as high. |
| Ucb.UcbArm | main.py:32-36 | Round `t <= k_arms` picks arm `t - 1`. A later round picks the first maximum of `q[a] + c * bonus(t, counts[a])`. It fails only when there are no arms. |
| Ucb.UcbChoicesExtend | main.py:32-36 | A UCB step keeps every step of the history a UCB-rule step. |
| Ucb.Rounds | main.py:30 | `range(1, iterations + 1)`: round `j + 1` at position `j`. |
| Ucb.ForcedRounds | main.py:32-33 | Every step of a round `t <= k_arms` pulled arm `t - 1`, whatever the rewards. |
| Ucb.EachOnce | main.py:32-33 | Pulling arms `0, 1, …` in order pulls each of them exactly once. |
| Ucb.EveryArmOnceAfterK | main.py:30-40 | After the first `k_arms` rounds every arm's count is exactly 1. |
| Ucb.UCBAgent.constructor | main.py:15-22 | Zero arrays, both lists `[0.0]`, `c` stored, consistent with the empty history. |
| Ucb.UCBAgent.Act | main.py:24-49 | Fails with `np.argmax`'s error exactly when there are no arms and a positive iteration count, and then changes nothing. Otherwise it plays the rounds of `range(1, iterations + 1)`, none for a negative count, and returns the counts and lists. The counts sum to the pulls, and the state stays consistent. |
| Ucb.UCBAgent.Run | main.py:30-43 | Plays rounds `1, 2, …` in order, one reward draw each. The state stays consistent. |
| Ucb.UCBAgent.Step | main.py:31-43 | Round `t` pulls the UCB rule's arm and appends its reward and the new prefix mean. |
| Ucb.UCBAgent.SelectArm | main.py:32-36 | The branch picks exactly the UCB rule's arm. |
| Ucb.UCBAgent.UpdateStatistics | main.py:40-41 | Only the chosen arm's count and estimate change. |
| Ucb.ConsistentStep | main.py:31-43 | A UCB step keeps the state a function of the history. |
| UcbBanditModel.Bounds | test.py:17-19 | One confidence bound per arm. Since the bonus depends only on the round and the count, of two arms with equal counts the one with the higher value has a bound at least as high. |
| UcbBanditModel.RunningAverage | test.py:28-31 | `((n - 1) * value + reward) / n` is the agents' incremental step `value + (reward - value) / n`, so `update` keeps the same means as the agents. |
| UcbBanditModel.UcbBandit.constructor | test.py:4-7 | Zero counts and values of length `n_arms`. |
| UcbBanditModel.UcbBandit.Create | test.py:4-7 | `np.zeros` raises its ValueError exactly on a negative `n_arms`. Otherwise it gives a fresh bandit with zero counts and values of length `n_arms` and no updates. |
| UcbBanditModel.UcbBandit.SelectArm | test.py:9-22 | If an arm has count 0, the result is the first such arm. If every arm has been tried, it is the first maximum of `values[a] + bonus(round, counts[a])`. The result is always in range. With no arms it fails with `np.argmax`'s error. |
| UcbBanditModel.UcbBandit.Update | test.py:24-32 | The index resolves as numpy resolves it, and an invalid one changes nothing. Otherwise only that arm changes: its count grows by 1 and its value becomes the running average. Values stay the means of the recorded rewards. |
| UcbBanditModel.UcbBandit.ValuesAreMeans | test.py:28-32 | Every value is the mean of its arm's recorded rewards, and every count its number of updates. |
| Bernoulli.Max | algorithms/bernoulli_bandit.py:14 | `max(means)` is an upper bound of the means and is one of them. |
| Bernoulli.Reward | algorithms/bernoulli_bandit.py:27 | The reward is 0 or 1, and 1 exactly when the draw is below the mean. |
| Bernoulli.RegretBetween | algorithms/bernoulli_bandit.py:37-39 | `best_mean * sum(total_pulls) - sum(total_rewards)` is at most the regret of the same pulls paying nothing. When rewards total at most the pulls, it is at least the regret of the same pulls all paying 1. |
| Bernoulli.RegretOfNoPulls | algorithms/bernoulli_bandit.py:37-39 | The regret before any pull is 0. |
| Bernoulli.RegretAfterPull | algorithms/bernoulli_bandit.py:28-39 | A pull paying x adds `best_mean - x` to the regret. |
| Bernoulli.RewardsAtMostPulls | algorithms/bernoulli_bandit.py:27-29 | Arm-wise rewards at most pulls give total rewards at most total pulls. |
| Bernoulli.BernoulliBandit.constructor | algorithms/bernoulli_bandit.py:5-14 | Stores the means. `K` is their count and `best_mean` their maximum. Counters start at 0 and the regret is 0. |
| Bernoulli.BernoulliBandit.Create | algorithms/bernoulli_bandit.py:5-14 | Construction fails exactly on an empty list, whose `max` raises. Otherwise it gives a fresh, valid bandit that stores the means, with `K` their count, `best_mean` their maximum, zero pull and reward counters, and regret 0. |
| Bernoulli.BernoulliBandit.K | algorithms/bernoulli_bandit.py:16-20 | `K()` is the number of means. |
| Bernoulli.BernoulliBandit.Regret | algorithms/bernoulli_bandit.py:32-39 | `regret()` on a valid bandit lies between the regret of its pulls all paying 1 and that of its pulls paying nothing. It is 0 after construction, and each pull adds `best_mean - reward` (see `Create` and `Pull`). |
| Bernoulli.BernoulliBandit.Pull | algorithms/bernoulli_bandit.py:22-30 | An index outside `[-K, K)` raises `IndexError` and changes nothing. Otherwise the resolved arm pays `Reward(mean, u)`, and only its counters change. The regret grows by `best_mean - reward`, and rewards stay at most pulls for every arm. |
| FollowTheLeaderModel.AveragesAreMeans | algorithms/follow_the_leader.py:12-16 | The average of an arm never pulled is 0. For a pulled arm, the average times its pulls is its reward total, so it is the arm's mean reward. |
| FollowTheLeaderModel.Leader | algorithms/follow_the_leader.py:8-21 | The scan from `-inf` with strict `>` returns the first arm of the highest average, where an untried arm counts as 0. |
| FollowTheLeaderModel.LeaderIsGreedy | algorithms/follow_the_leader.py:11-21 | On tallies of a history, the averages are the sample-mean estimates, so the leader is the greedy rule's arm. |
| FollowTheLeaderModel.TallyStep | algorithms/follow_the_leader.py:24-26 | Pulling the leader and adding the pull and reward keeps the tallies the counts and totals of the history. Every step stays greedy. |
| FollowTheLeaderModel.ZeroPaysFollowArmZero | algorithms/follow_the_leader.py:13-21 | If every pull paid 0, every round's leader was arm 0. |
| FollowTheLeaderModel.PaidByStep | algorithms/follow_the_leader.py:24 | A pull extends the record of what the bandit paid under each draw. |
| FollowTheLeaderModel.Round | algorithms/follow_the_leader.py:8-26 | One round pulls the leader of the tallies, and the bandit pays `Reward(mean, draw)`. The local tallies and the bandit's counters grow by 1 and by the reward at that arm only. |
| FollowTheLeaderModel.BookedStep | algorithms/follow_the_leader.py:24-26 | After a round, the bandit's counters are still their starting values plus the local tallies. |
| FollowTheLeaderModel.FreshBanditMatchesTallies | algorithms/follow_the_leader.py:24-26 | On a fresh bandit the bandit's counters equal the local tallies. |
| FollowTheLeaderModel.FollowTheLeader | algorithms/follow_the_leader.py:1-26 | It plays as many rounds as `range(n)` yields, none for a negative `n`, and the pulls sum to that number. The tallies are the counts and reward totals of the history, and every round was greedy on the averages. Every pull paid what the bandit pays for its draw. The bandit's counters grew by exactly the tallies. |

## Left out

- Random number generation (`np.random.random`, `np.random.choice`, `random.random`): every draw is a parameter in `[0, 1)`, and `np.random.choice(k)` is modelled as `floor(u * k)`.
- EpsilonGreedy.EpsilonGreedyAgent.Act: a choice draw is supplied for every step, even for exploit steps that do not use one.
- Floating point: all quantities are `real`, so the mean identities hold exactly. IEEE rounding, and numpy's float arrays of counts, are not modelled; counts are `nat`.
- Ucb.UcbArm and UcbBanditModel.UcbBandit.SelectArm: the exploration terms `sqrt(log(t) / (arm_counts + 1e-10))` and `sqrt(2 * log(round + 1) / counts[a])` are an uninterpreted function `bonus(round, count)`. Their values, the `1e-10` guard and its effect on untried arms are not modelled.
- Greedy.GreedyAgent.Step, EpsilonGreedy.EpsilonGreedyAgent.Step, RandomPolicy.RandomAgent.Step, Ucb.UCBAgent.Step: the new arrays are stated through `Valid()`, that is, as the counts, totals and estimates of the extended history. The point updates themselves are stated by each class's `UpdateStatistics`.
- FollowTheLeaderModel.FollowTheLeader: the source returns nothing. The local tallies are returned, with the ghost history of pulled arms and rewards, so that the contract can name them.
- FollowTheLeaderModel.FollowTheLeader: requires a valid bandit, which has at least one arm; with none the source's `pull(0)` would raise. This case is unreachable because construction of a bandit with no arms already fails.
- Bernoulli.BernoulliBandit.constructor: requires a non-empty list of means. `Create` models the failing construction on an empty one.
- UcbBanditModel.UcbBandit.constructor: takes a `nat`. `Create` takes any integer and models the ValueError of `np.zeros` on a negative `n_arms`.
- `Environment.__str__` (environment.py:55-66) is string formatting only.
- The plotting and driver code of main.py (lines 51-111) and test.py (lines 34-53), and `softmax_exploration.py`, are not part of this model.
- Default arguments: the constructors take every parameter explicitly. The defaults `max_iterations=500` (greedy_agent.py:6, epsilon_greedy_agent.py:19, agents/random_agent.py:18, main.py:15), `epsilon=0.1` (epsilon_greedy_agent.py:19) and `c=1.0` (main.py:15) are not modelled.
- Arrays of the agents are `array` fields updated in place. The reward lists are `seq` fields that are reassigned, so list aliasing is not modelled. Each `act` returns the live `arm_counts` array (greedy_agent.py:30, epsilon_greedy_agent.py:78, agents/random_agent.py:71, main.py:46), so a later `act()` changes an earlier result; the model returns a copy of the counts, `armCounts[..]`, and does not capture that aliasing.
