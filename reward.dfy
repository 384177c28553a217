/** The reward function: feedback signals (vote, seconds spent, follow-up)
    become one additive, unclamped scalar. Rewards are exact reals here. */
module Reward {
  import opened Wrappers

  /** Seconds a user must spend, strictly exceeded, to earn the time bonus. */
  const TimeThreshold: int := 60

  /** Contribution of the vote: +1 for "up", -1 for "down", 0 for anything else
      (including no vote at all). */
  function VoteScore(vote: Option<string>): (s: real)
    ensures s == 1.0 <==> vote == Some("up")
    ensures s == -1.0 <==> vote == Some("down")
    ensures s == 0.0 <==> vote != Some("up") && vote != Some("down")
  {
    if vote == Some("up") then 1.0
    else if vote == Some("down") then -1.0
    else 0.0
  }

  /** A threshold bonus, not a proportional one. */
  function TimeBonus(timeSpent: int): (b: real)
    ensures b == 0.5 <==> timeSpent > TimeThreshold
    ensures b == 0.0 <==> timeSpent <= TimeThreshold
  {
    if timeSpent > TimeThreshold then 0.5 else 0.0
  }

  function FollowUpBonus(followUp: bool): (b: real)
    ensures b == 0.3 <==> followUp
    ensures b == 0.0 <==> !followUp
  {
    if followUp then 0.3 else 0.0
  }

  /** Reference definition: the three independent components added up. */
  function RewardOf(vote: Option<string>, timeSpent: int, followUp: bool): (r: real)
    ensures -1.0 <= r <= 1.8
  {
    VoteScore(vote) + TimeBonus(timeSpent) + FollowUpBonus(followUp)
  }

  /** `calculate_reward` of the service entry point: an accumulator that
      starts at 0 and is adjusted by each signal in turn. */
  method CalculateReward(vote: Option<string>, timeSpent: int, followUp: bool) returns (reward: real)
    ensures reward == RewardOf(vote, timeSpent, followUp)
    ensures -1.0 <= reward <= 1.8
  {
    reward := 0.0;
    if vote == Some("up") {
      reward := reward + 1.0;
    } else if vote == Some("down") {
      reward := reward - 1.0;
    }
    if timeSpent > 60 {
      reward := reward + 0.5;
    }
    if followUp {
      reward := reward + 0.3;
    }
  }

  /** The memory package's `calculate_reward`, whose vote is always a string:
      it agrees with `CalculateReward` on every input. */
  method CalculateMemoryReward(vote: string, timeSpent: int, followUp: bool) returns (reward: real)
    ensures reward == RewardOf(Some(vote), timeSpent, followUp)
    ensures -1.0 <= reward <= 1.8
  {
    reward := 0.0;
    if vote == "up" {
      reward := reward + 1.0;
    } else if vote == "down" {
      reward := reward - 1.0;
    }
    if timeSpent > 60 {
      reward := reward + 0.5;
    }
    if followUp {
      reward := reward + 0.3;
    }
  }

  /** The components are independent: changing one signal moves the reward
      by exactly that signal's contribution. */
  lemma ComponentsAreIndependent(vote: Option<string>, timeSpent: int, followUp: bool)
    ensures RewardOf(vote, timeSpent, followUp) - RewardOf(None, timeSpent, followUp) == VoteScore(vote)
    ensures RewardOf(vote, timeSpent, followUp) - RewardOf(vote, 0, followUp) == TimeBonus(timeSpent)
    ensures RewardOf(vote, timeSpent, true) - RewardOf(vote, timeSpent, false) == 0.3
  {
  }

  /** The time bonus is a threshold: 60 seconds earn nothing, 61 earn 0.5,
      and any longer stay earns the same 0.5. */
  lemma TimeBonusIsAThreshold(t: int, t': int)
    requires TimeThreshold < t <= t'
    ensures TimeBonus(TimeThreshold) == 0.0 && TimeBonus(t) == TimeBonus(t') == 0.5
  {
  }

  /** The reference table of rewards. */
  lemma RewardTable()
    ensures RewardOf(Some("up"), 30, false) == 1.0
    ensures RewardOf(Some("down"), 90, true) == -0.2
    ensures RewardOf(Some("none"), 10, false) == 0.0
    ensures RewardOf(None, 10, false) == 0.0
    ensures RewardOf(Some("up"), 61, true) == 1.8
    ensures RewardOf(Some("down"), 60, false) == -1.0
  {
  }
}
