/** The tabular reward memory: per (state key, action key) a running total,
    a use count and their average, plus the greedy selector that reads it. */
module Memory {

  /** (state_key, action_key), the table's primary key. */
  type Key = (string, string)

  /** One row of the memory table. */
  datatype Record = Record(totalReward: real, timesUsed: nat, avgReward: real)

  /** What every stored row satisfies: it was used at least once and its
      average is its total over its count. */
  predicate WellFormed(r: Record)
  {
    r.timesUsed >= 1 && r.avgReward == r.totalReward / r.timesUsed as real
  }

  predicate AllWellFormed(table: map<Key, Record>)
  {
    forall k :: k in table ==> WellFormed(table[k])
  }

  /** The table after one feedback on `key`: a fresh row on first use, an
      accumulated one afterwards. */
  function Upsert(table: map<Key, Record>, key: Key, reward: real): (t: map<Key, Record>)
    ensures t.Keys == table.Keys + {key}
    ensures forall k :: k in table && k != key ==> t[k] == table[k]
    ensures key !in table ==> t[key] == Record(reward, 1, reward)
    ensures key in table ==>
      t[key].totalReward == table[key].totalReward + reward &&
      t[key].timesUsed == table[key].timesUsed + 1
    ensures WellFormed(t[key])
  {
    if key in table then
      var r := table[key];
      var total := r.totalReward + reward;
      var times := r.timesUsed + 1;
      table[key := Record(total, times, total / times as real)]
    else
      table[key := Record(reward, 1, reward)]
  }

  /** A sequence of feedbacks on one key, applied in order. */
  function UpsertAll(table: map<Key, Record>, key: Key, rewards: seq<real>): map<Key, Record>
    decreases |rewards|
  {
    if |rewards| == 0 then table
    else UpsertAll(Upsert(table, key, rewards[0]), key, rewards[1..])
  }

  function Sum(rs: seq<real>): real
  {
    if |rs| == 0 then 0.0 else rs[0] + Sum(rs[1..])
  }

  /** `{m.action_key: m.avg_reward}` over the rows of one state key. */
  function Scores(table: map<Key, Record>, stateKey: string): (scores: map<string, real>)
    ensures forall a :: a in scores <==> (stateKey, a) in table
    ensures forall a :: a in scores ==> scores[a] == table[(stateKey, a)].avgReward
  {
    map k | k in table && k.0 == stateKey :: k.1 := table[k].avgReward
  }

  /** `scores.get(action, 0.0)`: an action never tried scores 0. */
  function ScoreIn(scores: map<string, real>, action: string): real
  {
    if action in scores then scores[action] else 0.0
  }

  function Score(table: map<Key, Record>, stateKey: string, action: string): real
  {
    ScoreIn(Scores(table, stateKey), action)
  }

  /** Index `i` holds the first candidate of highest score: none scores more,
      and every earlier one scores strictly less. */
  ghost predicate IsFirstBest(table: map<Key, Record>, stateKey: string, candidates: seq<string>, i: int)
  {
    && 0 <= i < |candidates|
    && (forall j :: 0 <= j < |candidates| ==>
          Score(table, stateKey, candidates[j]) <= Score(table, stateKey, candidates[i]))
    && (forall j :: 0 <= j < i ==>
          Score(table, stateKey, candidates[j]) < Score(table, stateKey, candidates[i]))
  }

  class MemoryStore {
    /** The persisted table, keyed by (state_key, action_key). */
    var table: map<Key, Record>

    ghost predicate Valid()
      reads this
    {
      AllWellFormed(table)
    }

    constructor ()
      ensures table == map[] && Valid()
    {
      table := map[];
    }

    /** `update_agent_memory`: create the row on first feedback, otherwise
        add to its total, bump its count and recompute its average. */
    method Update(stateKey: string, actionKey: string, reward: real)
      modifies this
      ensures table == Upsert(old(table), (stateKey, actionKey), reward)
      ensures old(Valid()) ==> Valid()
    {
      var key := (stateKey, actionKey);
      if key !in table {
        table := table[key := Record(reward, 1, reward)];
      } else {
        var record := table[key];
        record := record.(totalReward := record.totalReward + reward);
        record := record.(timesUsed := record.timesUsed + 1);
        record := record.(avgReward := record.totalReward / record.timesUsed as real);
        table := table[key := record];
      }
    }

    /** `select_best_action`: walk the candidates in order and replace the
        best only on a strictly greater score, so the first one wins ties. */
    method SelectBestAction(stateKey: string, candidates: seq<string>) returns (best: string)
      requires |candidates| > 0
      ensures best in candidates
      ensures forall c :: c in candidates ==> Score(table, stateKey, c) <= Score(table, stateKey, best)
      ensures exists i :: IsFirstBest(table, stateKey, candidates, i) && best == candidates[i]
    {
      var scores := Scores(table, stateKey);
      best := candidates[0];
      var bestScore := ScoreIn(scores, best);
      ghost var bestIndex := 0;
      for n := 0 to |candidates|
        invariant 0 <= bestIndex < |candidates|
        invariant best == candidates[bestIndex] && bestScore == Score(table, stateKey, best)
        invariant forall j :: 0 <= j < n ==> Score(table, stateKey, candidates[j]) <= bestScore
        invariant forall j :: 0 <= j < bestIndex ==> Score(table, stateKey, candidates[j]) < bestScore
      {
        var action := candidates[n];
        var score := ScoreIn(scores, action);
        if score > bestScore {
          bestScore := score;
          best := action;
          bestIndex := n;
        }
      }
      assert IsFirstBest(table, stateKey, candidates, bestIndex);
    }
  }

  /** A score is the stored average of the (state, action) row, or 0 without one. */
  lemma ScoreIsStoredAverage(table: map<Key, Record>, stateKey: string, action: string)
    ensures (stateKey, action) in table ==> Score(table, stateKey, action) == table[(stateKey, action)].avgReward
    ensures (stateKey, action) !in table ==> Score(table, stateKey, action) == 0.0
  {
  }

  /** Every stored row keeps times_used >= 1 and avg = total / times. */
  lemma UpsertPreservesWellFormed(table: map<Key, Record>, key: Key, reward: real)
    requires AllWellFormed(table)
    ensures AllWellFormed(Upsert(table, key, reward))
  {
  }

  /** After rewards r1..rn on one key from an existing row, the count grows
      by n and the total by their sum; other rows are untouched. */
  lemma {:induction false} UpsertAllAccumulates(table: map<Key, Record>, key: Key, rewards: seq<real>)
    requires key in table || |rewards| > 0
    ensures var t := UpsertAll(table, key, rewards);
      && key in t
      && t.Keys == table.Keys + {key}
      && (forall k :: k in table && k != key ==> t[k] == table[k])
      && (key in table ==>
            t[key].timesUsed == table[key].timesUsed + |rewards| &&
            t[key].totalReward == table[key].totalReward + Sum(rewards))
      && (key !in table ==>
            t[key].timesUsed == |rewards| && t[key].totalReward == Sum(rewards))
      && (|rewards| > 0 ==> WellFormed(t[key]))
    decreases |rewards|
  {
    if |rewards| > 0 {
      var t1 := Upsert(table, key, rewards[0]);
      if |rewards| > 1 {
        UpsertAllAccumulates(t1, key, rewards[1..]);
      } else {
        assert rewards[1..] == [];
      }
    }
  }

  /** Average correctness: starting from no row, n feedbacks leave
      times_used = n, total = r1 + ... + rn, and avg = that sum over n. */
  lemma AverageOfFeedbacks(table: map<Key, Record>, key: Key, rewards: seq<real>)
    requires key !in table && |rewards| > 0
    ensures key in UpsertAll(table, key, rewards)
    ensures var r := UpsertAll(table, key, rewards)[key];
      r.timesUsed == |rewards| && r.totalReward == Sum(rewards) &&
      r.avgReward == Sum(rewards) / |rewards| as real
  {
    UpsertAllAccumulates(table, key, rewards);
  }

  /** An upsert on (state, action) changes that action's score to the new
      average and no other score. */
  lemma UpsertMovesOneScore(table: map<Key, Record>, stateKey: string, action: string, reward: real,
                            stateKey': string, other: string)
    requires (stateKey', other) != (stateKey, action)
    ensures Score(Upsert(table, (stateKey, action), reward), stateKey, action)
         == Upsert(table, (stateKey, action), reward)[(stateKey, action)].avgReward
    ensures Score(Upsert(table, (stateKey, action), reward), stateKey', other) == Score(table, stateKey', other)
  {
    ScoreIsStoredAverage(Upsert(table, (stateKey, action), reward), stateKey, action);
    ScoreIsStoredAverage(Upsert(table, (stateKey, action), reward), stateKey', other);
    ScoreIsStoredAverage(table, stateKey', other);
  }

  /** Selection is deterministic: only one index is the first best, so two
      selections over an unchanged table agree. */
  lemma FirstBestIsUnique(table: map<Key, Record>, stateKey: string, candidates: seq<string>, i: int, i': int)
    requires IsFirstBest(table, stateKey, candidates, i)
    requires IsFirstBest(table, stateKey, candidates, i')
    ensures i == i'
  {
    var s, s' := Score(table, stateKey, candidates[i]), Score(table, stateKey, candidates[i']);
    assert s == s';
    if i != i' {
      assert false;
    }
  }

  /** With no history for any candidate, all score 0 and the first wins. */
  lemma NoHistoryPicksFirst(table: map<Key, Record>, stateKey: string, candidates: seq<string>)
    requires |candidates| > 0
    requires forall c :: c in candidates ==> (stateKey, c) !in table
    ensures IsFirstBest(table, stateKey, candidates, 0)
  {
    forall j | 0 <= j < |candidates|
      ensures Score(table, stateKey, candidates[j]) == 0.0
    {
      ScoreIsStoredAverage(table, stateKey, candidates[j]);
    }
  }

  /** Monotonic learning: once feedback lifts action `a` strictly above
      every other candidate, the selector returns `a`. */
  lemma LearnedActionIsSelected(table: map<Key, Record>, stateKey: string, a: string, reward: real,
                                candidates: seq<string>, i: int)
    requires a in candidates
    requires var t := Upsert(table, (stateKey, a), reward);
      forall c :: c in candidates && c != a ==> Score(t, stateKey, c) < Score(t, stateKey, a)
    requires IsFirstBest(Upsert(table, (stateKey, a), reward), stateKey, candidates, i)
    ensures candidates[i] == a
  {
  }
}
