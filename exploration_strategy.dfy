/** `ExplorationStrategy` of `src/ml/models.py`: epsilon-greedy replacement
    of the tail of a recommendation list by unrecommended pool items, and
    the simplified Thompson sampling that perturbs each score and re-sorts.
    The random draws are parameters: `choice` holds the indices
    `np.random.choice` picked, `noise(i)` the normal draw for the `i`-th
    dict. */
module ExplorationStrategy {
  import opened Common
  import opened RecDicts

  /** The strategy name and epsilon a strategy object holds. */
  datatype Explorer = Explorer(strategy: string, epsilon: real)

  /** `ExplorationStrategy()` with its defaults. */
  function DefaultExplorer(): (e: Explorer)
    ensures e.strategy == "epsilon_greedy" && e.epsilon == 0.1
  {
    Explorer("epsilon_greedy", 0.1)
  }

  // ---------------------------------------------------------------------
  // Epsilon-greedy
  // ---------------------------------------------------------------------

  /** `n_explore = int(len(recommendations) * epsilon)`. */
  function NExplore(len: nat, epsilon: real): int {
    Trunc(len as real * epsilon)
  }

  /** The pool dicts whose `item_id` no recommendation has, in pool order. */
  function ExplorationCandidates(recs: seq<RecDict>, pool: seq<RecDict>): seq<RecDict> {
    var ids := ItemIds(recs);
    Filter(pool, (r: RecDict) => r.itemId !in ids)
  }

  /** Whether the exploration branch runs: a non-empty pool, something to
      explore, and at least one candidate. */
  predicate Explores(recs: seq<RecDict>, pool: seq<RecDict>, epsilon: real) {
    pool != [] && NExplore(|recs|, epsilon) > 0 && ExplorationCandidates(recs, pool) != []
  }

  /** How many candidates `np.random.choice` draws. */
  function SampleSize(recs: seq<RecDict>, pool: seq<RecDict>, epsilon: real): int {
    MinI(NExplore(|recs|, epsilon), |ExplorationCandidates(recs, pool)|)
  }

  /** A draw without replacement of `size` indices below `n`. */
  predicate IsSample(choice: seq<int>, n: int, size: int) {
    && |choice| == size
    && (forall i :: 0 <= i < |choice| ==> 0 <= choice[i] < n)
    && Distinct(choice)
  }

  /** The candidates at the drawn indices, in draw order. */
  function Picked(cands: seq<RecDict>, choice: seq<int>): (r: seq<RecDict>)
    requires forall i :: 0 <= i < |choice| ==> 0 <= choice[i] < |cands|
    ensures |r| == |choice|
    ensures forall i :: 0 <= i < |choice| ==> r[i] == cands[choice[i]]
  {
    if choice == [] then [] else Picked(cands, choice[..|choice| - 1]) + [cands[choice[|choice| - 1]]]
  }

  /** `_epsilon_greedy_exploration`: the first `len - n_explore` dicts
      (a Python slice, so a negative bound counts from the end), then, when
      the exploration branch runs, the drawn candidates. */
  function EpsilonGreedy(recs: seq<RecDict>, pool: seq<RecDict>, epsilon: real, choice: seq<int>): seq<RecDict>
    requires Explores(recs, pool, epsilon) ==>
      IsSample(choice, |ExplorationCandidates(recs, pool)|, SampleSize(recs, pool, epsilon))
  {
    var kept := PyTo(recs, |recs| - NExplore(|recs|, epsilon));
    if Explores(recs, pool, epsilon) then kept + Picked(ExplorationCandidates(recs, pool), choice) else kept
  }

  /** The kept part of the result is a prefix of the recommendations; the
      rest are pool dicts that were not recommended, as many as were
      drawn. */
  lemma EpsilonGreedySpec(recs: seq<RecDict>, pool: seq<RecDict>, epsilon: real, choice: seq<int>)
    requires Explores(recs, pool, epsilon) ==>
      IsSample(choice, |ExplorationCandidates(recs, pool)|, SampleSize(recs, pool, epsilon))
    ensures var out := EpsilonGreedy(recs, pool, epsilon, choice);
      var k := PyBound(|recs| - NExplore(|recs|, epsilon), |recs|);
      && k <= |out|
      && out[..k] == recs[..k]
      && |out| == k + (if Explores(recs, pool, epsilon) then SampleSize(recs, pool, epsilon) else 0)
      && (forall i :: k <= i < |out| ==> out[i] in pool && out[i].itemId !in ItemIds(recs))
  {
    var out := EpsilonGreedy(recs, pool, epsilon, choice);
    var k := PyBound(|recs| - NExplore(|recs|, epsilon), |recs|);
    var kept := PyTo(recs, |recs| - NExplore(|recs|, epsilon));
    assert kept == recs[..k];
    if Explores(recs, pool, epsilon) {
      var cands := ExplorationCandidates(recs, pool);
      var picked := Picked(cands, choice);
      assert out == kept + picked;
      forall i | k <= i < |out| ensures out[i] in pool && out[i].itemId !in ItemIds(recs) {
        assert out[i] == picked[i - k] == cands[choice[i - k]];
        assert cands[choice[i - k]] in cands;
      }
    }
  }

  /** A non-positive epsilon keeps the list as it is. */
  lemma EpsilonGreedyNoExploration(recs: seq<RecDict>, pool: seq<RecDict>, epsilon: real, choice: seq<int>)
    requires epsilon <= 0.0
    ensures !Explores(recs, pool, epsilon)
    ensures EpsilonGreedy(recs, pool, epsilon, choice) == recs
  {
    assert |recs| as real * epsilon <= 0.0 by {
      MulNonPositive(|recs| as real, epsilon);
    }
  }

  lemma MulNonPositive(a: real, b: real)
    requires a >= 0.0 && b <= 0.0
    ensures a * b <= 0.0
  {
  }

  /** With `0 <= epsilon <= 1` the result is never longer than the
      recommendations: each drawn item takes the place of a dropped one. */
  lemma EpsilonGreedyLength(recs: seq<RecDict>, pool: seq<RecDict>, epsilon: real, choice: seq<int>)
    requires 0.0 <= epsilon <= 1.0
    requires Explores(recs, pool, epsilon) ==>
      IsSample(choice, |ExplorationCandidates(recs, pool)|, SampleSize(recs, pool, epsilon))
    ensures |EpsilonGreedy(recs, pool, epsilon, choice)| <= |recs|
  {
    var e := NExplore(|recs|, epsilon);
    assert 0 <= e <= |recs| by {
      MulBounds(|recs| as real, epsilon);
    }
    EpsilonGreedySpec(recs, pool, epsilon, choice);
  }

  lemma MulBounds(a: real, b: real)
    requires a >= 0.0 && 0.0 <= b <= 1.0
    ensures 0.0 <= a * b <= a
  {
  }

  /** Without repeated dicts in the recommendations or the pool, the result
      repeats no dict either: a drawn candidate's id was not recommended,
      so it is none of the kept dicts. */
  lemma EpsilonGreedyDistinct(recs: seq<RecDict>, pool: seq<RecDict>, epsilon: real, choice: seq<int>)
    requires Distinct(recs) && Distinct(pool)
    requires Explores(recs, pool, epsilon) ==>
      IsSample(choice, |ExplorationCandidates(recs, pool)|, SampleSize(recs, pool, epsilon))
    ensures Distinct(EpsilonGreedy(recs, pool, epsilon, choice))
  {
    var out := EpsilonGreedy(recs, pool, epsilon, choice);
    var k := PyBound(|recs| - NExplore(|recs|, epsilon), |recs|);
    EpsilonGreedySpec(recs, pool, epsilon, choice);
    if Explores(recs, pool, epsilon) {
      var cands := ExplorationCandidates(recs, pool);
      CandidatesDistinct(recs, pool);
      forall i, j | 0 <= i < j < |out| ensures out[i] != out[j] {
        if j < k {
          assert out[i] == recs[i] && out[j] == recs[j];
        } else if i < k {
          assert out[i] == recs[i];
          assert out[i].itemId in ItemIds(recs);
        } else {
          assert out[i] == cands[choice[i - k]] && out[j] == cands[choice[j - k]];
        }
      }
    } else {
      assert out == recs[..k];
    }
  }

  lemma CandidatesDistinct(recs: seq<RecDict>, pool: seq<RecDict>)
    requires Distinct(pool)
    ensures Distinct(ExplorationCandidates(recs, pool))
  {
    var ids := ItemIds(recs);
    FilterDistinct(pool, (r: RecDict) => r.itemId !in ids);
  }

  // ---------------------------------------------------------------------
  // Thompson sampling
  // ---------------------------------------------------------------------

  const EXPLORATION_SCORE := "exploration_score"

  /** `key=lambda x: x['exploration_score']`. */
  function ExplorationKey(v: Rec): real {
    Get(v.fields, EXPLORATION_SCORE, 0.0)
  }

  /** The last position of a dict in a list: the draw whose write survives
      when the list holds the dict more than once. */
  function LastIndex(s: seq<RecDict>, r: RecDict): (k: nat)
    requires r in s
    ensures k < |s| && s[k] == r
    ensures forall j :: k < j < |s| ==> s[j] != r
  {
    if s[|s| - 1] == r then |s| - 1 else LastIndex(s[..|s| - 1], r)
  }

  /** Appending a dict makes it the last occurrence and moves no other. */
  lemma LastIndexSnoc(s: seq<RecDict>, r: RecDict)
    ensures LastIndex(s + [r], r) == |s|
    ensures forall q :: q in s && q != r ==> LastIndex(s + [r], q) == LastIndex(s, q)
  {
    assert (s + [r])[..|s|] == s;
  }

  /** The contents of a dict after `rec['exploration_score'] = rec['score']
      + noise`. */
  function WithExploration(v: Rec, noise: real): (w: Rec)
    ensures ExplorationKey(w) == v.score + noise
    ensures w.itemId == v.itemId && w.score == v.score && w.flags == v.flags
  {
    v.(fields := v.fields[EXPLORATION_SCORE := v.score + noise])
  }

  /** The noise loop: each dict gets its score plus the draw made at its
      (last) position as its exploration score; nothing else changes. */
  method AddNoise(recs: seq<RecDict>, noise: nat -> real)
    modifies recs`fields
    ensures forall r :: r in recs ==>
      r.Value() == WithExploration(old(r.Value()), noise(LastIndex(recs, r)))
  {
    for i := 0 to |recs|
      invariant forall r :: r in recs ==>
        r.Value() == (if r in recs[..i] then WithExploration(old(r.Value()), noise(LastIndex(recs[..i], r)))
                      else old(r.Value()))
    {
      var r := recs[i];
      r.fields := r.fields[EXPLORATION_SCORE := r.score + noise(i)];
      assert recs[..i + 1] == recs[..i] + [r];
      LastIndexSnoc(recs[..i], r);
    }
    assert recs[..|recs|] == recs;
  }

  /** `_thompson_sampling_exploration`: the noise loop, then the list sorted
      in place by exploration score, largest first; `out` is the list's new
      order (the same dicts). */
  method ThompsonSampling(recs: seq<RecDict>, noise: nat -> real) returns (out: seq<RecDict>)
    modifies recs`fields
    ensures forall r :: r in recs ==>
      r.Value() == WithExploration(old(r.Value()), noise(LastIndex(recs, r)))
    ensures multiset(out) == multiset(recs)
    ensures Values(out) == SortDesc(Values(recs), ExplorationKey)
    ensures forall i, j :: 0 <= i < j < |out| ==> ExplorationKey(out[i].Value()) >= ExplorationKey(out[j].Value())
  {
    AddNoise(recs, noise);
    out := SortRecs(recs, ExplorationKey);
  }

  // ---------------------------------------------------------------------
  // apply_exploration
  // ---------------------------------------------------------------------

  /** `apply_exploration`: the configured strategy, or the recommendations
      unchanged for an unknown strategy name. */
  method ApplyExploration(e: Explorer, recs: seq<RecDict>, pool: seq<RecDict>, choice: seq<int>, noise: nat -> real)
    returns (out: seq<RecDict>)
    requires e.strategy == "epsilon_greedy" && Explores(recs, pool, e.epsilon) ==>
      IsSample(choice, |ExplorationCandidates(recs, pool)|, SampleSize(recs, pool, e.epsilon))
    modifies recs`fields
    ensures e.strategy == "epsilon_greedy" ==>
      out == EpsilonGreedy(recs, pool, e.epsilon, choice) && unchanged(recs)
    ensures e.strategy == "thompson_sampling" ==>
      && (forall r :: r in recs ==> r.Value() == WithExploration(old(r.Value()), noise(LastIndex(recs, r))))
      && multiset(out) == multiset(recs)
      && Values(out) == SortDesc(Values(recs), ExplorationKey)
    ensures e.strategy != "epsilon_greedy" && e.strategy != "thompson_sampling" ==>
      out == recs && unchanged(recs)
  {
    if e.strategy == "epsilon_greedy" {
      out := EpsilonGreedy(recs, pool, e.epsilon, choice);
    } else if e.strategy == "thompson_sampling" {
      out := ThompsonSampling(recs, noise);
    } else {
      out := recs;
    }
  }
}
