/** The Java `ExplorationEngine`: an exploration score for a track and a
    user, and three passes that rewrite recommendation scores and
    explanations in place (epsilon-greedy boosts, Thompson sampling and
    contextual bonuses). Every random draw of the source (`Math.random()`,
    `Collections.shuffle`, `BetaDistribution.sample()`) is a parameter whose
    range is stated in a precondition. */
module ExplorationEngine {
  import opened Common
  import opened Text
  import opened TrackModel
  import opened ContextTypes
  import opened Recommendation
  import opened UserModel
  import opened ContextEngine
  import opened DebiasingEngine

  const EXPLORATION_PICK := "Exploration pick - discovering new music"
  const THOMPSON_PICK := "Thompson sampling - exploring uncertain preferences"
  const CONTEXTUAL_PICK := "Contextual exploration - matching your current situation"

  /** The user fields the exploration score reads. */
  datatype Profile = Profile(
    explorationLevel: real,
    noveltyPreference: real,
    diversityPreference: real,
    preferredArtists: set<string>,
    preferredGenres: set<string>)

  function ProfileOf(u: User): (p: Profile)
    reads u
    ensures p.explorationLevel == u.explorationLevel && p.noveltyPreference == u.noveltyPreference
    ensures p.diversityPreference == u.diversityPreference
    ensures p.preferredArtists == u.preferredArtists && p.preferredGenres == u.preferredGenres
  {
    Profile(u.explorationLevel, u.noveltyPreference, u.diversityPreference, u.preferredArtists, u.preferredGenres)
  }

  /** Preferences inside [0,1], as the clamping setters of `User` keep them. */
  predicate ProfileInUnit(p: Profile) {
    0.0 <= p.explorationLevel <= 1.0 && 0.0 <= p.noveltyPreference <= 1.0 && 0.0 <= p.diversityPreference <= 1.0
  }

  /** Novelty and diversity inside [0,1] and Spotify popularity inside [0,100]. */
  predicate TrackScoresInRange(t: Track) {
    InUnit(t.noveltyScore) && InUnit(t.diversityScore)
    && (t.spotifyPopularity.None? || 0 <= t.spotifyPopularity.value <= 100)
  }

  /** `calculateBaseExplorationScore`: novelty, inverse popularity, an
      independent-artist bonus and diversity, each term only when present. */
  function BaseExplorationScore(t: Track): (r: real)
    ensures TrackScoresInRange(t) ==> 0.0 <= r <= 1.2
  {
    (if t.noveltyScore.Some? then t.noveltyScore.value * 0.4 else 0.0)
    + (if t.spotifyPopularity.Some? then (100 - t.spotifyPopularity.value) as real / 100.0 * 0.3 else 0.0)
    + (if t.isIndependent == Some(true) then 0.2 else 0.0)
    + (if t.diversityScore.Some? then t.diversityScore.value * 0.3 else 0.0)
  }

  /** A less popular track never has a lower base exploration score. */
  lemma BaseExplorationScorePopularityAntitone(t: Track, p: int, q: int)
    requires p <= q
    ensures BaseExplorationScore(t.(spotifyPopularity := Some(q))) <= BaseExplorationScore(t.(spotifyPopularity := Some(p)))
  {
  }

  /** `calculateUserExplorationAlignment`: the user's exploration, novelty
      and diversity preferences weighted 0.3, 0.3 and 0.2. */
  function ExplorationAlignment(p: Profile): (r: real)
    ensures ProfileInUnit(p) ==> 0.0 <= r <= 0.8
  {
    p.explorationLevel * 0.3 + p.noveltyPreference * 0.3 + p.diversityPreference * 0.2
  }

  /** `calculateNoveltyFactor`: the track's novelty, plus 0.3 for an artist
      and 0.3 for a known genre the user has not marked as preferred. */
  function NoveltyFactor(t: Track, p: Profile): (r: real)
    ensures InUnit(t.noveltyScore) ==> 0.0 <= r <= 1.0
  {
    (if t.noveltyScore.Some? then t.noveltyScore.value * 0.4 else 0.0)
    + (if Lower(t.artist) !in p.preferredArtists then 0.3 else 0.0)
    + (if t.genre.Some? && Lower(t.genre.value) !in p.preferredGenres then 0.3 else 0.0)
  }

  /** Marking a track's artist as preferred (as `User.addPreferredArtist`
      does) takes exactly the 0.3 artist-novelty bonus away; marking its genre
      takes away the genre bonus. */
  lemma NoveltyFactorPreferring(t: Track, p: Profile)
    ensures Lower(t.artist) !in p.preferredArtists ==>
      NoveltyFactor(t, p.(preferredArtists := p.preferredArtists + {Lower(t.artist)})) == NoveltyFactor(t, p) - 0.3
    ensures t.genre.Some? && Lower(t.genre.value) !in p.preferredGenres ==>
      NoveltyFactor(t, p.(preferredGenres := p.preferredGenres + {Lower(t.genre.value)})) == NoveltyFactor(t, p) - 0.3
    ensures t.genre.None? ==>
      NoveltyFactor(t, p.(preferredGenres := p.preferredGenres + {"unknown"})) == NoveltyFactor(t, p)
  {
  }

  /** `calculateDiversityFactor`: diversity, an independent-artist bonus and
      a bonus for an artist popularity below 50. */
  function DiversityFactor(t: Track): (r: real)
    ensures InUnit(t.diversityScore) ==> 0.0 <= r <= 1.0
    ensures t.isIndependent == Some(true) ==> r >= 0.3 + (if t.diversityScore.Some? then t.diversityScore.value * 0.4 else 0.0)
  {
    (if t.diversityScore.Some? then t.diversityScore.value * 0.4 else 0.0)
    + (if t.isIndependent == Some(true) then 0.3 else 0.0)
    + (if t.artistPopularity.Some? && t.artistPopularity.value < 50 then 0.3 else 0.0)
  }

  /** The four parts `calculateExplorationScore` adds up. */
  function ExplorationParts(t: Track, p: Profile): real {
    BaseExplorationScore(t) + ExplorationAlignment(p) + NoveltyFactor(t, p) + DiversityFactor(t)
  }

  /** `calculateExplorationScore`: the sum of the four parts, capped at 1. */
  function ExplorationScore(t: Track, p: Profile): (r: real)
    ensures r <= 1.0
    ensures r == 1.0 || r == ExplorationParts(t, p)
    ensures TrackScoresInRange(t) && ProfileInUnit(p) ==> 0.0 <= r
  {
    MinR(1.0, ExplorationParts(t, p))
  }

  /** The cap is reached exactly when the parts add up to 1 or more. */
  lemma ExplorationScoreCap(t: Track, p: Profile)
    ensures ExplorationScore(t, p) == 1.0 <==> ExplorationParts(t, p) >= 1.0
    ensures ExplorationParts(t, p) < 1.0 ==> ExplorationScore(t, p) == ExplorationParts(t, p)
  {
  }

  // ---------------------------------------------------------------------
  // Contextual bonus tables
  // ---------------------------------------------------------------------

  /** `calculateMoodExplorationBonus`: 0.2 and 0.1 for two matching
      features; NEUTRAL matches no case. */
  function MoodExplorationBonus(t: Track, mood: Mood): (r: real)
    ensures 0.0 <= r <= 0.3
    ensures mood == Mood.NEUTRAL ==> r == 0.0
  {
    match mood
    case HAPPY => (if Above(t.valence, 0.7) then 0.2 else 0.0) + (if Above(t.energy, 0.6) then 0.1 else 0.0)
    case SAD => (if Below(t.valence, 0.4) then 0.2 else 0.0) + (if Above(t.acousticness, 0.6) then 0.1 else 0.0)
    case ENERGETIC => (if Above(t.energy, 0.8) then 0.2 else 0.0) + (if Above(t.tempo, 120.0) then 0.1 else 0.0)
    case CALM => (if Below(t.energy, 0.4) then 0.2 else 0.0) + (if Above(t.acousticness, 0.7) then 0.1 else 0.0)
    case FOCUSED => (if Above(t.instrumentalness, 0.5) then 0.2 else 0.0) + (if Below(t.speechiness, 0.1) then 0.1 else 0.0)
    case PARTY => (if Above(t.danceability, 0.7) then 0.2 else 0.0) + (if Above(t.energy, 0.7) then 0.1 else 0.0)
    case ROMANTIC => (if Within(t.valence, 0.5, 0.8) then 0.2 else 0.0) + (if Above(t.acousticness, 0.5) then 0.1 else 0.0)
    case NEUTRAL => 0.0
  }

  /** `calculateActivityExplorationBonus`; GENERAL matches no case. */
  function ActivityExplorationBonus(t: Track, activity: Activity): (r: real)
    ensures 0.0 <= r <= 0.3
    ensures activity == GENERAL ==> r == 0.0
  {
    match activity
    case WORKING => (if Above(t.instrumentalness, 0.6) then 0.2 else 0.0) + (if Below(t.speechiness, 0.1) then 0.1 else 0.0)
    case EXERCISING => (if Above(t.energy, 0.8) then 0.2 else 0.0) + (if Above(t.tempo, 120.0) then 0.1 else 0.0)
    case STUDYING => (if Above(t.instrumentalness, 0.7) then 0.2 else 0.0) + (if Below(t.loudness, -10.0) then 0.1 else 0.0)
    case RELAXING => (if Below(t.energy, 0.3) then 0.2 else 0.0) + (if Above(t.acousticness, 0.8) then 0.1 else 0.0)
    case COMMUTING => (if Above(t.energy, 0.5) then 0.2 else 0.0) + (if Above(t.danceability, 0.6) then 0.1 else 0.0)
    case SOCIALIZING => (if Above(t.danceability, 0.7) then 0.2 else 0.0) + (if Above(t.valence, 0.6) then 0.1 else 0.0)
    case GENERAL => 0.0
  }

  /** `calculateTimeExplorationBonus`: DAY always gives exactly 0.1. */
  function TimeExplorationBonus(t: Track, time: TimeOfDay): (r: real)
    ensures 0.0 <= r <= 0.3
    ensures time == DAY ==> r == 0.1
  {
    match time
    case MORNING => (if Above(t.energy, 0.6) then 0.2 else 0.0) + (if Above(t.valence, 0.6) then 0.1 else 0.0)
    case DAY => 0.1
    case EVENING => (if Above(t.valence, 0.5) then 0.2 else 0.0) + (if Above(t.danceability, 0.6) then 0.1 else 0.0)
    case NIGHT => (if Below(t.energy, 0.5) then 0.2 else 0.0) + (if Above(t.acousticness, 0.6) then 0.1 else 0.0)
  }

  /** The bonus `applyContextualExploration` adds for one track. */
  function ContextualBonus(t: Track, mood: Mood, activity: Activity, time: TimeOfDay): (r: real)
    ensures 0.0 <= r <= 0.9
  {
    MoodExplorationBonus(t, mood) + ActivityExplorationBonus(t, activity) + TimeExplorationBonus(t, time)
  }

  /** Under a new user's default context (NEUTRAL, GENERAL, DAY) every track
      gets a bonus of exactly 0.1, which is not above the 0.1 needed to
      rewrite the explanation. */
  lemma DefaultContextBonus(t: Track)
    ensures ContextualBonus(t, Mood.NEUTRAL, GENERAL, DAY) == 0.1
    ensures !(ContextualBonus(t, Mood.NEUTRAL, GENERAL, DAY) > 0.1)
  {
  }

  // ---------------------------------------------------------------------
  // The three passes
  // ---------------------------------------------------------------------

  /** No score that was non-negative went down. */
  predicate NeverLower(before: seq<real>, after: seq<real>) {
    |before| == |after| && forall k :: 0 <= k < |before| ==> before[k] >= 0.0 ==> after[k] >= before[k]
  }

  lemma NeverLowerTransitive(a: seq<real>, b: seq<real>, c: seq<real>)
    requires NeverLower(a, b) && NeverLower(b, c)
    ensures NeverLower(a, c)
  {
  }

  /** `score * (1.0 + Math.random() * 0.3)`. */
  function EpsilonBoosted(score: real, draw: real): real {
    score * (1.0 + draw * 0.3)
  }

  lemma EpsilonBoostNeverLower(score: real, draw: real)
    requires 0.0 <= draw
    ensures score >= 0.0 ==> EpsilonBoosted(score, draw) >= score
  {
    if score >= 0.0 {
      MulMonotone(1.0, 1.0 + draw * 0.3, score);
    }
  }

  /** The indices `0..n-1` in some order, as `Collections.shuffle` leaves them. */
  predicate IsShuffle(order: seq<nat>, n: nat) {
    |order| == n && (forall i :: 0 <= i < n ==> order[i] < n) && Distinct(order)
  }

  /** `applyEpsilonGreedyExploration`: when the draw falls below epsilon, the
      first `min(5, n)` recommendations of a shuffled copy have their score
      boosted by up to 30% and their explanation replaced; every other
      recommendation is left alone, and the list itself is not reordered. */
  method ApplyEpsilonGreedy(recs: seq<TrackRecommendation>, epsilon: real, draw: real, order: seq<nat>, boosts: seq<real>)
    requires Distinct(recs)
    requires IsShuffle(order, |recs|)
    requires |boosts| >= MinI(5, |recs|) && forall i :: 0 <= i < |boosts| ==> 0.0 <= boosts[i] < 1.0
    modifies (set r | r in recs)`score, (set r | r in recs)`explanation
    ensures draw >= epsilon ==> forall k :: 0 <= k < |recs| ==>
      recs[k].score == old(recs[k].score) && recs[k].explanation == old(recs[k].explanation)
    ensures draw < epsilon ==> forall i :: 0 <= i < MinI(5, |recs|) ==>
      recs[order[i]].score == EpsilonBoosted(old(recs[order[i]].score), boosts[i])
      && recs[order[i]].explanation == EXPLORATION_PICK
    ensures forall k :: 0 <= k < |recs| && k !in order[..MinI(5, |recs|)] ==>
      recs[k].score == old(recs[k].score) && recs[k].explanation == old(recs[k].explanation)
    ensures forall k :: 0 <= k < |recs| ==> old(recs[k].score) >= 0.0 ==> recs[k].score >= old(recs[k].score)
  {
    if draw >= epsilon {
      return;
    }
    var m := MinI(5, |recs|);
    var i := 0;
    while i < m
      invariant 0 <= i <= m
      invariant forall j :: 0 <= j < i ==>
        recs[order[j]].score == EpsilonBoosted(old(recs[order[j]].score), boosts[j])
        && recs[order[j]].explanation == EXPLORATION_PICK
      invariant forall k :: 0 <= k < |recs| && k !in order[..i] ==>
        recs[k].score == old(recs[k].score) && recs[k].explanation == old(recs[k].explanation)
      invariant forall k :: 0 <= k < |recs| ==> old(recs[k].score) >= 0.0 ==> recs[k].score >= old(recs[k].score)
    {
      var rec := recs[order[i]];
      assert order[i] !in order[..i];
      EpsilonBoostNeverLower(rec.score, boosts[i]);
      rec.SetScore(EpsilonBoosted(rec.score, boosts[i]));
      rec.SetExplanation(EXPLORATION_PICK);
      assert order[..i + 1] == order[..i] + [order[i]];
      i := i + 1;
    }
  }

  /** The Beta prior `applyThompsonSampling` builds for a track: less
      popular and more novel tracks get more weight on alpha. */
  function ThompsonPrior(t: Track): (ab: (real, real))
    ensures TrackScoresInRange(t) ==> ab.0 >= 1.0 && ab.1 >= 1.0
    ensures t.spotifyPopularity.Some? && t.noveltyScore.None? ==> ab.0 + ab.1 == 4.0
  {
    var pop := if t.spotifyPopularity.Some? then t.spotifyPopularity.value as real / 100.0 else 0.0;
    var alpha := 1.0 + (if t.spotifyPopularity.Some? then (1.0 - pop) * 2.0 else 0.0)
      + (if t.noveltyScore.Some? then t.noveltyScore.value * 1.5 else 0.0);
    var beta := 1.0 + (if t.spotifyPopularity.Some? then pop * 2.0 else 0.0);
    (alpha, beta)
  }

  /** `sample * 0.4`. */
  function ThompsonBonus(sample: real): (b: real)
    ensures 0.0 <= sample <= 1.0 ==> 0.0 <= b <= 0.4
  {
    sample * 0.4
  }

  /** `applyThompsonSampling`: every score gains its sample's bonus, and the
      explanation is replaced when that bonus exceeds 0.2. */
  method ApplyThompsonSampling(recs: seq<TrackRecommendation>, samples: seq<real>)
    requires Distinct(recs)
    requires |samples| == |recs| && forall k :: 0 <= k < |samples| ==> 0.0 <= samples[k] <= 1.0
    modifies (set r | r in recs)`score, (set r | r in recs)`explanation
    ensures forall k :: 0 <= k < |recs| ==>
      recs[k].score == old(recs[k].score) + ThompsonBonus(samples[k])
      && recs[k].explanation == (if ThompsonBonus(samples[k]) > 0.2 then THOMPSON_PICK else old(recs[k].explanation))
    ensures forall k :: 0 <= k < |recs| ==> old(recs[k].score) <= recs[k].score <= old(recs[k].score) + 0.4
  {
    var i := 0;
    while i < |recs|
      invariant 0 <= i <= |recs|
      invariant forall k :: 0 <= k < i ==>
        recs[k].score == old(recs[k].score) + ThompsonBonus(samples[k])
        && recs[k].explanation == (if ThompsonBonus(samples[k]) > 0.2 then THOMPSON_PICK else old(recs[k].explanation))
      invariant forall k :: i <= k < |recs| ==>
        recs[k].score == old(recs[k].score) && recs[k].explanation == old(recs[k].explanation)
    {
      var rec := recs[i];
      var explorationBonus := ThompsonBonus(samples[i]);
      rec.SetScore(rec.score + explorationBonus);
      if explorationBonus > 0.2 {
        rec.SetExplanation(THOMPSON_PICK);
      }
      i := i + 1;
    }
  }

  /** Whether `applyContextualExploration` can run: the Java `switch` on a
      null mood, activity or time of day throws. */
  predicate HasFullContext(mood: Option<Mood>, activity: Option<Activity>, time: Option<TimeOfDay>) {
    mood.Some? && activity.Some? && time.Some?
  }

  /** `applyContextualExploration`: with a complete context every score gains
      its contextual bonus and the explanation is replaced when the bonus
      exceeds 0.1; with a missing context part a non-empty list fails
      (`ok` is false) before any recommendation is touched. */
  method ApplyContextualExploration(recs: seq<TrackRecommendation>, user: User) returns (ok: bool)
    requires Distinct(recs)
    modifies (set r | r in recs)`score, (set r | r in recs)`explanation
    ensures ok <==> |recs| == 0 || HasFullContext(user.currentMood, user.currentActivity, user.timeOfDay)
    ensures !ok ==> forall k :: 0 <= k < |recs| ==>
      recs[k].score == old(recs[k].score) && recs[k].explanation == old(recs[k].explanation)
    ensures ok ==> forall k :: 0 <= k < |recs| ==>
      var b := ContextualBonus(recs[k].track, user.currentMood.value, user.currentActivity.value, user.timeOfDay.value);
      recs[k].score == old(recs[k].score) + b
      && recs[k].explanation == (if b > 0.1 then CONTEXTUAL_PICK else old(recs[k].explanation))
    ensures forall k :: 0 <= k < |recs| ==> old(recs[k].score) <= recs[k].score
  {
    if |recs| == 0 {
      return true;
    }
    if !HasFullContext(user.currentMood, user.currentActivity, user.timeOfDay) {
      return false;
    }
    var mood, activity, time := user.currentMood.value, user.currentActivity.value, user.timeOfDay.value;
    var i := 0;
    while i < |recs|
      invariant 0 <= i <= |recs|
      invariant forall k :: 0 <= k < i ==>
        var b := ContextualBonus(recs[k].track, mood, activity, time);
        recs[k].score == old(recs[k].score) + b
        && recs[k].explanation == (if b > 0.1 then CONTEXTUAL_PICK else old(recs[k].explanation))
      invariant forall k :: i <= k < |recs| ==>
        recs[k].score == old(recs[k].score) && recs[k].explanation == old(recs[k].explanation)
    {
      var rec := recs[i];
      var contextualBonus := ContextualBonus(rec.track, mood, activity, time);
      rec.SetScore(rec.score + contextualBonus);
      if contextualBonus > 0.1 {
        rec.SetExplanation(CONTEXTUAL_PICK);
      }
      i := i + 1;
    }
    return true;
  }

  /** The explanations of a list of recommendations. */
  function Explanations(recs: seq<TrackRecommendation>): (r: seq<string>)
    reads set x | x in recs
    ensures |r| == |recs|
    ensures forall k :: 0 <= k < |recs| ==> r[k] == recs[k].explanation
  {
    if recs == [] then [] else Explanations(recs[..|recs| - 1]) + [recs[|recs| - 1].explanation]
  }

  /** What the epsilon-greedy pass does to the scores `s0` and explanations
      `x0` of `n` recommendations, leaving `e` and `x`: nothing unless the
      draw falls below epsilon, and then the first `min(5, n)` indices of
      the shuffled order boosted and marked. */
  predicate EpsilonExplored(s0: seq<real>, x0: seq<string>, n: nat, epsilon: real, draw: real,
                            order: seq<nat>, boosts: seq<real>, e: seq<real>, x: seq<string>)
  {
    && |s0| == n && |x0| == n && |e| == n && |x| == n
    && IsShuffle(order, n) && |boosts| >= MinI(5, n)
    && (draw >= epsilon ==> e == s0 && x == x0)
    && (draw < epsilon ==> forall i :: 0 <= i < MinI(5, n) ==>
          e[order[i]] == EpsilonBoosted(s0[order[i]], boosts[i]) && x[order[i]] == EXPLORATION_PICK)
    && (forall k :: 0 <= k < n && k !in order[..MinI(5, n)] ==> e[k] == s0[k] && x[k] == x0[k])
  }

  /** What the Thompson and contextual passes do to the scores `e` and
      explanations `x` of the tracks `ts`, leaving `s` and `xs`: every entry
      gains its Thompson bonus and, when the context is complete, its
      contextual bonus, each replacing the explanation past its threshold. */
  predicate BonusesExplored(e: seq<real>, x: seq<string>, ts: seq<Track>,
                            mood: Option<Mood>, activity: Option<Activity>, time: Option<TimeOfDay>,
                            samples: seq<real>, s: seq<real>, xs: seq<string>)
  {
    && |e| == |ts| && |x| == |ts| && |samples| == |ts| && |s| == |ts| && |xs| == |ts|
    && forall k :: 0 <= k < |ts| ==>
         var thompson := ThompsonBonus(samples[k]);
         var tx := if thompson > 0.2 then THOMPSON_PICK else x[k];
         if HasFullContext(mood, activity, time) then
           var b := ContextualBonus(ts[k], mood.value, activity.value, time.value);
           s[k] == e[k] + thompson + b && xs[k] == (if b > 0.1 then CONTEXTUAL_PICK else tx)
         else
           s[k] == e[k] + thompson && xs[k] == tx
  }

  /** All three exploration passes, on the scores `s0` and explanations
      `x0` of the tracks `ts`; `e` and `x` are the state between the
      epsilon-greedy pass and the other two. */
  predicate Explored(s0: seq<real>, x0: seq<string>, ts: seq<Track>,
                     mood: Option<Mood>, activity: Option<Activity>, time: Option<TimeOfDay>,
                     epsilon: real, draw: real, order: seq<nat>, boosts: seq<real>, samples: seq<real>,
                     e: seq<real>, x: seq<string>, s: seq<real>, xs: seq<string>)
  {
    EpsilonExplored(s0, x0, |ts|, epsilon, draw, order, boosts, e, x)
    && BonusesExplored(e, x, ts, mood, activity, time, samples, s, xs)
  }

  /** The epsilon-greedy pass, stated on the score and explanation lists. */
  method EpsilonStage(recs: seq<TrackRecommendation>, epsilon: real, draw: real, order: seq<nat>, boosts: seq<real>)
    requires Distinct(recs)
    requires IsShuffle(order, |recs|)
    requires |boosts| >= MinI(5, |recs|) && forall i :: 0 <= i < |boosts| ==> 0.0 <= boosts[i] < 1.0
    modifies (set r | r in recs)`score, (set r | r in recs)`explanation
    ensures EpsilonExplored(old(Scores(recs)), old(Explanations(recs)), |recs|, epsilon, draw, order, boosts,
                            Scores(recs), Explanations(recs))
    ensures NeverLower(old(Scores(recs)), Scores(recs))
  {
    ghost var s0, x0 := Scores(recs), Explanations(recs);
    ApplyEpsilonGreedy(recs, epsilon, draw, order, boosts);
    if draw >= epsilon {
      assert Scores(recs) == s0 && Explanations(recs) == x0;
    }
  }

  /** What the Thompson pass does to the scores `s0` and explanations `x0`. */
  predicate ThompsonApplied(s0: seq<real>, x0: seq<string>, samples: seq<real>, s: seq<real>, xs: seq<string>) {
    && |x0| == |s0| && |samples| == |s0| && |s| == |s0| && |xs| == |s0|
    && forall k :: 0 <= k < |s0| ==>
         s[k] == s0[k] + ThompsonBonus(samples[k])
         && xs[k] == (if ThompsonBonus(samples[k]) > 0.2 then THOMPSON_PICK else x0[k])
  }

  /** What the contextual pass does to the scores `s0` and explanations
      `x0` of the tracks `ts` when it completes. */
  predicate ContextApplied(s0: seq<real>, x0: seq<string>, ts: seq<Track>,
                           mood: Option<Mood>, activity: Option<Activity>, time: Option<TimeOfDay>,
                           s: seq<real>, xs: seq<string>)
  {
    && |s0| == |ts| && |x0| == |ts| && |s| == |ts| && |xs| == |ts|
    && if HasFullContext(mood, activity, time) then
         forall k :: 0 <= k < |ts| ==>
           var b := ContextualBonus(ts[k], mood.value, activity.value, time.value);
           s[k] == s0[k] + b && xs[k] == (if b > 0.1 then CONTEXTUAL_PICK else x0[k])
       else s == s0 && xs == x0
  }

  lemma BonusesCompose(e: seq<real>, x: seq<string>, ts: seq<Track>,
                       mood: Option<Mood>, activity: Option<Activity>, time: Option<TimeOfDay>, samples: seq<real>,
                       t: seq<real>, tx: seq<string>, s: seq<real>, xs: seq<string>)
    requires ThompsonApplied(e, x, samples, t, tx)
    requires ContextApplied(t, tx, ts, mood, activity, time, s, xs)
    ensures BonusesExplored(e, x, ts, mood, activity, time, samples, s, xs)
  {
  }

  method ThompsonStage(recs: seq<TrackRecommendation>, samples: seq<real>)
    requires Distinct(recs)
    requires |samples| == |recs| && forall k :: 0 <= k < |samples| ==> 0.0 <= samples[k] <= 1.0
    modifies (set r | r in recs)`score, (set r | r in recs)`explanation
    ensures ThompsonApplied(old(Scores(recs)), old(Explanations(recs)), samples, Scores(recs), Explanations(recs))
    ensures NeverLower(old(Scores(recs)), Scores(recs))
  {
    ApplyThompsonSampling(recs, samples);
  }

  method ContextStage(recs: seq<TrackRecommendation>, user: User) returns (ok: bool)
    requires Distinct(recs)
    modifies (set r | r in recs)`score, (set r | r in recs)`explanation
    ensures ok <==> |recs| == 0 || HasFullContext(user.currentMood, user.currentActivity, user.timeOfDay)
    ensures ContextApplied(old(Scores(recs)), old(Explanations(recs)), Tracks(recs),
                           user.currentMood, user.currentActivity, user.timeOfDay, Scores(recs), Explanations(recs))
    ensures NeverLower(old(Scores(recs)), Scores(recs))
  {
    ghost var s0, x0 := Scores(recs), Explanations(recs);
    ok := ApplyContextualExploration(recs, user);
    if !HasFullContext(user.currentMood, user.currentActivity, user.timeOfDay) {
      assert Scores(recs) == s0 && Explanations(recs) == x0;
    }
  }

  /** The Thompson and contextual passes, stated on the score and
      explanation lists. */
  method BonusStage(recs: seq<TrackRecommendation>, user: User, samples: seq<real>) returns (ok: bool)
    requires Distinct(recs)
    requires |samples| == |recs| && forall k :: 0 <= k < |samples| ==> 0.0 <= samples[k] <= 1.0
    modifies (set r | r in recs)`score, (set r | r in recs)`explanation
    ensures ok <==> |recs| == 0 || HasFullContext(user.currentMood, user.currentActivity, user.timeOfDay)
    ensures BonusesExplored(old(Scores(recs)), old(Explanations(recs)), Tracks(recs),
                            user.currentMood, user.currentActivity, user.timeOfDay, samples,
                            Scores(recs), Explanations(recs))
    ensures NeverLower(old(Scores(recs)), Scores(recs))
  {
    ghost var s0, x0 := Scores(recs), Explanations(recs);
    ThompsonStage(recs, samples);
    ghost var s1, x1 := Scores(recs), Explanations(recs);
    ok := ContextStage(recs, user);
    BonusesCompose(s0, x0, Tracks(recs), user.currentMood, user.currentActivity, user.timeOfDay, samples,
                   s1, x1, Scores(recs), Explanations(recs));
    NeverLowerTransitive(s0, s1, Scores(recs));
  }

  /** `applyExploration`: the three passes in turn, with the user's
      exploration level as epsilon. The same list comes back, an empty one
      untouched; its scores and explanations end as `Explored` says, with
      `e` and `x` the state after the epsilon-greedy pass. The call fails
      only when the context is incomplete, and no non-negative score ever
      goes down. */
  method ApplyExploration(recs: seq<TrackRecommendation>, user: User, draw: real, order: seq<nat>,
                          boosts: seq<real>, samples: seq<real>)
    returns (result: seq<TrackRecommendation>, ok: bool, ghost e: seq<real>, ghost x: seq<string>)
    requires Distinct(recs)
    requires IsShuffle(order, |recs|)
    requires |boosts| >= MinI(5, |recs|) && forall i :: 0 <= i < |boosts| ==> 0.0 <= boosts[i] < 1.0
    requires |samples| == |recs| && forall k :: 0 <= k < |samples| ==> 0.0 <= samples[k] <= 1.0
    modifies (set r | r in recs)`score, (set r | r in recs)`explanation
    ensures result == recs
    ensures ok <==> |recs| == 0 || HasFullContext(user.currentMood, user.currentActivity, user.timeOfDay)
    ensures Explored(old(Scores(recs)), old(Explanations(recs)), Tracks(recs),
                     user.currentMood, user.currentActivity, user.timeOfDay,
                     user.explorationLevel, draw, order, boosts, samples, e, x, Scores(recs), Explanations(recs))
    ensures NeverLower(old(Scores(recs)), Scores(recs))
  {
    if |recs| == 0 {
      return recs, true, [], [];
    }
    ghost var s0 := Scores(recs);
    EpsilonStage(recs, user.explorationLevel, draw, order, boosts);
    e, x := Scores(recs), Explanations(recs);
    ok := BonusStage(recs, user, samples);
    NeverLowerTransitive(s0, e, Scores(recs));
    return recs, ok, e, x;
  }


  // ---------------------------------------------------------------------
  // Statistics
  // ---------------------------------------------------------------------

  datatype ExplorationStats = ExplorationStats(
    avgExplorationScore: real,
    noveltyRatio: real,
    independentRatio: real,
    lowPopularityRatio: real)

  predicate IsNovelTrack(t: Track) { t.noveltyScore.Some? && t.noveltyScore.value > 0.7 }
  predicate IsLowPopularityTrack(t: Track) { t.spotifyPopularity.Some? && t.spotifyPopularity.value < 50 }

  /** `calculateExplorationScore(track, user)` where the user may be null:
      the alignment step dereferences it and throws. */
  function ExplorationScoreOrNull(t: Track, user: Option<Profile>): (r: Result<real>)
    ensures r.Ok? <==> user.Some?
    ensures user.Some? ==> r.value == ExplorationScore(t, user.value)
  {
    if user.None? then Err("NullPointerException") else Ok(ExplorationScore(t, user.value))
  }

  /** The exploration scores of all tracks, failing on the first failure. */
  function ExplorationScoresOrNull(ts: seq<Track>, user: Option<Profile>): (r: Result<seq<real>>)
    ensures r.Ok? ==> |r.value| == |ts|
  {
    if ts == [] then Ok([])
    else match ExplorationScoresOrNull(ts[..|ts| - 1], user)
      case Err(e) => Err(e)
      case Ok(init) =>
        match ExplorationScoreOrNull(ts[|ts| - 1], user)
        case Err(e) => Err(e)
        case Ok(x) => Ok(init + [x])
  }

  /** The three ratios `getExplorationStats` reports, over a non-empty list. */
  function StatsWithAverage(ts: seq<Track>, avg: real): (s: ExplorationStats)
    requires ts != []
    ensures 0.0 <= s.noveltyRatio <= 1.0 && 0.0 <= s.independentRatio <= 1.0 && 0.0 <= s.lowPopularityRatio <= 1.0
    ensures s.avgExplorationScore == avg
  {
    ShareAtMostOne(CountOf(ts, IsNovelTrack), |ts|);
    ShareAtMostOne(CountOf(ts, IsIndependentTrack), |ts|);
    ShareAtMostOne(CountOf(ts, IsLowPopularityTrack), |ts|);
    ExplorationStats(avg,
      CountOf(ts, IsNovelTrack) as real / |ts| as real,
      CountOf(ts, IsIndependentTrack) as real / |ts| as real,
      CountOf(ts, IsLowPopularityTrack) as real / |ts| as real)
  }

  /** `getExplorationStats` as written: an empty list gives the empty map
      (`None`); otherwise the average of `calculateExplorationScore(track,
      null)` is taken first. */
  function ExplorationStatsAsWritten(ts: seq<Track>): Result<Option<ExplorationStats>> {
    if ts == [] then Ok(None)
    else match ExplorationScoresOrNull(ts, None)
      case Err(e) => Err(e)
      case Ok(scores) => Ok(Some(StatsWithAverage(ts, SumOf(scores, IdR) / |ts| as real)))
  }

  /** As written, the statistics of any non-empty list fail with a null
      dereference: no user is ever passed in. */
  lemma ExplorationStatsAsWrittenFails(ts: seq<Track>)
    ensures ts == [] ==> ExplorationStatsAsWritten(ts) == Ok(None)
    ensures ts != [] ==> ExplorationStatsAsWritten(ts).Err?
  {
    if ts != [] {
      ExplorationScoresFailWithoutUser(ts);
    }
  }

  lemma {:induction false} ExplorationScoresFailWithoutUser(ts: seq<Track>)
    requires ts != []
    ensures ExplorationScoresOrNull(ts, None).Err?
  {
    if |ts| > 1 {
      ExplorationScoresFailWithoutUser(ts[..|ts| - 1]);
    }
  }

  /** The exploration score of every track for a given user. */
  function ExplorationScores(ts: seq<Track>, p: Profile): (r: seq<real>)
    ensures |r| == |ts|
    ensures forall k :: 0 <= k < |ts| ==> r[k] == ExplorationScore(ts[k], p)
  {
    if ts == [] then [] else ExplorationScores(ts[..|ts| - 1], p) + [ExplorationScore(ts[|ts| - 1], p)]
  }

  /** With a user supplied the score computation never fails and yields
      exactly the per-track exploration scores. */
  lemma {:induction false} ExplorationScoresWithUser(ts: seq<Track>, p: Profile)
    ensures ExplorationScoresOrNull(ts, Some(p)) == Ok(ExplorationScores(ts, p))
  {
    if ts != [] {
      ExplorationScoresWithUser(ts[..|ts| - 1], p);
    }
  }

  /** `getExplorationStats` with the user whose exploration scores are
      averaged: `None` for an empty list, otherwise an average that is at
      most 1 (and not negative for in-range data) and three ratios in [0,1]. */
  function ExplorationStatsFor(ts: seq<Track>, p: Profile): (r: Option<ExplorationStats>)
    ensures r.None? <==> ts == []
    ensures r.Some? ==> r.value.avgExplorationScore <= 1.0
    ensures r.Some? && ProfileInUnit(p) && (forall k :: 0 <= k < |ts| ==> TrackScoresInRange(ts[k]))
      ==> 0.0 <= r.value.avgExplorationScore
    ensures r.Some? ==> (0.0 <= r.value.noveltyRatio <= 1.0 && 0.0 <= r.value.independentRatio <= 1.0
      && 0.0 <= r.value.lowPopularityRatio <= 1.0)
  {
    if ts == [] then None
    else
      var scores := ExplorationScores(ts, p);
      AverageBounds(ts, p);
      Some(StatsWithAverage(ts, SumOf(scores, IdR) / |ts| as real))
  }

  lemma AverageBounds(ts: seq<Track>, p: Profile)
    requires ts != []
    ensures SumOf(ExplorationScores(ts, p), IdR) / |ts| as real <= 1.0
    ensures ProfileInUnit(p) && (forall k :: 0 <= k < |ts| ==> TrackScoresInRange(ts[k]))
      ==> 0.0 <= SumOf(ExplorationScores(ts, p), IdR) / |ts| as real
  {
    var scores := ExplorationScores(ts, p);
    ScoresAtMostOne(ts, p);
    QuotientBounds(SumOf(scores, IdR), |ts| as real);
    if ProfileInUnit(p) && (forall k :: 0 <= k < |ts| ==> TrackScoresInRange(ts[k])) {
      ScoresNonNeg(ts, p);
    }
  }

  lemma ScoresAtMostOne(ts: seq<Track>, p: Profile)
    ensures SumOf(ExplorationScores(ts, p), IdR) <= |ts| as real * 1.0
  {
    var scores := ExplorationScores(ts, p);
    forall x | x in scores
      ensures IdR(x) <= 1.0
    {
      var k :| 0 <= k < |scores| && scores[k] == x;
    }
    SumOfAtMost(scores, IdR, 1.0);
  }

  lemma ScoresNonNeg(ts: seq<Track>, p: Profile)
    requires ProfileInUnit(p) && forall k :: 0 <= k < |ts| ==> TrackScoresInRange(ts[k])
    ensures SumOf(ExplorationScores(ts, p), IdR) >= 0.0
  {
    var scores := ExplorationScores(ts, p);
    forall x | x in scores
      ensures IdR(x) >= 0.0
    {
      var k :| 0 <= k < |scores| && scores[k] == x;
      assert TrackScoresInRange(ts[k]);
    }
    SumOfNonNeg(scores, IdR);
  }

  lemma QuotientBounds(a: real, n: real)
    requires n > 0.0 && a <= n * 1.0
    ensures a / n <= 1.0
    ensures a >= 0.0 ==> a / n >= 0.0
  {
  }

  /** Supplying the user repairs the statistics: they are then exactly the
      corrected ones. */
  lemma ExplorationStatsWithUser(ts: seq<Track>, p: Profile)
    requires ts != []
    ensures ExplorationScoresOrNull(ts, Some(p)).Ok?
    ensures var scores := ExplorationScoresOrNull(ts, Some(p)).value;
      ExplorationStatsFor(ts, p) == Some(StatsWithAverage(ts, SumOf(scores, IdR) / |ts| as real))
  {
    ExplorationScoresWithUser(ts, p);
  }
}
