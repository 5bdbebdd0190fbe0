/** The Java `HybridRecommendationSystem`: candidate filtering against the
    user's liked tracks, user-based collaborative filtering over a user-item
    rating matrix, content-based filtering by cosine similarity to the
    user's average feature vector, the merge of both, the four generators
    ("For You", "New & Niche", "Experimental", hybrid) and the final
    ranking. Pearson's correlation, the square root and every random draw
    are parameters. */
module HybridRecommendationSystem {
  import opened Common
  import opened Text
  import opened TrackModel
  import opened Interaction
  import opened UserModel
  import opened Recommendation
  import opened DebiasingEngine
  import opened ContextEngine
  import opened ExplorationEngine
  import opened ContextTypes

  const COLLABORATIVE_WEIGHT: real := 0.4
  const CONTENT_WEIGHT: real := 0.6
  const DEBIASING_WEIGHT: real := 0.3
  const MAX_RECOMMENDATIONS: nat := 50
  const SIMILARITY_THRESHOLD: real := 0.7

  // ---------------------------------------------------------------------
  // Candidate filters
  // ---------------------------------------------------------------------

  /** `generateRecommendations`' first filter: the candidates whose Spotify
      id is not the id of any liked track, in their order. */
  function UnlikedCandidates(candidates: seq<Track>, liked: seq<Track>): (r: seq<Track>)
    ensures |r| <= |candidates|
    ensures forall t :: t in r <==> t in candidates && forall l :: l in liked ==> l.spotifyId != t.spotifyId
  {
    var likedIds := set l | l in liked :: l.spotifyId;
    Filter(candidates, (t: Track) => t.spotifyId !in likedIds)
  }

  /** The "New & Niche" filter: novelty above 0.6, popularity below 50 and
      an independent artist, each of them present. */
  predicate IsNicheCandidate(t: Track) {
    t.noveltyScore.Some? && t.noveltyScore.value > 0.6
    && t.spotifyPopularity.Some? && t.spotifyPopularity.value < 50
    && t.isIndependent == Some(true)
  }

  /** The "Experimental" filter: a genre or an artist the user does not
      prefer (compared in lower case, a missing genre counting as
      different), or a novelty above 0.7. */
  predicate IsExperimentalCandidate(t: Track, p: Profile) {
    (t.genre.None? || Lower(t.genre.value) !in p.preferredGenres)
    || Lower(t.artist) !in p.preferredArtists
    || (t.noveltyScore.Some? && t.noveltyScore.value > 0.7)
  }

  /** Only a familiar, not very novel track is left out of the experiments:
      one whose genre and artist the user both prefers. */
  lemma ExperimentalExcludesComfortZone(t: Track, p: Profile)
    ensures !IsExperimentalCandidate(t, p) <==>
      t.genre.Some? && Lower(t.genre.value) in p.preferredGenres && Lower(t.artist) in p.preferredArtists
      && (t.noveltyScore.None? || t.noveltyScore.value <= 0.7)
  {
  }

  // ---------------------------------------------------------------------
  // Novelty score
  // ---------------------------------------------------------------------

  /** `calculateNoveltyScore`: novelty, inverse popularity and an independent
      artist bonus, scaled by the user's novelty preference and capped at 1. */
  function NoveltyScore(t: Track, noveltyPreference: real): (r: real)
    ensures r <= 1.0
  {
    var s0 := 0.0;
    var s1 := if t.noveltyScore.Some? then s0 + t.noveltyScore.value else s0;
    var s2 := if t.spotifyPopularity.Some? then s1 + (100 - t.spotifyPopularity.value) as real / 100.0 else s1;
    var s3 := if t.isIndependent == Some(true) then s2 + 0.3 else s2;
    MinR(1.0, s3 * noveltyPreference)
  }

  /** With in-range data the novelty score is not negative. */
  lemma NoveltyScoreInUnit(t: Track, noveltyPreference: real)
    requires TrackScoresInRange(t) && 0.0 <= noveltyPreference
    ensures 0.0 <= NoveltyScore(t, noveltyPreference) <= 1.0
  {
    var s1 := if t.noveltyScore.Some? then t.noveltyScore.value else 0.0;
    var s2 := if t.spotifyPopularity.Some? then s1 + (100 - t.spotifyPopularity.value) as real / 100.0 else s1;
    var s3 := if t.isIndependent == Some(true) then s2 + 0.3 else s2;
    MulMonotone(0.0, s3, noveltyPreference);
  }

  /** Every "New & Niche" track reaches the cap once the user's novelty
      preference is 0.75 or more: its raw novelty already exceeds 1.4. */
  lemma NicheTrackSaturates(t: Track, noveltyPreference: real)
    requires IsNicheCandidate(t) && noveltyPreference >= 0.75
    ensures NoveltyScore(t, noveltyPreference) == 1.0
  {
    var s3 := t.noveltyScore.value + (100 - t.spotifyPopularity.value) as real / 100.0 + 0.3;
    assert s3 > 1.4;
    MulMonotone(1.4, s3, noveltyPreference);
  }

  // ---------------------------------------------------------------------
  // User-item matrix
  // ---------------------------------------------------------------------

  /** One cell of the matrix as an interaction provides it. */
  datatype RatingEntry = RatingEntry(userId: string, trackId: string, rating: real)

  type Matrix = map<string, map<string, real>>

  function EntryOf(x: UserTrackInteraction): RatingEntry
    reads x
  {
    RatingEntry(x.userId, x.track.spotifyId, x.GetEffectiveRating())
  }

  function Entries(xs: seq<UserTrackInteraction>): (r: seq<RatingEntry>)
    reads set x | x in xs
    ensures |r| == |xs|
    ensures forall k :: 0 <= k < |xs| ==> r[k] == EntryOf(xs[k])
  {
    if xs == [] then [] else Entries(xs[..|xs| - 1]) + [EntryOf(xs[|xs| - 1])]
  }

  predicate HasRating(m: Matrix, u: string, trackId: string) {
    u in m && trackId in m[u]
  }

  /** `computeIfAbsent(userId, …).put(trackId, rating)`. */
  function Put(m: Matrix, e: RatingEntry): Matrix {
    m[e.userId := (if e.userId in m then m[e.userId] else map[])[e.trackId := e.rating]]
  }

  /** The matrix after the entries are put in order. */
  function MatrixOf(es: seq<RatingEntry>): Matrix {
    if es == [] then map[] else Put(MatrixOf(es[..|es| - 1]), es[|es| - 1])
  }

  /** One step of `MatrixOf` over a growing prefix. */
  lemma MatrixOfStep(es: seq<RatingEntry>, i: nat)
    requires i < |es|
    ensures MatrixOf(es[..i + 1]) == Put(MatrixOf(es[..i]), es[i])
  {
    assert es[..i + 1][..i] == es[..i];
  }

  /** The matrix has a cell exactly for the (user, track) pairs of the entries. */
  lemma {:induction false} MatrixOfCells(es: seq<RatingEntry>, u: string, trackId: string)
    ensures HasRating(MatrixOf(es), u, trackId) <==>
      exists k :: 0 <= k < |es| && es[k].userId == u && es[k].trackId == trackId
  {
    if es != [] {
      var t := es[..|es| - 1];
      MatrixOfCells(t, u, trackId);
      if exists k :: 0 <= k < |t| && t[k].userId == u && t[k].trackId == trackId {
        var k :| 0 <= k < |t| && t[k].userId == u && t[k].trackId == trackId;
        assert es[k] == t[k];
      }
      if exists k :: 0 <= k < |es| && es[k].userId == u && es[k].trackId == trackId {
        var k :| 0 <= k < |es| && es[k].userId == u && es[k].trackId == trackId;
        if k < |t| { assert t[k] == es[k]; }
      }
    }
  }

  /** A cell holds the rating of the last entry for its (user, track) pair:
      a later interaction with the same track overwrites an earlier one. */
  lemma {:induction false} MatrixOfLastWins(es: seq<RatingEntry>, k: nat)
    requires k < |es|
    requires forall j :: k < j < |es| ==> !(es[j].userId == es[k].userId && es[j].trackId == es[k].trackId)
    ensures HasRating(MatrixOf(es), es[k].userId, es[k].trackId)
    ensures MatrixOf(es)[es[k].userId][es[k].trackId] == es[k].rating
  {
    if k < |es| - 1 {
      var t := es[..|es| - 1];
      assert t[k] == es[k];
      MatrixOfLastWins(t, k);
    }
  }

  /** `buildUserItemMatrix`. */
  method BuildUserItemMatrix(interactions: seq<UserTrackInteraction>) returns (matrix: Matrix)
    ensures matrix == MatrixOf(Entries(interactions))
  {
    ghost var es := Entries(interactions);
    matrix := map[];
    var i := 0;
    while i < |interactions|
      invariant 0 <= i <= |interactions|
      invariant matrix == MatrixOf(es[..i])
    {
      var x := interactions[i];
      MatrixOfStep(es, i);
      var row := if x.userId in matrix then matrix[x.userId] else map[];
      matrix := matrix[x.userId := row[x.track.spotifyId := x.GetEffectiveRating()]];
      i := i + 1;
    }
    assert es[..|interactions|] == es;
  }

  // ---------------------------------------------------------------------
  // Similar users
  // ---------------------------------------------------------------------

  /** Pearson's correlation of two users' ratings of the same items (a
      library call, so a parameter). The source lists the common items in a
      hash set's order; the coefficient does not depend on that order, so
      the parameter receives the ratings keyed by item. */
  type Pearson = (map<string, real>, map<string, real>) -> real

  function Restrict(r: map<string, real>, items: set<string>): (s: map<string, real>)
    ensures s.Keys == r.Keys * items
  {
    map i | i in r.Keys * items :: r[i]
  }

  /** `calculatePearsonCorrelation`: 0 with fewer than two common items,
      otherwise the correlation of the two users' ratings of the common items. */
  function Correlation(r1: map<string, real>, r2: map<string, real>, pearson: Pearson): (c: real)
    ensures |r1.Keys * r2.Keys| < 2 ==> c == 0.0
  {
    var common := r1.Keys * r2.Keys;
    if |common| < 2 then 0.0 else pearson(Restrict(r1, common), Restrict(r2, common))
  }

  /** `u` is one of the users similar to `target`. */
  predicate IsSimilarUser(target: string, u: string, m: Matrix, pearson: Pearson) {
    target in m && u in m && u != target
    && Correlation(m[target], m[u], pearson) > SIMILARITY_THRESHOLD
  }

  /** `findSimilarUsers`: every other user of the matrix whose correlation
      with the target exceeds the threshold, each once, in the map's
      iteration order; none when the target has no row. */
  method FindSimilarUsers(target: string, m: Matrix, pearson: Pearson)
    returns (similar: seq<string>)
    ensures target !in m ==> similar == []
    ensures forall u :: u in similar <==> IsSimilarUser(target, u, m, pearson)
    ensures Distinct(similar)
  {
    similar := [];
    if target !in m {
      return;
    }
    var rest := m.Keys;
    ghost var done: set<string> := {};
    while rest != {}
      invariant rest <= m.Keys && done == m.Keys - rest
      invariant forall u :: u in similar <==> u in done && IsSimilarUser(target, u, m, pearson)
      invariant Distinct(similar)
      decreases rest
    {
      var u :| u in rest;
      var isSimilar := u != target && Correlation(m[target], m[u], pearson) > SIMILARITY_THRESHOLD;
      SimilarStep(similar, done, u, isSimilar, target, m, pearson);
      if isSimilar {
        similar := similar + [u];
      }
      rest := rest - {u};
      done := done + {u};
    }
  }

  /** One user of the scan: `similar` grows by `u` exactly when `u` is similar. */
  lemma SimilarStep(similar: seq<string>, done: set<string>, u: string, isSimilar: bool,
                    target: string, m: Matrix, pearson: Pearson)
    requires target in m && u in m && u !in done
    requires isSimilar == (u != target && Correlation(m[target], m[u], pearson) > SIMILARITY_THRESHOLD)
    requires forall w :: w in similar <==> w in done && IsSimilarUser(target, w, m, pearson)
    requires Distinct(similar)
    ensures var next := if isSimilar then similar + [u] else similar;
      (forall w :: w in next <==> w in done + {u} && IsSimilarUser(target, w, m, pearson))
      && Distinct(next)
  {
    if isSimilar {
      DistinctSnoc(similar, u);
    }
  }

  /** A user is never similar to itself, so a matrix with the target's own
      row only has no similar users. */
  lemma OnlyTargetNoSimilarUsers(target: string, m: Matrix, pearson: Pearson, u: string)
    requires m.Keys <= {target}
    ensures !IsSimilarUser(target, u, m, pearson)
  {
  }

  // ---------------------------------------------------------------------
  // Collaborative score
  // ---------------------------------------------------------------------

  /** How many of the users rated the track. */
  function RatedCount(users: seq<string>, m: Matrix, trackId: string): (n: nat)
    ensures n <= |users|
  {
    if users == [] then 0
    else RatedCount(users[..|users| - 1], m, trackId) + (if HasRating(m, users[|users| - 1], trackId) then 1 else 0)
  }

  /** The sum of the users' ratings of the track. */
  function RatedSum(users: seq<string>, m: Matrix, trackId: string): real {
    if users == [] then 0.0
    else
      var u := users[|users| - 1];
      RatedSum(users[..|users| - 1], m, trackId) + (if HasRating(m, u, trackId) then m[u][trackId] else 0.0)
  }

  /** `calculateCollaborativeScore`: the mean rating of the track among the
      similar users who rated it, 0 when none did. */
  function CollaborativeScore(trackId: string, similar: seq<string>, m: Matrix): (r: real)
    ensures RatedCount(similar, m, trackId) == 0 ==> r == 0.0
  {
    var count := RatedCount(similar, m, trackId);
    if count > 0 then RatedSum(similar, m, trackId) / count as real else 0.0
  }

  /** Every rating of the matrix lies in [0,5]. */
  predicate RatingsInRange(m: Matrix) {
    forall u, t :: u in m && t in m[u] ==> 0.0 <= m[u][t] <= 5.0
  }

  lemma {:induction false} RatedSumBounds(users: seq<string>, m: Matrix, trackId: string)
    requires RatingsInRange(m)
    ensures 0.0 <= RatedSum(users, m, trackId) <= 5.0 * RatedCount(users, m, trackId) as real
  {
    if users != [] {
      RatedSumBounds(users[..|users| - 1], m, trackId);
    }
  }

  /** With ratings in [0,5] the collaborative score is in [0,5]. */
  lemma CollaborativeScoreInRange(trackId: string, similar: seq<string>, m: Matrix)
    requires RatingsInRange(m)
    ensures 0.0 <= CollaborativeScore(trackId, similar, m) <= 5.0
  {
    RatedSumBounds(similar, m, trackId);
    if RatedCount(similar, m, trackId) > 0 {
      AverageArith(RatedCount(similar, m, trackId) as real, RatedSum(similar, m, trackId), 0.0, 5.0);
    }
  }

  lemma {:induction false} RatedSumUnanimous(users: seq<string>, m: Matrix, trackId: string, v: real)
    requires forall u :: u in users && HasRating(m, u, trackId) ==> m[u][trackId] == v
    ensures RatedSum(users, m, trackId) == v * RatedCount(users, m, trackId) as real
  {
    if users != [] {
      RatedSumUnanimous(users[..|users| - 1], m, trackId, v);
    }
  }

  /** It is a mean: when every similar user who rated the track gave it the
      same rating, the score is that rating. */
  lemma CollaborativeScoreUnanimous(trackId: string, similar: seq<string>, m: Matrix, v: real)
    requires RatedCount(similar, m, trackId) > 0
    requires forall u :: u in similar && HasRating(m, u, trackId) ==> m[u][trackId] == v
    ensures CollaborativeScore(trackId, similar, m) == v
  {
    RatedSumUnanimous(similar, m, trackId, v);
  }

  // ---------------------------------------------------------------------
  // Feature profile and cosine similarity
  // ---------------------------------------------------------------------

  /** Sum of feature `i` over the tracks. */
  function FeatureSum(ts: seq<Track>, i: nat): real
    requires i < 9
  {
    if ts == [] then 0.0 else FeatureSum(ts[..|ts| - 1], i) + FeatureVector(ts[|ts| - 1])[i]
  }

  /** The user's average feature vector; all zeros without liked tracks. */
  function FeatureProfile(ts: seq<Track>): (p: seq<real>)
    ensures |p| == 9
  {
    seq(9, i requires 0 <= i < 9 => if ts == [] then 0.0 else FeatureSum(ts, i) / |ts| as real)
  }

  /** Audio features inside Spotify's documented ranges. */
  predicate FeaturesInRange(t: Track) {
    InUnit(t.acousticness) && InUnit(t.danceability) && InUnit(t.energy)
    && InUnit(t.instrumentalness) && InUnit(t.liveness) && InUnit(t.speechiness)
    && InUnit(t.valence)
    && (t.tempo.None? || 0.0 <= t.tempo.value <= 200.0)
    && (t.loudness.None? || -60.0 <= t.loudness.value <= 0.0)
  }

  lemma {:induction false} FeatureSumBounds(ts: seq<Track>, i: nat)
    requires i < 9
    requires forall t :: t in ts ==> FeaturesInRange(t)
    ensures 0.0 <= FeatureSum(ts, i) <= |ts| as real
  {
    if ts != [] {
      FeatureSumBounds(ts[..|ts| - 1], i);
      assert ts[|ts| - 1] in ts;
      FeatureVectorInUnitCube(ts[|ts| - 1]);
    }
  }

  /** The profile of tracks inside the documented ranges lies in the unit cube. */
  lemma FeatureProfileInUnitCube(ts: seq<Track>)
    requires forall t :: t in ts ==> FeaturesInRange(t)
    ensures forall i :: 0 <= i < 9 ==> 0.0 <= FeatureProfile(ts)[i] <= 1.0
  {
    forall i | 0 <= i < 9 ensures 0.0 <= FeatureProfile(ts)[i] <= 1.0 {
      FeatureSumBounds(ts, i);
      if ts != [] {
        QuotientBounds(FeatureSum(ts, i), |ts| as real);
      }
    }
  }

  /** The profile of a single track is that track's feature vector. */
  lemma FeatureProfileSingle(t: Track)
    ensures FeatureProfile([t]) == FeatureVector(t)
  {
    forall i | 0 <= i < 9 ensures FeatureProfile([t])[i] == FeatureVector(t)[i] {
      assert [t][..0] == [];
      assert FeatureSum([t], i) == FeatureVector(t)[i];
      assert FeatureProfile([t])[i] == FeatureSum([t], i) / 1.0;
    }
  }

  /** `calculateUserFeatureProfile`. */
  method CalculateUserFeatureProfile(liked: seq<Track>) returns (profile: array<real>)
    ensures fresh(profile) && profile.Length == 9
    ensures profile[..] == FeatureProfile(liked)
  {
    profile := new real[9](_ => 0.0);
    if |liked| == 0 {
      return;
    }
    var k := 0;
    while k < |liked|
      invariant 0 <= k <= |liked|
      invariant forall i :: 0 <= i < 9 ==> profile[i] == FeatureSum(liked[..k], i)
    {
      FeatureSumStep(liked, k);
      AddFeatures(profile, FeatureVector(liked[k]));
      k := k + 1;
    }
    assert liked[..|liked|] == liked;
    DivideFeatures(profile, liked);
  }

  /** One step of `FeatureSum` over a growing prefix. */
  lemma FeatureSumStep(ts: seq<Track>, k: nat)
    requires k < |ts|
    ensures forall i :: 0 <= i < 9 ==> FeatureSum(ts[..k + 1], i) == FeatureSum(ts[..k], i) + FeatureVector(ts[k])[i]
  {
    assert ts[..k + 1][..k] == ts[..k];
  }

  /** The inner loop: the features are added position by position. */
  method AddFeatures(profile: array<real>, features: seq<real>)
    requires profile.Length == 9 && |features| == 9
    modifies profile
    ensures forall i :: 0 <= i < 9 ==> profile[i] == old(profile[i]) + features[i]
  {
    var i := 0;
    while i < |features|
      invariant 0 <= i <= 9
      invariant forall j :: 0 <= j < i ==> profile[j] == old(profile[j]) + features[j]
      invariant forall j :: i <= j < 9 ==> profile[j] == old(profile[j])
    {
      profile[i] := profile[i] + features[i];
      i := i + 1;
    }
  }

  /** The final loop: each sum divided by the number of liked tracks. */
  method DivideFeatures(profile: array<real>, liked: seq<Track>)
    requires profile.Length == 9 && |liked| > 0
    requires forall j :: 0 <= j < 9 ==> profile[j] == FeatureSum(liked, j)
    modifies profile
    ensures profile[..] == FeatureProfile(liked)
  {
    var i := 0;
    while i < profile.Length
      invariant 0 <= i <= 9
      invariant forall j :: 0 <= j < i ==> profile[j] == FeatureSum(liked, j) / |liked| as real
      invariant forall j :: i <= j < 9 ==> profile[j] == FeatureSum(liked, j)
    {
      profile[i] := profile[i] / |liked| as real;
      i := i + 1;
    }
  }

  /** What the model needs of `Math.sqrt`: non-negative, and positive on
      positive arguments. */
  ghost predicate IsSqrt(sqrt: real -> real) {
    forall x :: x >= 0.0 ==> sqrt(x) >= 0.0 && (x > 0.0 ==> sqrt(x) > 0.0)
  }

  /** Dot product of the first `n` entries. */
  function Dot(v1: seq<real>, v2: seq<real>, n: nat): real
    requires n <= |v1| && n <= |v2|
  {
    if n == 0 then 0.0 else Dot(v1, v2, n - 1) + v1[n - 1] * v2[n - 1]
  }

  /** `calculateCosineSimilarity` over the length of the first vector: 0 when
      either squared norm is 0. */
  function Cosine(v1: seq<real>, v2: seq<real>, sqrt: real -> real): real
    requires |v1| <= |v2| && IsSqrt(sqrt)
  {
    var n := |v1|;
    var norm1 := Dot(v1, v1, n);
    var norm2 := Dot(v2, v2, n);
    if norm1 == 0.0 || norm2 == 0.0 then 0.0
    else
      DenominatorPositive(v1, v2, n, sqrt);
      Dot(v1, v2, n) / (sqrt(norm1) * sqrt(norm2))
  }

  lemma {:induction false} DotSelfNonNeg(v: seq<real>, n: nat)
    requires n <= |v|
    ensures Dot(v, v, n) >= 0.0
  {
    if n > 0 {
      DotSelfNonNeg(v, n - 1);
      var x := v[n - 1];
      if x >= 0.0 { MulMonotone(0.0, x, x); } else { MulMonotone(x, 0.0, -x); }
    }
  }

  /** Non-zero squared norms give a positive denominator. */
  lemma DenominatorPositive(v1: seq<real>, v2: seq<real>, n: nat, sqrt: real -> real)
    requires n <= |v1| && n <= |v2| && IsSqrt(sqrt)
    requires Dot(v1, v1, n) != 0.0 && Dot(v2, v2, n) != 0.0
    ensures sqrt(Dot(v1, v1, n)) * sqrt(Dot(v2, v2, n)) > 0.0
  {
    DotSelfNonNeg(v1, n);
    DotSelfNonNeg(v2, n);
    MulMonotone(sqrt(Dot(v1, v1, n)), 0.0, sqrt(Dot(v2, v2, n)));
  }

  lemma {:induction false} DotSymmetric(v1: seq<real>, v2: seq<real>, n: nat)
    requires n <= |v1| && n <= |v2|
    ensures Dot(v1, v2, n) == Dot(v2, v1, n)
  {
    if n > 0 {
      DotSymmetric(v1, v2, n - 1);
    }
  }

  lemma {:induction false} DotZero(v1: seq<real>, v2: seq<real>, n: nat)
    requires n <= |v1| && n <= |v2|
    requires forall i :: 0 <= i < n ==> v1[i] == 0.0
    ensures Dot(v1, v2, n) == 0.0
  {
    if n > 0 {
      DotZero(v1, v2, n - 1);
    }
  }

  /** Cosine similarity is symmetric in its two vectors. */
  lemma CosineSymmetric(v1: seq<real>, v2: seq<real>, sqrt: real -> real)
    requires |v1| == |v2| && IsSqrt(sqrt)
    ensures Cosine(v1, v2, sqrt) == Cosine(v2, v1, sqrt)
  {
    DotSymmetric(v1, v2, |v1|);
  }

  /** A zero profile (no liked tracks) is similar to nothing. */
  lemma CosineZeroVector(v1: seq<real>, v2: seq<real>, sqrt: real -> real)
    requires |v1| <= |v2| && IsSqrt(sqrt)
    requires forall i :: 0 <= i < |v1| ==> v1[i] == 0.0
    ensures Cosine(v1, v2, sqrt) == 0.0
  {
    DotZero(v1, v1, |v1|);
  }

  /** With an exact square root a non-zero vector is fully similar to itself. */
  lemma CosineSelf(v: seq<real>, sqrt: real -> real)
    requires IsSqrt(sqrt) && Dot(v, v, |v|) != 0.0
    requires sqrt(Dot(v, v, |v|)) * sqrt(Dot(v, v, |v|)) == Dot(v, v, |v|)
    ensures Cosine(v, v, sqrt) == 1.0
  {
    var d := Dot(v, v, |v|);
    var s := sqrt(d);
    assert Cosine(v, v, sqrt) == d / (s * s);
    assert d / d == 1.0;
  }

  /** The loop of `calculateCosineSimilarity`: the dot product and the two
      squared norms over the first vector's length. */
  method DotSums(v1: seq<real>, v2: seq<real>) returns (dotProduct: real, norm1: real, norm2: real)
    requires |v1| <= |v2|
    ensures dotProduct == Dot(v1, v2, |v1|) && norm1 == Dot(v1, v1, |v1|) && norm2 == Dot(v2, v2, |v1|)
  {
    dotProduct, norm1, norm2 := 0.0, 0.0, 0.0;
    var i := 0;
    while i < |v1|
      invariant 0 <= i <= |v1|
      invariant dotProduct == Dot(v1, v2, i) && norm1 == Dot(v1, v1, i) && norm2 == Dot(v2, v2, i)
    {
      dotProduct := dotProduct + v1[i] * v2[i];
      norm1 := norm1 + v1[i] * v1[i];
      norm2 := norm2 + v2[i] * v2[i];
      i := i + 1;
    }
  }

  /** `calculateCosineSimilarity`. */
  method CosineSimilarity(v1: seq<real>, v2: seq<real>, sqrt: real -> real) returns (r: real)
    requires |v1| <= |v2| && IsSqrt(sqrt)
    ensures r == Cosine(v1, v2, sqrt)
  {
    var dotProduct, norm1, norm2 := DotSums(v1, v2);
    if norm1 == 0.0 || norm2 == 0.0 {
      return 0.0;
    }
    DenominatorPositive(v1, v2, |v1|, sqrt);
    var denominator := sqrt(norm1) * sqrt(norm2);
    assert Cosine(v1, v2, sqrt) == dotProduct / denominator;
    r := dotProduct / denominator;
  }

  // ---------------------------------------------------------------------
  // Merging collaborative and content-based recommendations
  // ---------------------------------------------------------------------

  /** A recommendation as the merge reads it: its track id and score. */
  datatype IdScore = IdScore(id: string, score: real)

  function IdScores(recs: seq<TrackRecommendation>): (r: seq<IdScore>)
    reads set x | x in recs
    ensures |r| == |recs|
    ensures forall k :: 0 <= k < |recs| ==> r[k] == IdScore(recs[k].track.spotifyId, recs[k].score)
  {
    if recs == [] then [] else IdScores(recs[..|recs| - 1]) + [IdScore(recs[|recs| - 1].track.spotifyId, recs[|recs| - 1].score)]
  }

  function Ids(xs: seq<IdScore>): set<string> {
    set x | x in xs :: x.id
  }

  predicate DistinctIds(xs: seq<IdScore>) {
    forall i, j :: 0 <= i < j < |xs| ==> xs[i].id != xs[j].id
  }

  /** The collaborative loop: `put` every recommendation, a later one
      replacing an earlier one of the same track. */
  function PutAll(m: map<string, real>, xs: seq<IdScore>): map<string, real> {
    if xs == [] then m else PutAll(m, xs[..|xs| - 1])[xs[|xs| - 1].id := xs[|xs| - 1].score]
  }

  /** One step of the content loop: blend with the entry already there, or
      add the content score scaled by its weight. */
  function Blend(m: map<string, real>, y: IdScore): map<string, real> {
    if y.id in m then m[y.id := m[y.id] * 0.4 + y.score * 0.6]
    else m[y.id := y.score * 0.6]
  }

  function BlendAll(m: map<string, real>, ys: seq<IdScore>): map<string, real> {
    if ys == [] then m else Blend(BlendAll(m, ys[..|ys| - 1]), ys[|ys| - 1])
  }

  /** The merged score of every track id, as the two loops leave it. */
  function CombinedScores(collab: seq<IdScore>, content: seq<IdScore>): map<string, real> {
    BlendAll(PutAll(map[], collab), content)
  }

  lemma PutAllDistinct(xs: seq<IdScore>)
    requires DistinctIds(xs)
    ensures PutAll(map[], xs).Keys == Ids(xs)
    ensures forall i :: 0 <= i < |xs| ==> PutAll(map[], xs)[xs[i].id] == xs[i].score
  {
    PutAllKeys(xs);
    PutAllDistinctValues(xs);
  }

  function Last<T>(xs: seq<T>): T
    requires xs != []
  {
    xs[|xs| - 1]
  }

  lemma {:induction false} PutAllKeys(xs: seq<IdScore>)
    ensures PutAll(map[], xs).Keys == Ids(xs)
  {
    if xs != [] {
      PutAllKeys(xs[..|xs| - 1]);
      IdsSnoc(xs[..|xs| - 1], Last(xs));
      assert xs == xs[..|xs| - 1] + [Last(xs)];
    }
  }

  lemma IdsSnoc(xs: seq<IdScore>, x: IdScore)
    ensures Ids(xs + [x]) == Ids(xs) + {x.id}
  {
  }

  lemma {:induction false} PutAllDistinctValues(xs: seq<IdScore>)
    requires DistinctIds(xs)
    ensures forall i :: 0 <= i < |xs| ==> xs[i].id in PutAll(map[], xs) && PutAll(map[], xs)[xs[i].id] == xs[i].score
  {
    if xs != [] {
      PutAllDistinctValues(xs[..|xs| - 1]);
      forall i | 0 <= i < |xs| - 1 ensures PutAll(map[], xs)[xs[i].id] == xs[i].score {
        assert xs[..|xs| - 1][i] == xs[i];
      }
    }
  }

  lemma {:induction false} BlendAllKeys(m: map<string, real>, ys: seq<IdScore>)
    ensures BlendAll(m, ys).Keys == m.Keys + Ids(ys)
  {
    if ys != [] {
      var t := ys[..|ys| - 1];
      BlendAllKeys(m, t);
      assert ys == t + [ys[|ys| - 1]];
      assert Ids(ys) == Ids(t) + {ys[|ys| - 1].id};
    }
  }

  lemma {:induction false} BlendAllOutside(m: map<string, real>, ys: seq<IdScore>, id: string)
    requires id in m && id !in Ids(ys)
    ensures id in BlendAll(m, ys) && BlendAll(m, ys)[id] == m[id]
  {
    if ys != [] {
      var t := ys[..|ys| - 1];
      assert ys == t + [ys[|ys| - 1]];
      assert Ids(t) <= Ids(ys);
      BlendAllOutside(m, t, id);
    }
  }

  lemma LastIdNew(ys: seq<IdScore>)
    requires ys != [] && DistinctIds(ys)
    ensures ys[|ys| - 1].id !in Ids(ys[..|ys| - 1])
  {
  }

  lemma {:induction false} BlendAllAt(m: map<string, real>, ys: seq<IdScore>, j: nat)
    requires DistinctIds(ys) && j < |ys|
    ensures ys[j].id in BlendAll(m, ys)
    ensures BlendAll(m, ys)[ys[j].id] ==
      if ys[j].id in m then m[ys[j].id] * 0.4 + ys[j].score * 0.6 else ys[j].score * 0.6
  {
    var t := ys[..|ys| - 1];
    if j == |ys| - 1 {
      LastIdNew(ys);
      BlendAllKeys(m, t);
      if ys[j].id in m {
        BlendAllOutside(m, t, ys[j].id);
      }
    } else {
      assert t[j] == ys[j];
      BlendAllAt(m, t, j);
    }
  }

  /** The merge in closed form, for lists without repeated tracks: a track
      both sides found gets 0.4 of its collaborative and 0.6 of its content
      score, one only the content side found 0.6 of its content score, and
      one only the collaborative side found keeps its score. */
  lemma CombinedScoresClosedForm(collab: seq<IdScore>, content: seq<IdScore>)
    requires DistinctIds(collab) && DistinctIds(content)
    ensures CombinedScores(collab, content).Keys == Ids(collab) + Ids(content)
    ensures forall i, j :: 0 <= i < |collab| && 0 <= j < |content| && collab[i].id == content[j].id ==>
      CombinedScores(collab, content)[content[j].id] == collab[i].score * COLLABORATIVE_WEIGHT + content[j].score * CONTENT_WEIGHT
    ensures forall i :: 0 <= i < |collab| && collab[i].id !in Ids(content) ==>
      CombinedScores(collab, content)[collab[i].id] == collab[i].score
    ensures forall j :: 0 <= j < |content| && content[j].id !in Ids(collab) ==>
      CombinedScores(collab, content)[content[j].id] == content[j].score * CONTENT_WEIGHT
  {
    var m := PutAll(map[], collab);
    PutAllDistinct(collab);
    BlendAllKeys(m, content);
    forall j | 0 <= j < |content|
      ensures BlendAll(m, content)[content[j].id] ==
        if content[j].id in m then m[content[j].id] * 0.4 + content[j].score * 0.6 else content[j].score * 0.6
    {
      BlendAllAt(m, content, j);
    }
    forall i | 0 <= i < |collab| && collab[i].id !in Ids(content)
      ensures BlendAll(m, content)[collab[i].id] == collab[i].score
    {
      BlendAllOutside(m, content, collab[i].id);
    }
    forall i, j | 0 <= i < |collab| && 0 <= j < |content| && collab[i].id == content[j].id
      ensures m[content[j].id] == collab[i].score
    {
    }
  }

  /** The recommendations' track ids are pairwise different. */
  predicate DistinctTracks(recs: seq<TrackRecommendation>) {
    forall i, j :: 0 <= i < j < |recs| ==> recs[i].track.spotifyId != recs[j].track.spotifyId
  }

  function RecIds(recs: seq<TrackRecommendation>): set<string> {
    set r | r in recs :: r.track.spotifyId
  }

  /** No element of the first part of a sequence without repeats is in the
      second part, and each part has no repeats. */
  lemma DistinctSplit<T>(a: seq<T>, b: seq<T>)
    requires Distinct(a + b)
    ensures forall x, k :: x in a && 0 <= k < |b| ==> x != b[k]
    ensures Distinct(a) && Distinct(b)
  {
    forall x, k | x in a && 0 <= k < |b| ensures x != b[k] {
      var i :| 0 <= i < |a| && a[i] == x;
      assert (a + b)[i] == x && (a + b)[|a| + k] == b[k];
    }
    forall i, j | 0 <= i < j < |b| ensures b[i] != b[j] {
      assert (a + b)[|a| + i] == b[i] && (a + b)[|a| + j] == b[j];
    }
    forall i, j | 0 <= i < j < |a| ensures a[i] != a[j] {
      assert (a + b)[i] == a[i] && (a + b)[j] == a[j];
    }
  }

  /** Two sequences without repeats and without a common element join into
      one without repeats. */
  lemma DistinctJoin<T>(a: seq<T>, b: seq<T>)
    requires Distinct(a) && Distinct(b)
    requires forall i, j :: 0 <= i < |a| && 0 <= j < |b| ==> a[i] != b[j]
    ensures Distinct(a + b)
  {
    forall i, j | 0 <= i < j < |a + b| ensures (a + b)[i] != (a + b)[j] {
      if j < |a| {
        assert (a + b)[i] == a[i] && (a + b)[j] == a[j];
      } else if i < |a| {
        assert (a + b)[i] == a[i] && (a + b)[j] == b[j - |a|];
      } else {
        assert (a + b)[i] == b[i - |a|] && (a + b)[j] == b[j - |a|];
      }
    }
  }

  /** `byId` maps each of its ids to a recommendation of that track whose
      score is the one `scores` records, and `ids` lists its keys once each,
      in the order they were added. */
  predicate Indexed(byId: map<string, TrackRecommendation>, ids: seq<string>, scores: map<string, real>)
    reads byId.Values
  {
    byId.Keys == scores.Keys
    && (forall id :: id in byId ==> byId[id].track.spotifyId == id && byId[id].score == scores[id])
    && Distinct(ids) && (forall id :: id in ids ==> id in byId) && (forall id :: id in byId ==> id in ids)
  }

  /** The collaborative loop: every recommendation is put under its track id. */
  method IndexCollaborative(collab: seq<TrackRecommendation>)
    returns (byId: map<string, TrackRecommendation>, ids: seq<string>)
    ensures Indexed(byId, ids, PutAll(map[], IdScores(collab)))
    ensures forall id :: id in byId ==> byId[id] in collab
  {
    ghost var cs := IdScores(collab);
    byId, ids := map[], [];
    var i := 0;
    while i < |collab|
      invariant 0 <= i <= |collab|
      invariant Indexed(byId, ids, PutAll(map[], cs[..i]))
      invariant forall id :: id in byId ==> byId[id] in collab
    {
      var rec := collab[i];
      IndexedPut(byId, ids, PutAll(map[], cs[..i]), rec);
      PutAllStep(cs, i);
      if rec.track.spotifyId !in byId {
        ids := ids + [rec.track.spotifyId];
      }
      byId := byId[rec.track.spotifyId := rec];
      i := i + 1;
    }
    assert cs[..|collab|] == cs;
  }

  /** Putting one more recommendation under its track id keeps the index. */
  lemma IndexedPut(byId: map<string, TrackRecommendation>, ids: seq<string>, scores: map<string, real>,
                   rec: TrackRecommendation)
    requires Indexed(byId, ids, scores)
    ensures var id := rec.track.spotifyId;
      Indexed(byId[id := rec], if id in byId then ids else ids + [id], scores[id := rec.score])
  {
    var id := rec.track.spotifyId;
    if id !in byId {
      DistinctSnoc(ids, id);
    }
  }

  /** One step of `PutAll` over a growing prefix. */
  lemma PutAllStep(xs: seq<IdScore>, i: nat)
    requires i < |xs|
    ensures PutAll(map[], xs[..i + 1]) == PutAll(map[], xs[..i])[xs[i].id := xs[i].score]
  {
    assert xs[..i + 1][..i] == xs[..i];
  }

  /** One step of the content loop: a recommendation whose track is already
      in the map blends its score into the one there; any other is scaled by
      the content weight and added. The recommendations in `rest`, which are
      neither in the map nor `rec`, keep their scores and stay out of it. */
  method BlendOne(rec: TrackRecommendation, byId0: map<string, TrackRecommendation>, ids0: seq<string>,
                  ghost scores: map<string, real>, ghost rest: set<TrackRecommendation>)
    returns (byId: map<string, TrackRecommendation>, ids: seq<string>)
    requires Indexed(byId0, ids0, scores) && rec !in byId0.Values
    requires forall r :: r in rest ==> r !in byId0.Values && r != rec
    modifies byId0.Values`score, rec`score
    ensures Indexed(byId, ids, Blend(scores, IdScore(rec.track.spotifyId, old(rec.score))))
    ensures forall id :: id in byId ==> byId[id] in byId0.Values || byId[id] == rec
    ensures forall r :: r in rest ==> r !in byId.Values && r.score == old(r.score)
  {
    byId, ids := byId0, ids0;
    var id := rec.track.spotifyId;
    if id in byId {
      var existing := byId[id];
      existing.SetScore(existing.score * COLLABORATIVE_WEIGHT + rec.score * CONTENT_WEIGHT);
    } else {
      rec.SetScore(rec.score * CONTENT_WEIGHT);
      byId := byId[id := rec];
      ids := ids + [id];
    }
  }

  /** The content loop. */
  method BlendContent(content: seq<TrackRecommendation>, byId0: map<string, TrackRecommendation>,
                      ids0: seq<string>, ghost base: map<string, real>, ghost ns: seq<IdScore>)
    returns (byId: map<string, TrackRecommendation>, ids: seq<string>)
    requires Indexed(byId0, ids0, base) && Distinct(content) && ns == IdScores(content)
    requires forall id, k :: id in byId0 && 0 <= k < |content| ==> byId0[id] != content[k]
    modifies byId0.Values`score, (set r | r in content)`score
    ensures Indexed(byId, ids, BlendAll(base, ns))
    ensures forall id :: id in byId ==> byId[id] in byId0.Values || byId[id] in content
  {
    byId, ids := byId0, ids0;
    ghost var seen: set<TrackRecommendation> := {};
    var j := 0;
    while j < |content|
      invariant 0 <= j <= |content|
      invariant forall k :: j <= k < |content| ==> content[k].score == ns[k].score
      invariant Indexed(byId, ids, BlendAll(base, ns[..j]))
      invariant forall id :: id in byId ==> byId[id] in byId0.Values || byId[id] in seen
      invariant forall r :: r in seen ==> r in content
      invariant forall k :: j <= k < |content| ==> content[k] !in byId.Values
    {
      BlendAllStep(base, ns, j);
      ghost var rest := set k | j < k < |content| :: content[k];
      byId, ids := BlendOne(content[j], byId, ids, BlendAll(base, ns[..j]), rest);
      seen := seen + {content[j]};
      j := j + 1;
    }
    assert ns[..|content|] == ns;
  }

  /** One step of `BlendAll` over a growing prefix. */
  lemma BlendAllStep(m: map<string, real>, ys: seq<IdScore>, j: nat)
    requires j < |ys|
    ensures BlendAll(m, ys[..j + 1]) == Blend(BlendAll(m, ys[..j]), ys[j])
  {
    assert ys[..j + 1][..j] == ys[..j];
  }

  /** `addAll(combinedRecs.values())`, in the order the ids were added. */
  function ValuesInOrder(byId: map<string, TrackRecommendation>, ids: seq<string>): (r: seq<TrackRecommendation>)
    requires forall id :: id in ids ==> id in byId
    ensures |r| == |ids| && forall q :: 0 <= q < |ids| ==> r[q] == byId[ids[q]]
  {
    seq(|ids|, q requires 0 <= q < |ids| => byId[ids[q]])
  }

  /** What the listed values of an indexed map are: one recommendation per
      id, each with the score the map records for its track. */
  lemma ValuesInOrderIndexed(byId: map<string, TrackRecommendation>, ids: seq<string>, scores: map<string, real>)
    requires Indexed(byId, ids, scores)
    ensures var r := ValuesInOrder(byId, ids);
      Distinct(r) && DistinctTracks(r) && RecIds(r) == scores.Keys
      && (forall x :: x in r ==> x in byId.Values)
      && (forall k :: 0 <= k < |r| ==> r[k].score == scores[r[k].track.spotifyId])
  {
    var r := ValuesInOrder(byId, ids);
    assert forall q :: 0 <= q < |r| ==> r[q].track.spotifyId == ids[q];
    assert RecIds(r) == byId.Keys by {
      forall id | id in byId ensures id in RecIds(r) {
        var q :| 0 <= q < |ids| && ids[q] == id;
        assert r[q].track.spotifyId == id;
      }
    }
  }

  /** The merge of the "For You" and hybrid generators: the recommendations
      that remain are those of the merged map, one per track, each scored as
      `CombinedScores` says. */
  method CombineRecommendations(collab: seq<TrackRecommendation>, content: seq<TrackRecommendation>)
    returns (combined: seq<TrackRecommendation>)
    requires Distinct(collab + content)
    modifies (set r | r in collab)`score, (set r | r in content)`score
    ensures Distinct(combined) && DistinctTracks(combined)
    ensures forall r :: r in combined ==> r in collab || r in content
    ensures RecIds(combined) == CombinedScores(old(IdScores(collab)), old(IdScores(content))).Keys
    ensures forall k :: 0 <= k < |combined| ==>
      combined[k].score == CombinedScores(old(IdScores(collab)), old(IdScores(content)))[combined[k].track.spotifyId]
  {
    var byId, ids := MergeById(collab, content, IdScores(collab), IdScores(content));
    ValuesInOrderIndexed(byId, ids, CombinedScores(old(IdScores(collab)), old(IdScores(content))));
    combined := ValuesInOrder(byId, ids);
  }

  /** Both loops of the merge: the map from track id to recommendation and
      the ids in the order they were added. */
  method MergeById(collab: seq<TrackRecommendation>, content: seq<TrackRecommendation>,
                   ghost cs: seq<IdScore>, ghost ns: seq<IdScore>)
    returns (byId: map<string, TrackRecommendation>, ids: seq<string>)
    requires Distinct(collab + content) && cs == IdScores(collab) && ns == IdScores(content)
    modifies (set r | r in collab)`score, (set r | r in content)`score
    ensures Indexed(byId, ids, CombinedScores(cs, ns))
    ensures forall id :: id in byId ==> byId[id] in collab || byId[id] in content
  {
    DistinctSplit(collab, content);
    var byId0, ids0 := IndexCollaborative(collab);
    assert byId0.Values <= set r | r in collab;
    assert forall id, k :: id in byId0 && 0 <= k < |content| ==> byId0[id] != content[k];
    byId, ids := BlendContent(content, byId0, ids0, PutAll(map[], cs), ns);
  }

  // ---------------------------------------------------------------------
  // Ranking
  // ---------------------------------------------------------------------

  predicate SortedByScore(recs: seq<TrackRecommendation>)
    reads set r | r in recs
  {
    forall i, j :: 0 <= i < j < |recs| ==> recs[i].score >= recs[j].score
  }

  /** The first `n` of a sequence sorted by descending score are sorted,
      come from it, keep it free of repeats, and no element after them
      scores above one of them. */
  lemma PrefixDominates(sorted: seq<TrackRecommendation>, n: nat)
    requires SortedByScore(sorted)
    ensures SortedByScore(Take(sorted, n))
    ensures forall r :: r in Take(sorted, n) ==> r in sorted
    ensures Distinct(sorted) ==> Distinct(Take(sorted, n))
    ensures forall r, t :: r in sorted && r !in Take(sorted, n) && t in Take(sorted, n) ==> t.score >= r.score
  {
    var top := Take(sorted, n);
    forall r, t | r in sorted && r !in top && t in top ensures t.score >= r.score {
      var p :| 0 <= p < |sorted| && sorted[p] == r;
      var q :| 0 <= q < |top| && top[q] == t;
      assert sorted[q] == t;
    }
  }

  /** `top` holds the best of `recs` by score: as many as the cap allows,
      best first, each taken from `recs`, and no recommendation left out
      scores above one kept. */
  predicate IsTopByScore(recs: seq<TrackRecommendation>, top: seq<TrackRecommendation>)
    reads set r | r in recs
    reads set r | r in top
  {
    && |top| == MinI(MAX_RECOMMENDATIONS, |recs|) && SortedByScore(top)
    && (forall r :: r in top ==> r in recs)
    && (forall r, t :: r in recs && r !in top && t in top ==> t.score >= r.score)
  }

  /** `sorted(comparing(getScore).reversed()).limit(MAX_RECOMMENDATIONS)`:
      the stable descending sort by score cut to its first 50, so that no
      recommendation left out scores above one kept. */
  method RankTop(recs: seq<TrackRecommendation>) returns (top: seq<TrackRecommendation>)
    ensures top == Take(Map(SortDesc(Snapshot(recs), ScoreKey), RecOf), MAX_RECOMMENDATIONS)
    ensures IsTopByScore(recs, top)
    ensures Distinct(recs) ==> Distinct(top)
  {
    var sorted := SortByScore(recs);
    top := Take(sorted, MAX_RECOMMENDATIONS);
    SameMembers(recs, sorted);
    PrefixDominates(sorted, MAX_RECOMMENDATIONS);
    if Distinct(recs) {
      DistinctPermutation(recs, sorted);
    }
  }

  // ---------------------------------------------------------------------
  // Collaborative and content-based filtering
  // ---------------------------------------------------------------------

  /** The generators' `new TrackRecommendation(track, score, type)` loops. */
  method NewRecommendations(ts: seq<Track>, scores: seq<real>, kind: RecommendationType)
    returns (recs: seq<TrackRecommendation>)
    requires |scores| == |ts|
    ensures |recs| == |ts| && Distinct(recs)
    ensures forall k :: 0 <= k < |ts| ==>
      fresh(recs[k]) && recs[k].track == ts[k] && recs[k].score == scores[k] && recs[k].kind == kind
  {
    recs := [];
    var i := 0;
    while i < |ts|
      invariant 0 <= i <= |ts| && |recs| == i && Distinct(recs)
      invariant forall k :: 0 <= k < i ==>
        fresh(recs[k]) && recs[k].track == ts[k] && recs[k].score == scores[k] && recs[k].kind == kind
    {
      var rec := new TrackRecommendation(ts[i], scores[i], kind);
      recs := recs + [rec];
      i := i + 1;
    }
  }

  function Exceeds(score: Track -> real, threshold: real): Track -> bool {
    (t: Track) => score(t) > threshold
  }

  /** The candidate loop both filters share: a fresh recommendation of the
      given type for each candidate, in order, whose score exceeds the
      threshold, carrying that score. The source scores and creates in one
      pass; here the passing candidates are picked first and then turned
      into recommendations, which yields the same list. */
  method RecommendAbove(candidates: seq<Track>, score: Track -> real, threshold: real, kind: RecommendationType)
    returns (recs: seq<TrackRecommendation>)
    ensures Tracks(recs) == Filter(candidates, Exceeds(score, threshold))
    ensures IdScores(recs) == Map(Filter(candidates, Exceeds(score, threshold)), IdScoreBy(score))
    ensures Distinct(recs)
    ensures forall k :: 0 <= k < |recs| ==>
      fresh(recs[k]) && recs[k].kind == kind && recs[k].track in candidates
      && recs[k].score == score(recs[k].track) && recs[k].score > threshold
  {
    var passing := Filter(candidates, Exceeds(score, threshold));
    recs := NewRecommendations(passing, Map(passing, score), kind);
    forall k | 0 <= k < |recs|
      ensures recs[k].track in candidates && recs[k].score == score(recs[k].track) && recs[k].score > threshold
    {
      assert recs[k].track == passing[k] && passing[k] in passing;
    }
    assert forall k :: 0 <= k < |recs| ==> IdScores(recs)[k] == Map(passing, IdScoreBy(score))[k];
  }

  /** A track as the merge reads it, scored by `score`. */
  function IdScoreBy(score: Track -> real): Track -> IdScore {
    (t: Track) => IdScore(t.spotifyId, score(t))
  }

  /** A candidate's collaborative score. */
  function CollaborativeScoreOf(similar: seq<string>, m: Matrix): Track -> real {
    (t: Track) => CollaborativeScore(t.spotifyId, similar, m)
  }

  lemma {:induction false} MatrixOfUsers(es: seq<RatingEntry>, u: string)
    requires u in MatrixOf(es)
    ensures exists k :: 0 <= k < |es| && es[k].userId == u
  {
    var t := es[..|es| - 1];
    if es[|es| - 1].userId != u {
      MatrixOfUsers(t, u);
      var k :| 0 <= k < |t| && t[k].userId == u;
      assert es[k] == t[k];
    }
  }

  /** With only the target's own interactions the matrix has no other user,
      so nobody is similar to the target. */
  lemma OwnInteractionsNoSimilar(userId: string, interactions: seq<UserTrackInteraction>, similar: seq<string>,
                                 pearson: Pearson)
    requires forall k :: 0 <= k < |interactions| ==> interactions[k].userId == userId
    requires forall u :: u in similar <==> IsSimilarUser(userId, u, MatrixOf(Entries(interactions)), pearson)
    ensures similar == []
  {
    var es := Entries(interactions);
    if similar != [] {
      var u := similar[0];
      assert u in similar;
      MatrixOfUsers(es, u);
    }
  }

  /** `collaborativeFiltering`: nothing without interactions; otherwise a
      `FOR_YOU` recommendation for each candidate, in order, whose
      collaborative score among the similar users is positive. */
  method CollaborativeFiltering(userId: string, candidates: seq<Track>, interactions: seq<UserTrackInteraction>,
                                pearson: Pearson, ghost es: seq<RatingEntry>)
    returns (recs: seq<TrackRecommendation>, ghost similar: seq<string>)
    requires es == Entries(interactions)
    ensures interactions == [] ==> recs == []
    ensures forall u :: u in similar <==> IsSimilarUser(userId, u, MatrixOf(es), pearson)
    ensures interactions != [] ==>
      Tracks(recs) == Filter(candidates, Exceeds(CollaborativeScoreOf(similar, MatrixOf(es)), 0.0))
    ensures forall k :: 0 <= k < |recs| ==>
      fresh(recs[k]) && recs[k].kind == FOR_YOU && recs[k].track in candidates && recs[k].score > 0.0
      && recs[k].score == CollaborativeScore(recs[k].track.spotifyId, similar, MatrixOf(es))
    ensures Distinct(recs)
    ensures (forall k :: 0 <= k < |interactions| ==> interactions[k].userId == userId) ==> recs == []
    ensures interactions != [] ==> IdScores(recs) == CollaborativeIdScores(candidates, MatrixOf(es), similar)
  {
    var matrix := BuildUserItemMatrix(interactions);
    var sim := FindSimilarUsers(userId, matrix, pearson);
    similar := sim;
    if forall k :: 0 <= k < |interactions| ==> interactions[k].userId == userId {
      OwnInteractionsNoSimilar(userId, interactions, sim, pearson);
    }
    if |interactions| == 0 {
      return [], similar;
    }
    recs := RecommendAbove(candidates, CollaborativeScoreOf(sim, matrix), 0.0, FOR_YOU);
  }

  /** What collaborative filtering hands to the merge when there are
      interactions: the id and collaborative score of each candidate, in
      order, whose score among the `similar` users of the matrix is
      positive. */
  function CollaborativeIdScores(candidates: seq<Track>, m: Matrix, similar: seq<string>): seq<IdScore> {
    var score := CollaborativeScoreOf(similar, m);
    Map(Filter(candidates, Exceeds(score, 0.0)), IdScoreBy(score))
  }

  /** A candidate's cosine similarity to the profile. */
  function SimilarityTo(profile: seq<real>, sqrt: real -> real): Track -> real
    requires |profile| == 9 && IsSqrt(sqrt)
  {
    (t: Track) => Cosine(profile, FeatureVector(t), sqrt)
  }

  /** Recommendations scored by the similarity to the liked tracks' profile
      carry the cosine similarity and are what the merge expects. */
  lemma ContentScored(recs: seq<TrackRecommendation>, liked: seq<Track>, candidates: seq<Track>,
                      sqrt: real -> real, similarity: Track -> real)
    requires liked != [] && IsSqrt(sqrt)
    requires similarity == SimilarityTo(FeatureProfile(liked), sqrt)
    requires forall k :: 0 <= k < |recs| ==> recs[k].score == similarity(recs[k].track)
    requires IdScores(recs) == Map(Filter(candidates, Exceeds(similarity, SIMILARITY_THRESHOLD)), IdScoreBy(similarity))
    ensures forall k :: 0 <= k < |recs| ==>
      recs[k].score == Cosine(FeatureProfile(liked), FeatureVector(recs[k].track), sqrt)
    ensures IdScores(recs) == ContentIdScores(liked, candidates, sqrt)
  {
    var vector := FeatureProfile(liked);
    forall k | 0 <= k < |recs|
      ensures recs[k].score == Cosine(vector, FeatureVector(recs[k].track), sqrt)
    {
      assert similarity(recs[k].track) == Cosine(vector, FeatureVector(recs[k].track), sqrt);
    }
  }

  /** `contentBasedFiltering`: nothing without liked tracks; otherwise a
      `FOR_YOU` recommendation for each candidate, in order, whose feature
      vector is more than 0.7 cosine-similar to the average liked one, scored
      by that similarity. */
  method ContentBasedFiltering(liked: seq<Track>, candidates: seq<Track>, sqrt: real -> real)
    returns (recs: seq<TrackRecommendation>)
    requires IsSqrt(sqrt)
    ensures liked == [] ==> recs == []
    ensures liked != [] ==> Tracks(recs) == Filter(candidates, Exceeds(SimilarityTo(FeatureProfile(liked), sqrt), SIMILARITY_THRESHOLD))
    ensures forall k :: 0 <= k < |recs| ==>
      fresh(recs[k]) && recs[k].kind == FOR_YOU && recs[k].track in candidates && recs[k].score > SIMILARITY_THRESHOLD
    ensures forall k :: 0 <= k < |recs| ==>
      recs[k].score == Cosine(FeatureProfile(liked), FeatureVector(recs[k].track), sqrt)
    ensures Distinct(recs)
    ensures IdScores(recs) == ContentIdScores(liked, candidates, sqrt)
  {
    if |liked| == 0 {
      return [];
    }
    var profile := CalculateUserFeatureProfile(liked);
    var similarity := SimilarityTo(profile[..], sqrt);
    assert similarity == SimilarityTo(FeatureProfile(liked), sqrt);
    recs := RecommendAbove(candidates, similarity, SIMILARITY_THRESHOLD, FOR_YOU);
    ContentScored(recs, liked, candidates, sqrt, similarity);
  }

  /** What content-based filtering hands to the merge: nothing without
      liked tracks, else the id and similarity of each candidate, in order,
      more than 0.7 similar to the liked tracks' profile. */
  ghost function ContentIdScores(liked: seq<Track>, candidates: seq<Track>, sqrt: real -> real): seq<IdScore>
    requires IsSqrt(sqrt)
  {
    if liked == [] then []
    else
      var score := SimilarityTo(FeatureProfile(liked), sqrt);
      Map(Filter(candidates, Exceeds(score, SIMILARITY_THRESHOLD)), IdScoreBy(score))
  }

  // ---------------------------------------------------------------------
  // The four generators
  // ---------------------------------------------------------------------

  /** The two filtering passes "For You" and "Hybrid" both start with:
      collaborative filtering over the user's own interactions and
      content-based filtering over the user's liked tracks. Between them
      no recommendation repeats, and each is new, of type `FOR_YOU` and of a
      candidate. */
  method FilterBoth(user: User, candidates: seq<Track>, pearson: Pearson, sqrt: real -> real)
    returns (collab: seq<TrackRecommendation>, content: seq<TrackRecommendation>, ghost similar: seq<string>)
    requires AllRated(user.trackInteractions) && IsSqrt(sqrt)
    ensures Distinct(collab + content)
    ensures forall r :: r in collab + content ==> fresh(r) && r.kind == FOR_YOU && r.track in candidates
    ensures forall u :: u in similar <==> old(IsSimilarUser(user.spotifyUserId, u, UserMatrix(user), pearson))
    ensures IdScores(collab) == old(CollaborativePart(user, candidates, similar))
    ensures IdScores(content) == old(ContentIdScores(user.GetLikedTracks(), candidates, sqrt))
  {
    var liked := user.GetLikedTracks();
    collab, similar := UserCollaborative(user, candidates, pearson);
    ghost var cs := IdScores(collab);
    label beforeContent:
    content := ContentBasedFiltering(liked, candidates, sqrt);
    assert IdScores(collab) == cs;
    forall i, j | 0 <= i < |collab| && 0 <= j < |content| ensures collab[i] != content[j] {
      assert allocated(collab[i]) && fresh@beforeContent(content[j]);
    }
    DistinctJoin(collab, content);
    forall r | r in collab + content ensures fresh(r) && r.kind == FOR_YOU && r.track in candidates {
      if r in collab {
        var k :| 0 <= k < |collab| && collab[k] == r;
      } else {
        var k :| 0 <= k < |content| && content[k] == r;
      }
    }
  }

  /** Collaborative filtering over the user's own interactions. */
  method UserCollaborative(user: User, candidates: seq<Track>, pearson: Pearson)
    returns (collab: seq<TrackRecommendation>, ghost similar: seq<string>)
    ensures Distinct(collab)
    ensures forall k :: 0 <= k < |collab| ==> fresh(collab[k]) && collab[k].kind == FOR_YOU && collab[k].track in candidates
    ensures forall u :: u in similar <==> old(IsSimilarUser(user.spotifyUserId, u, UserMatrix(user), pearson))
    ensures IdScores(collab) == old(CollaborativePart(user, candidates, similar))
  {
    collab, similar := CollaborativeFiltering(user.spotifyUserId, candidates, user.trackInteractions, pearson,
                                              Entries(user.trackInteractions));
  }

  /** The user's own ratings as the user-item matrix. */
  function UserMatrix(user: User): Matrix
    reads user, set x | x in user.trackInteractions
  {
    MatrixOf(Entries(user.trackInteractions))
  }

  /** The collaborative half of the merge: nothing without interactions. */
  function CollaborativePart(user: User, candidates: seq<Track>, similar: seq<string>): seq<IdScore>
    reads user, set x | x in user.trackInteractions
  {
    if user.trackInteractions == [] then [] else CollaborativeIdScores(candidates, UserMatrix(user), similar)
  }

  /** The merged score of every track id the two passes recommend. */
  ghost function BlendedScores(user: User, candidates: seq<Track>, similar: seq<string>, sqrt: real -> real)
    : map<string, real>
    reads user, set x | x in user.trackInteractions
    requires AllRated(user.trackInteractions) && IsSqrt(sqrt)
  {
    CombinedScores(CollaborativePart(user, candidates, similar), ContentIdScores(user.GetLikedTracks(), candidates, sqrt))
  }

  /** The two passes merged by track: every recommendation is new, of type
      `FOR_YOU`, of a candidate, and of a different track; the track ids
      are those of `BlendedScores` and each carries its merged score. */
  method BlendedCandidates(user: User, candidates: seq<Track>, pearson: Pearson, sqrt: real -> real)
    returns (combined: seq<TrackRecommendation>, ghost similar: seq<string>)
    requires AllRated(user.trackInteractions) && IsSqrt(sqrt)
    ensures Distinct(combined) && DistinctTracks(combined)
    ensures forall r :: r in combined ==> fresh(r) && r.kind == FOR_YOU && r.track in candidates
    ensures forall u :: u in similar <==> old(IsSimilarUser(user.spotifyUserId, u, UserMatrix(user), pearson))
    ensures RecIds(combined) == old(BlendedScores(user, candidates, similar, sqrt)).Keys
    ensures forall k :: 0 <= k < |combined| ==>
      combined[k].score == old(BlendedScores(user, candidates, similar, sqrt))[combined[k].track.spotifyId]
  {
    var collab, content;
    collab, content, similar := FilterBoth(user, candidates, pearson, sqrt);
    assert forall r :: (r in collab || r in content) ==> r in collab + content;
    combined := CombineRecommendations(collab, content);
  }

  /** The score a generator leaves on a track of the list `ts` whose first
      score was `base`: popularity normalisation with `weight`, then, unless
      `target` is `None`, diversity injection towards `target`. */
  function GeneratedScore(t: Track, ts: seq<Track>, base: real, weight: real, target: Option<real>,
                          sqrt: real -> real): real
    requires |ts| > 0 && forall x :: x >= 0.0 ==> sqrt(x) >= 0.0
  {
    var normalized := NormalizedScoreOf(t, ts, base, weight, sqrt);
    if target.Some? then Injected(normalized, TrackDiversity(t, ts), target.value) else normalized
  }

  /** The scores `ss` of the tracks `ts` are the generated scores of their
      base scores. */
  predicate PoolScored(ts: seq<Track>, ss: seq<real>, base: Track -> real, weight: real, target: Option<real>,
                       sqrt: real -> real)
    requires forall x :: x >= 0.0 ==> sqrt(x) >= 0.0
  {
    |ss| == |ts| && forall k :: 0 <= k < |ts| ==> ss[k] == GeneratedScore(ts[k], ts, base(ts[k]), weight, target, sqrt)
  }

  /** A merged track's score, looked up by its id. */
  function ScoreIn(m: map<string, real>): Track -> real {
    (t: Track) => if t.spotifyId in m then m[t.spotifyId] else 0.0
  }

  function NoveltyOf(noveltyPreference: real): Track -> real {
    (t: Track) => NoveltyScore(t, noveltyPreference)
  }

  function ExplorationOf(p: Profile): Track -> real {
    (t: Track) => ExplorationScore(t, p)
  }

  function ExperimentalPick(p: Profile): Track -> bool {
    (t: Track) => IsExperimentalCandidate(t, p)
  }

  /** From the first scores `ss0 == Map(ts, base)` to the generated ones. */
  lemma PoolScoredFrom(ts: seq<Track>, ss0: seq<real>, ss: seq<real>, base: Track -> real, weight: real,
                       target: Option<real>, sqrt: real -> real)
    requires forall x :: x >= 0.0 ==> sqrt(x) >= 0.0
    requires ss0 == Map(ts, base) && |ss| == |ts|
    requires forall k :: 0 <= k < |ts| ==> ss[k] == GeneratedScore(ts[k], ts, ss0[k], weight, target, sqrt)
    ensures PoolScored(ts, ss, base, weight, target, sqrt)
  {
  }

  /** The scoring steps of every generator: popularity normalisation with
      `weight`, then diversity injection towards `target` when there is one.
      The first scores are `base` of each track. */
  method GenerationScores(recs: seq<TrackRecommendation>, ghost base: Track -> real, weight: real,
                          target: Option<real>, sqrt: real -> real)
    requires Distinct(recs) && IsSqrt(sqrt)
    requires Scores(recs) == Map(Tracks(recs), base)
    modifies (set r | r in recs)`score, (set r | r in recs)`popularityBiasScore, (set r | r in recs)`diversityScore
    ensures PoolScored(Tracks(recs), Scores(recs), base, weight, target, sqrt)
  {
    if target.Some? {
      InjectedScores(recs, base, weight, target.value, sqrt);
    } else {
      NormalizedScores(recs, base, weight, sqrt);
    }
  }

  /** Normalisation alone (the "For You" pass). */
  method NormalizedScores(recs: seq<TrackRecommendation>, ghost base: Track -> real, weight: real, sqrt: real -> real)
    requires Distinct(recs) && IsSqrt(sqrt)
    requires Scores(recs) == Map(Tracks(recs), base)
    modifies (set r | r in recs)`score, (set r | r in recs)`popularityBiasScore
    ensures PoolScored(Tracks(recs), Scores(recs), base, weight, None, sqrt)
  {
    ghost var s0 := Scores(recs);
    ApplyPopularityNormalization(recs, weight, sqrt);
    forall k | 0 <= k < |recs|
      ensures Scores(recs)[k] == GeneratedScore(recs[k].track, Tracks(recs), s0[k], weight, None, sqrt)
    {
      NormalizedEntryOf(recs[k].track, Tracks(recs), old(recs[k].score), old(recs[k].popularityBiasScore),
                        recs[k].score, recs[k].popularityBiasScore, weight, sqrt);
    }
    PoolScoredFrom(Tracks(recs), s0, Scores(recs), base, weight, None, sqrt);
  }

  /** Normalisation, then injection towards `target`. */
  method InjectedScores(recs: seq<TrackRecommendation>, ghost base: Track -> real, weight: real, target: real,
                        sqrt: real -> real)
    requires Distinct(recs) && IsSqrt(sqrt)
    requires Scores(recs) == Map(Tracks(recs), base)
    modifies (set r | r in recs)`score, (set r | r in recs)`popularityBiasScore, (set r | r in recs)`diversityScore
    ensures PoolScored(Tracks(recs), Scores(recs), base, weight, Some(target), sqrt)
  {
    ghost var s0 := Scores(recs);
    NormalizeAndInject(recs, weight, target, sqrt);
    forall k | 0 <= k < |recs|
      ensures Scores(recs)[k] == GeneratedScore(recs[k].track, Tracks(recs), s0[k], weight, Some(target), sqrt)
    {
    }
    PoolScoredFrom(Tracks(recs), s0, Scores(recs), base, weight, Some(target), sqrt);
  }

  /** The last steps of every generator: the scoring steps, then the best
      50 by score. */
  method GenerationRank(recs: seq<TrackRecommendation>, ghost base: Track -> real, weight: real,
                        target: Option<real>, sqrt: real -> real)
    returns (top: seq<TrackRecommendation>)
    requires Distinct(recs) && IsSqrt(sqrt)
    requires Scores(recs) == Map(Tracks(recs), base)
    modifies (set r | r in recs)`score, (set r | r in recs)`popularityBiasScore, (set r | r in recs)`diversityScore
    ensures PoolScored(Tracks(recs), Scores(recs), base, weight, target, sqrt)
    ensures top == Take(Map(SortDesc(Snapshot(recs), ScoreKey), RecOf), MAX_RECOMMENDATIONS)
    ensures IsTopByScore(recs, top) && Distinct(top)
  {
    GenerationScores(recs, base, weight, target, sqrt);
    top := RankTop(recs);
  }

  /** The niche and experimental generators, given the tracks they score:
      a fresh recommendation of `kind` for each, scored by `base`, then
      normalised, injected and cut to the best 50. `pool` is the scored list
      before the cut. */
  method ScoredPool(ts: seq<Track>, base: Track -> real, kind: RecommendationType, weight: real, target: real,
                    sqrt: real -> real)
    returns (recs: seq<TrackRecommendation>, ghost pool: seq<TrackRecommendation>)
    requires IsSqrt(sqrt)
    ensures Tracks(pool) == ts
    ensures Distinct(pool) && forall r :: r in pool ==> fresh(r) && r.kind == kind
    ensures PoolScored(Tracks(pool), Scores(pool), base, weight, Some(target), sqrt)
    ensures recs == Take(Map(SortDesc(Snapshot(pool), ScoreKey), RecOf), MAX_RECOMMENDATIONS)
    ensures IsTopByScore(pool, recs) && Distinct(recs)
  {
    var made := NewRecommendations(ts, Map(ts, base), kind);
    pool := made;
    assert Tracks(pool) == ts;
    recs := GenerationRank(made, base, weight, Some(target), sqrt);
  }

  /** The "For You" and hybrid generators: the blended candidates,
      normalised with `weight`, injected towards `target` when there is one,
      and cut to the best 50. `pool` is the blended list before the cut. */
  method BlendedPoolRank(user: User, candidates: seq<Track>, pearson: Pearson, weight: real, target: Option<real>,
                         sqrt: real -> real)
    returns (recs: seq<TrackRecommendation>, ghost pool: seq<TrackRecommendation>, ghost similar: seq<string>)
    requires AllRated(user.trackInteractions) && IsSqrt(sqrt)
    ensures Distinct(pool) && DistinctTracks(pool)
    ensures forall r :: r in pool ==> fresh(r) && r.kind == FOR_YOU && r.track in candidates
    ensures forall u :: u in similar <==> old(IsSimilarUser(user.spotifyUserId, u, UserMatrix(user), pearson))
    ensures RecIds(pool) == old(BlendedScores(user, candidates, similar, sqrt)).Keys
    ensures PoolScored(Tracks(pool), Scores(pool), ScoreIn(old(BlendedScores(user, candidates, similar, sqrt))),
                       weight, target, sqrt)
    ensures recs == Take(Map(SortDesc(Snapshot(pool), ScoreKey), RecOf), MAX_RECOMMENDATIONS)
    ensures IsTopByScore(pool, recs) && Distinct(recs)
  {
    var combined;
    combined, similar := BlendedCandidates(user, candidates, pearson, sqrt);
    pool := combined;
    ghost var m := old(BlendedScores(user, candidates, similar, sqrt));
    forall k | 0 <= k < |combined| ensures Scores(combined)[k] == Map(Tracks(combined), ScoreIn(m))[k] {
      assert combined[k] in combined;
    }
    recs := GenerationRank(combined, ScoreIn(m), weight, target, sqrt);
  }

  /** `generateForYouRecommendations`: the blended candidates under a light
      (0.2) popularity normalisation and no diversity injection, best 50
      first. `pool` is the blended list before the cut. */
  method ForYouRecommendations(user: User, candidates: seq<Track>, pearson: Pearson, sqrt: real -> real)
    returns (recs: seq<TrackRecommendation>, ghost pool: seq<TrackRecommendation>, ghost similar: seq<string>)
    requires AllRated(user.trackInteractions) && IsSqrt(sqrt)
    ensures Distinct(pool) && DistinctTracks(pool)
    ensures forall r :: r in pool ==> fresh(r) && r.kind == FOR_YOU && r.track in candidates
    ensures forall u :: u in similar <==> old(IsSimilarUser(user.spotifyUserId, u, UserMatrix(user), pearson))
    ensures RecIds(pool) == old(BlendedScores(user, candidates, similar, sqrt)).Keys
    ensures PoolScored(Tracks(pool), Scores(pool), ScoreIn(old(BlendedScores(user, candidates, similar, sqrt))), 0.2, None, sqrt)
    ensures recs == Take(Map(SortDesc(Snapshot(pool), ScoreKey), RecOf), MAX_RECOMMENDATIONS)
    ensures IsTopByScore(pool, recs) && Distinct(recs)
  {
    recs, pool, similar := BlendedPoolRank(user, candidates, pearson, 0.2, None, sqrt);
  }

  /** `generateNewNicheRecommendations`: every niche candidate scored by
      its novelty for this user, under a strong (0.8) popularity
      normalisation and a 0.6 diversity injection, best 50 first. `pool`
      is the scored niche list before the cut. */
  method NewNicheRecommendations(user: User, candidates: seq<Track>, sqrt: real -> real)
    returns (recs: seq<TrackRecommendation>, ghost pool: seq<TrackRecommendation>)
    requires IsSqrt(sqrt)
    ensures Tracks(pool) == Filter(candidates, IsNicheCandidate)
    ensures Distinct(pool) && forall r :: r in pool ==> fresh(r) && r.kind == NEW_NICHE
    ensures PoolScored(Tracks(pool), Scores(pool), old(NoveltyOf(user.noveltyPreference)), 0.8, Some(0.6), sqrt)
    ensures recs == Take(Map(SortDesc(Snapshot(pool), ScoreKey), RecOf), MAX_RECOMMENDATIONS)
    ensures IsTopByScore(pool, recs) && Distinct(recs)
  {
    var niche := Filter(candidates, IsNicheCandidate);
    recs, pool := ScoredPool(niche, NoveltyOf(user.noveltyPreference), NEW_NICHE, 0.8, 0.6, sqrt);
  }

  /** `generateExperimentalRecommendations`: every candidate outside the
      user's comfort zone scored by its exploration score, under the full
      (1.0) popularity normalisation and a 0.8 diversity injection, best 50
      first. `pool` is the scored list before the cut. */
  method ExperimentalRecommendations(user: User, candidates: seq<Track>, sqrt: real -> real)
    returns (recs: seq<TrackRecommendation>, ghost pool: seq<TrackRecommendation>)
    requires IsSqrt(sqrt)
    ensures Tracks(pool) == Filter(candidates, old(ExperimentalPick(ProfileOf(user))))
    ensures Distinct(pool) && forall r :: r in pool ==> fresh(r) && r.kind == EXPERIMENTAL
    ensures PoolScored(Tracks(pool), Scores(pool), old(ExplorationOf(ProfileOf(user))), 1.0, Some(0.8), sqrt)
    ensures recs == Take(Map(SortDesc(Snapshot(pool), ScoreKey), RecOf), MAX_RECOMMENDATIONS)
    ensures IsTopByScore(pool, recs) && Distinct(recs)
  {
    var p := ProfileOf(user);
    var experimental := Filter(candidates, ExperimentalPick(p));
    recs, pool := ScoredPool(experimental, ExplorationOf(p), EXPERIMENTAL, 1.0, 0.8, sqrt);
  }

  /** `generateHybridRecommendations`: the blended candidates under the
      0.3 popularity normalisation and a 0.4 diversity injection, best 50
      first. `pool` is the blended list before the cut. */
  method HybridRecommendations(user: User, candidates: seq<Track>, pearson: Pearson, sqrt: real -> real)
    returns (recs: seq<TrackRecommendation>, ghost pool: seq<TrackRecommendation>, ghost similar: seq<string>)
    requires AllRated(user.trackInteractions) && IsSqrt(sqrt)
    ensures Distinct(pool) && DistinctTracks(pool)
    ensures forall r :: r in pool ==> fresh(r) && r.kind == FOR_YOU && r.track in candidates
    ensures forall u :: u in similar <==> old(IsSimilarUser(user.spotifyUserId, u, UserMatrix(user), pearson))
    ensures RecIds(pool) == old(BlendedScores(user, candidates, similar, sqrt)).Keys
    ensures PoolScored(Tracks(pool), Scores(pool), ScoreIn(old(BlendedScores(user, candidates, similar, sqrt))),
                       DEBIASING_WEIGHT, Some(0.4), sqrt)
    ensures recs == Take(Map(SortDesc(Snapshot(pool), ScoreKey), RecOf), MAX_RECOMMENDATIONS)
    ensures IsTopByScore(pool, recs) && Distinct(recs)
  {
    recs, pool, similar := BlendedPoolRank(user, candidates, pearson, DEBIASING_WEIGHT, Some(0.4), sqrt);
  }

  // ---------------------------------------------------------------------
  // Final ranking and the entry point
  // ---------------------------------------------------------------------

  /** The random choices exploration makes, given up front: the
      `Math.random()` draw compared with epsilon, the `Collections.shuffle`
      order for a list of each length, the boost factors of the epsilon
      pass and the Beta samples of the Thompson pass. */
  datatype Randomness = Randomness(draw: real, shuffle: nat -> seq<nat>, boost: nat -> real, sample: nat -> real)

  ghost predicate ValidRandomness(rng: Randomness) {
    (forall n: nat :: IsShuffle(rng.shuffle(n), n))
    && (forall i: nat :: 0.0 <= rng.boost(i) < 1.0)
    && (forall i: nat :: 0.0 <= rng.sample(i) <= 1.0)
  }

  /** The boost factors the epsilon pass reads for a list of `n`. */
  function Boosts(rng: Randomness, n: nat): (r: seq<real>)
    ensures |r| == MinI(5, n)
  {
    seq(MinI(5, n), i requires 0 <= i => rng.boost(i))
  }

  /** The Beta samples the Thompson pass reads for a list of `n`. */
  function Samples(rng: Randomness, n: nat): (r: seq<real>)
    ensures |r| == n
  {
    seq(n, i requires 0 <= i => rng.sample(i))
  }

  /** What the scoring half of `applyFinalRanking` does to the scores `s0`
      and explanations `x0` of the tracks `ts`: context weights turn `s0`
      into `w`; with an exploration level above 0.5 exploration then turns
      `w` into `s` as `Explored` says (through `e` and `x`), and otherwise
      the weighted scores and the old explanations stay. */
  predicate FinalScored(s0: seq<real>, x0: seq<string>, ts: seq<Track>,
                        mood: Option<Mood>, activity: Option<Activity>, time: Option<TimeOfDay>,
                        level: real, rng: Randomness,
                        w: seq<real>, e: seq<real>, x: seq<string>, s: seq<real>, xs: seq<string>)
  {
    && |s0| == |ts| && |w| == |ts|
    && (forall k :: 0 <= k < |ts| ==> ContextWeighted(s0[k], w[k], ts[k], mood, activity, time))
    && (level <= 0.5 ==> s == w && xs == x0)
    && (level > 0.5 ==>
          Explored(w, x0, ts, mood, activity, time, level, rng.draw, rng.shuffle(|ts|),
                   Boosts(rng, |ts|), Samples(rng, |ts|), e, x, s, xs))
  }

  /** `applyFinalRanking`: context weights, then exploration when the
      user's exploration level exceeds 0.5, then the best 50 by score. It
      fails (`ok` is false) exactly when exploration runs over a non-empty
      list without a complete context. The scores and explanations end as
      `FinalScored` says, and no non-negative score goes down. */
  method ApplyFinalRanking(recs: seq<TrackRecommendation>, user: User, rng: Randomness)
    returns (top: seq<TrackRecommendation>, ok: bool, ghost w: seq<real>, ghost e: seq<real>, ghost x: seq<string>)
    requires Distinct(recs) && ValidRandomness(rng)
    modifies (set r | r in recs)`score, (set r | r in recs)`explanation
    ensures ok <==> user.explorationLevel <= 0.5 || |recs| == 0
                    || HasFullContext(user.currentMood, user.currentActivity, user.timeOfDay)
    ensures FinalScored(old(Scores(recs)), old(Explanations(recs)), Tracks(recs),
                        user.currentMood, user.currentActivity, user.timeOfDay, user.explorationLevel, rng,
                        w, e, x, Scores(recs), Explanations(recs))
    ensures NeverLower(old(Scores(recs)), Scores(recs))
    ensures !ok ==> top == []
    ensures ok ==> top == Take(Map(SortDesc(Snapshot(recs), ScoreKey), RecOf), MAX_RECOMMENDATIONS)
    ensures ok ==> IsTopByScore(recs, top) && Distinct(top)
  {
    ok, w, e, x := WeightAndExplore(recs, user, rng);
    if !ok {
      return [], false, w, e, x;
    }
    top := RankTop(recs);
  }

  /** The scoring half of `applyFinalRanking`: context weights, then
      exploration when the user's exploration level exceeds 0.5. */
  method WeightAndExplore(recs: seq<TrackRecommendation>, user: User, rng: Randomness)
    returns (ok: bool, ghost w: seq<real>, ghost e: seq<real>, ghost x: seq<string>)
    requires Distinct(recs) && ValidRandomness(rng)
    modifies (set r | r in recs)`score, (set r | r in recs)`explanation
    ensures ok <==> user.explorationLevel <= 0.5 || |recs| == 0
                    || HasFullContext(user.currentMood, user.currentActivity, user.timeOfDay)
    ensures FinalScored(old(Scores(recs)), old(Explanations(recs)), Tracks(recs),
                        user.currentMood, user.currentActivity, user.timeOfDay, user.explorationLevel, rng,
                        w, e, x, Scores(recs), Explanations(recs))
    ensures NeverLower(old(Scores(recs)), Scores(recs))
  {
    ghost var s0, x0 := Scores(recs), Explanations(recs);
    var weighted := ApplyContextWeights(recs, user);
    w := Scores(recs);
    assert Explanations(recs) == x0;
    forall k | 0 <= k < |recs| ensures s0[k] >= 0.0 ==> w[k] >= s0[k] {
      ContextWeightedNeverLower(s0[k], w[k], recs[k].track, user.currentMood, user.currentActivity, user.timeOfDay);
    }
    assert NeverLower(s0, w);
    ok, e, x := true, w, x0;
    if user.explorationLevel > 0.5 {
      var n := |weighted|;
      weighted, ok, e, x := ApplyExploration(weighted, user, rng.draw, rng.shuffle(n), Boosts(rng, n), Samples(rng, n));
      NeverLowerTransitive(s0, w, Scores(recs));
    }
  }

  /** The type of the recommendations a request produces: "Hybrid" is
      assembled from the "For You" filters and keeps their type. */
  function GeneratedKind(kind: RecommendationType): (r: RecommendationType)
    ensures r != HYBRID
    ensures kind != HYBRID ==> r == kind
  {
    if kind == HYBRID then FOR_YOU else kind
  }

  /** The popularity normalisation weight of each generator. */
  function GenerationWeight(kind: RecommendationType): real {
    match kind
    case FOR_YOU => 0.2
    case NEW_NICHE => 0.8
    case EXPERIMENTAL => 1.0
    case HYBRID => DEBIASING_WEIGHT
  }

  /** The diversity target of each generator; "For You" injects none. */
  function GenerationTarget(kind: RecommendationType): Option<real> {
    match kind
    case FOR_YOU => None
    case NEW_NICHE => Some(0.6)
    case EXPERIMENTAL => Some(0.8)
    case HYBRID => Some(0.4)
  }

  /** The first score each generator gives a track. */
  ghost function GenerationBase(kind: RecommendationType, user: User, candidates: seq<Track>, similar: seq<string>,
                                sqrt: real -> real): Track -> real
    reads user, set x | x in user.trackInteractions
    requires AllRated(user.trackInteractions) && IsSqrt(sqrt)
  {
    match kind
    case NEW_NICHE => NoveltyOf(user.noveltyPreference)
    case EXPERIMENTAL => ExplorationOf(ProfileOf(user))
    case _ => ScoreIn(BlendedScores(user, candidates, similar, sqrt))
  }

  /** The ids of some tracks. */
  function TrackIds(ts: seq<Track>): set<string> {
    set t | t in ts :: t.spotifyId
  }

  /** No two of the tracks share an id. */
  predicate UniqueTrackIds(ts: seq<Track>) {
    forall i, j :: 0 <= i < j < |ts| ==> ts[i].spotifyId != ts[j].spotifyId
  }

  lemma TracksIds(recs: seq<TrackRecommendation>)
    ensures RecIds(recs) == TrackIds(Tracks(recs))
    ensures DistinctTracks(recs) <==> UniqueTrackIds(Tracks(recs))
  {
    var ts := Tracks(recs);
    forall id | id in TrackIds(ts) ensures id in RecIds(recs) {
      var k :| 0 <= k < |ts| && ts[k].spotifyId == id;
      assert recs[k] in recs;
    }
    forall id | id in RecIds(recs) ensures id in TrackIds(ts) {
      var r :| r in recs && r.track.spotifyId == id;
      var k :| 0 <= k < |recs| && recs[k] == r;
      assert ts[k] in ts;
    }
  }

  /** What a generator leaves in its scored pool: the tracks `ts` it scores
      and the scores `ss` it gives them. */
  ghost predicate GeneratedPool(kind: RecommendationType, user: User, candidates: seq<Track>, similar: seq<string>,
                                pearson: Pearson, sqrt: real -> real, ts: seq<Track>, ss: seq<real>)
    reads user, set x | x in user.trackInteractions
    requires AllRated(user.trackInteractions) && IsSqrt(sqrt)
  {
    && PoolTracks(kind, user, candidates, similar, pearson, sqrt, ts)
    && PoolScored(ts, ss, GenerationBase(kind, user, candidates, similar, sqrt),
                  GenerationWeight(kind), GenerationTarget(kind), sqrt)
  }

  /** Which tracks `ts` each generator scores: the niche candidates, the
      experimental ones, or one per track id of the merge. */
  ghost predicate PoolTracks(kind: RecommendationType, user: User, candidates: seq<Track>, similar: seq<string>,
                             pearson: Pearson, sqrt: real -> real, ts: seq<Track>)
    reads user, set x | x in user.trackInteractions
    requires AllRated(user.trackInteractions) && IsSqrt(sqrt)
  {
    match kind
    case NEW_NICHE => ts == Filter(candidates, IsNicheCandidate)
    case EXPERIMENTAL => ts == Filter(candidates, ExperimentalPick(ProfileOf(user)))
    case _ =>
      && UniqueTrackIds(ts)
      && TrackIds(ts) == BlendedScores(user, candidates, similar, sqrt).Keys
      && forall u :: u in similar <==> IsSimilarUser(user.spotifyUserId, u, UserMatrix(user), pearson)
  }

  /** `generateRecommendations`: the candidates the user has not liked go to
      the generator of the requested type, whose list passes the final
      ranking. The call fails (`ok` is false) when an interaction has no
      rating, since reading the liked tracks then throws, and when the final
      ranking fails; otherwise at most 50 distinct, new recommendations of
      not-yet-liked candidates come back, best first, all of the type the
      generator produces. With every interaction rated, `pool` is the
      generator's scored list as it was before its cut to 50 (which
      `PoolTracks` and `PoolScored` describe); the generated list is that
      cut, `gx` its explanations then; its scores and explanations then end
      as `FinalScored` says, and the result is the best 50 of it by the
      final scores. The user is read as it was on entry; the method changes
      no object that existed then. */
  method GenerateRecommendations(user: User, candidates: seq<Track>, kind: RecommendationType,
                                 pearson: Pearson, sqrt: real -> real, rng: Randomness)
    returns (recs: seq<TrackRecommendation>, ok: bool, ghost pool: seq<Scored>, ghost similar: seq<string>,
             ghost gx: seq<string>, ghost w: seq<real>, ghost e: seq<real>, ghost x: seq<string>)
    requires IsSqrt(sqrt) && ValidRandomness(rng)
    ensures ok ==> old(AllRated(user.trackInteractions))
    ensures !ok ==> recs == []
    ensures old(AllRated(user.trackInteractions)) && !ok ==>
      old(user.explorationLevel > 0.5 && !HasFullContext(user.currentMood, user.currentActivity, user.timeOfDay))
    ensures ok ==> |recs| <= MAX_RECOMMENDATIONS && Distinct(recs) && SortedByScore(recs)
    ensures ok ==> forall r :: r in recs ==>
      fresh(r) && r.kind == GeneratedKind(kind) && r.track in old(UnlikedCandidates(candidates, user.GetLikedTracks()))
    ensures old(AllRated(user.trackInteractions)) ==>
      var filtered := old(UnlikedCandidates(candidates, user.GetLikedTracks()));
      && var ts := Tracks(Map(pool, RecOf));
      && old(PoolTracks(kind, user, filtered, similar, pearson, sqrt, ts))
      && PoolScored(Tracks(Map(pool, RecOf)), Map(pool, ScoreKey), old(GenerationBase(kind, user, filtered, similar, sqrt)),
                    GenerationWeight(kind), GenerationTarget(kind), sqrt)
    ensures old(AllRated(user.trackInteractions)) ==>
      var cut := Take(SortDesc(pool, ScoreKey), MAX_RECOMMENDATIONS);
      var generated := Map(cut, RecOf);
      && FinalScored(Map(cut, ScoreKey), gx, Tracks(generated),
                     old(user.currentMood), old(user.currentActivity), old(user.timeOfDay), old(user.explorationLevel), rng,
                     w, e, x, Scores(generated), Explanations(generated))
      && (ok ==> recs == Take(Map(SortDesc(Snapshot(generated), ScoreKey), RecOf), MAX_RECOMMENDATIONS)
                 && IsTopByScore(generated, recs))
  {
    if !AllRated(user.trackInteractions) {
      return [], false, [], [], [], [], [], [];
    }
    var filtered := UnlikedCandidates(candidates, user.GetLikedTracks());
    recs, ok, pool, similar, gx, w, e, x := GenerateAndRank(user, filtered, kind, pearson, sqrt, rng);
  }

  /** `generateRecommendations` once the liked tracks are read: generation
      over the filtered candidates, then the final ranking of the cut. */
  method GenerateAndRank(user: User, candidates: seq<Track>, kind: RecommendationType,
                         pearson: Pearson, sqrt: real -> real, rng: Randomness)
    returns (recs: seq<TrackRecommendation>, ok: bool, ghost pool: seq<Scored>, ghost similar: seq<string>,
             ghost gx: seq<string>, ghost w: seq<real>, ghost e: seq<real>, ghost x: seq<string>)
    requires AllRated(user.trackInteractions) && IsSqrt(sqrt) && ValidRandomness(rng)
    ensures !ok ==> recs == []
    ensures !ok ==> old(user.explorationLevel > 0.5 && !HasFullContext(user.currentMood, user.currentActivity, user.timeOfDay))
    ensures ok ==> |recs| <= MAX_RECOMMENDATIONS && Distinct(recs) && SortedByScore(recs)
    ensures ok ==> forall r :: r in recs ==> fresh(r) && r.kind == GeneratedKind(kind) && r.track in candidates
    ensures var ts, ss := Tracks(Map(pool, RecOf)), Map(pool, ScoreKey);
      old(GeneratedPool(kind, user, candidates, similar, pearson, sqrt, ts, ss))
    ensures var cut := Take(SortDesc(pool, ScoreKey), MAX_RECOMMENDATIONS);
      var generated := Map(cut, RecOf);
      && FinalScored(Map(cut, ScoreKey), gx, Tracks(generated),
                     old(user.currentMood), old(user.currentActivity), old(user.timeOfDay), old(user.explorationLevel), rng,
                     w, e, x, Scores(generated), Explanations(generated))
      && (ok ==> recs == Take(Map(SortDesc(Snapshot(generated), ScoreKey), RecOf), MAX_RECOMMENDATIONS)
                 && IsTopByScore(generated, recs))
  {
    var generated;
    generated, pool, similar := GenerateCut(user, candidates, kind, pearson, sqrt);
    recs, ok, gx, w, e, x := RankCut(generated, Take(SortDesc(pool, ScoreKey), MAX_RECOMMENDATIONS), user, rng);
  }

  /** The final ranking of a generated list `generated`, whose generation-
      time recommendations and scores are those of `cut`. */
  method RankCut(generated: seq<TrackRecommendation>, ghost cut: seq<Scored>, user: User, rng: Randomness)
    returns (recs: seq<TrackRecommendation>, ok: bool, ghost gx: seq<string>, ghost w: seq<real>, ghost e: seq<real>,
             ghost x: seq<string>)
    requires Distinct(generated) && ValidRandomness(rng)
    requires Map(cut, RecOf) == generated && Map(cut, ScoreKey) == Scores(generated)
    modifies (set r | r in generated)`score, (set r | r in generated)`explanation
    ensures !ok ==> recs == []
    ensures !ok ==> user.explorationLevel > 0.5 && !HasFullContext(user.currentMood, user.currentActivity, user.timeOfDay)
    ensures ok ==> |recs| <= MAX_RECOMMENDATIONS && Distinct(recs) && SortedByScore(recs)
    ensures ok ==> forall r :: r in recs ==> r in generated
    ensures gx == old(Explanations(generated))
    ensures FinalScored(Map(cut, ScoreKey), gx, Tracks(generated),
                        user.currentMood, user.currentActivity, user.timeOfDay, user.explorationLevel, rng,
                        w, e, x, Scores(generated), Explanations(generated))
    ensures ok ==> recs == Take(Map(SortDesc(Snapshot(generated), ScoreKey), RecOf), MAX_RECOMMENDATIONS)
                   && IsTopByScore(generated, recs)
  {
    gx := Explanations(generated);
    recs, ok, w, e, x := ApplyFinalRanking(generated, user, rng);
    if ok {
      TopOfScores(generated, recs);
    }
  }

  /** What a best-50 list is by itself: short, sorted, drawn from the list. */
  lemma TopOfScores(recs: seq<TrackRecommendation>, top: seq<TrackRecommendation>)
    requires IsTopByScore(recs, top)
    ensures |top| <= MAX_RECOMMENDATIONS && SortedByScore(top)
    ensures forall r :: r in top ==> r in recs
  {
  }

  /** The generation half of `generateRecommendations`: the generated list
      is the cut of the generator's scored `pool`, taken here as a snapshot
      of recommendations and scores. */
  method GenerateCut(user: User, candidates: seq<Track>, kind: RecommendationType, pearson: Pearson,
                     sqrt: real -> real)
    returns (generated: seq<TrackRecommendation>, ghost pool: seq<Scored>, ghost similar: seq<string>)
    requires AllRated(user.trackInteractions) && IsSqrt(sqrt)
    ensures var ts, ss := Tracks(Map(pool, RecOf)), Map(pool, ScoreKey);
      old(GeneratedPool(kind, user, candidates, similar, pearson, sqrt, ts, ss))
    ensures var cut := Take(SortDesc(pool, ScoreKey), MAX_RECOMMENDATIONS);
      Map(cut, RecOf) == generated && Map(cut, ScoreKey) == Scores(generated)
    ensures Distinct(generated)
    ensures forall r :: r in generated ==> fresh(r) && r.kind == GeneratedKind(kind) && r.track in candidates
  {
    ghost var recs;
    generated, recs, similar := Generate(user, candidates, kind, pearson, sqrt);
    pool := Snapshot(recs);
    CutScores(recs, generated);
    SnapshotParts(recs);
  }

  /** The generation-time view of a cut: the recommendations of the sorted
      snapshot's prefix are the cut list, and its scores are theirs. */
  lemma CutScores(pool: seq<TrackRecommendation>, generated: seq<TrackRecommendation>)
    requires generated == Take(Map(SortDesc(Snapshot(pool), ScoreKey), RecOf), MAX_RECOMMENDATIONS)
    ensures var cut := Take(SortDesc(Snapshot(pool), ScoreKey), MAX_RECOMMENDATIONS);
      Map(cut, RecOf) == generated && Map(cut, ScoreKey) == Scores(generated)
  {
    SortedUpToDate(pool);
    UpToDateCut(SortDesc(Snapshot(pool), ScoreKey), generated);
  }

  /** The prefix of a list of up-to-date entries carries the current
      scores of its recommendations. */
  lemma UpToDateCut(sorted: seq<Scored>, generated: seq<TrackRecommendation>)
    requires forall k :: 0 <= k < |sorted| ==> UpToDate(sorted[k])
    requires generated == Take(Map(sorted, RecOf), MAX_RECOMMENDATIONS)
    ensures var cut := Take(sorted, MAX_RECOMMENDATIONS);
      Map(cut, RecOf) == generated && Map(cut, ScoreKey) == Scores(generated)
  {
    var cut := Take(sorted, MAX_RECOMMENDATIONS);
    forall k | 0 <= k < |cut| ensures cut[k].rec == generated[k] && cut[k].score == generated[k].score {
      assert cut[k] == sorted[k];
    }
  }

  /** A snapshot holds the list's recommendations and their scores. */
  lemma SnapshotParts(pool: seq<TrackRecommendation>)
    ensures Map(Snapshot(pool), RecOf) == pool && Map(Snapshot(pool), ScoreKey) == Scores(pool)
  {
  }

  /** The `switch` on the requested type: the generated list is the best 50
      of the generator's scored `pool`. */
  method Generate(user: User, candidates: seq<Track>, kind: RecommendationType, pearson: Pearson, sqrt: real -> real)
    returns (generated: seq<TrackRecommendation>, ghost pool: seq<TrackRecommendation>, ghost similar: seq<string>)
    requires AllRated(user.trackInteractions) && IsSqrt(sqrt)
    ensures Distinct(pool) && forall r :: r in pool ==> fresh(r) && r.kind == GeneratedKind(kind)
    ensures var ts := Tracks(pool); old(PoolTracks(kind, user, candidates, similar, pearson, sqrt, ts))
    ensures PoolScored(Tracks(pool), Scores(pool), old(GenerationBase(kind, user, candidates, similar, sqrt)),
                       GenerationWeight(kind), GenerationTarget(kind), sqrt)
    ensures generated == Take(Map(SortDesc(Snapshot(pool), ScoreKey), RecOf), MAX_RECOMMENDATIONS)
    ensures IsTopByScore(pool, generated) && Distinct(generated)
    ensures forall r :: r in generated ==> fresh(r) && r.kind == GeneratedKind(kind) && r.track in candidates
  {
    match kind {
      case FOR_YOU =>
        generated, pool, similar := ForYouRecommendations(user, candidates, pearson, sqrt);
        TracksIds(pool);
      case NEW_NICHE =>
        generated, pool := NewNicheRecommendations(user, candidates, sqrt);
        similar := [];
      case EXPERIMENTAL =>
        generated, pool := ExperimentalRecommendations(user, candidates, sqrt);
        similar := [];
      case HYBRID =>
        generated, pool, similar := HybridRecommendations(user, candidates, pearson, sqrt);
        TracksIds(pool);
    }
  }
}
