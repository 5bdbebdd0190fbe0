/** The Java `DebiasingEngine`: passes that rewrite the scores of a list of
    recommendations in place (popularity normalisation, diversity
    injection, fairness constraints, adversarial boosts), a comprehensive
    pass that runs all four and sorts by score, and list-level bias
    metrics. The list is a sequence of distinct recommendation objects; each
    pass changes the score fields of its elements and never the list. */
module DebiasingEngine {
  import opened Common
  import opened TrackModel
  import opened Recommendation

  function TrackOfRec(r: TrackRecommendation): Track { r.track }

  /** The tracks of a recommendation list, in list order. */
  function Tracks(recs: seq<TrackRecommendation>): (ts: seq<Track>)
    ensures |ts| == |recs|
    ensures forall k :: 0 <= k < |recs| ==> ts[k] == recs[k].track
  {
    Map(recs, TrackOfRec)
  }

  /** The scores of a list of recommendations. */
  function Scores(recs: seq<TrackRecommendation>): (r: seq<real>)
    reads set x | x in recs
    ensures |r| == |recs|
    ensures forall k :: 0 <= k < |recs| ==> r[k] == recs[k].score
  {
    if recs == [] then [] else Scores(recs[..|recs| - 1]) + [recs[|recs| - 1].score]
  }

  // ---------------------------------------------------------------------
  // Popularity normalisation
  // ---------------------------------------------------------------------

  /** The popularities that are present, in list order: the values fed to
      the statistics object. */
  function PresentPops(ts: seq<Track>): (r: seq<real>)
    ensures |r| <= |ts|
    ensures |r| == 0 <==> forall k :: 0 <= k < |ts| ==> ts[k].spotifyPopularity.None?
  {
    if ts == [] then []
    else
      assert forall k :: 1 <= k < |ts| ==> ts[1..][k - 1] == ts[k];
      (if ts[0].spotifyPopularity.Some? then [ts[0].spotifyPopularity.value as real] else [])
      + PresentPops(ts[1..])
  }

  /** The bias-corrected sample variance, sum of squared deviations over n-1. */
  function SampleVariance(xs: seq<real>): (v: real)
    requires |xs| > 1
    ensures v >= 0.0
  {
    SquaredDeviationsNonNeg(xs, Mean(xs));
    SumOf(xs, SquaredDeviation(Mean(xs))) / (|xs| - 1) as real
  }

  /** The squared distance from `m`. */
  function SquaredDeviation(m: real): real -> real {
    (x: real) => (x - m) * (x - m)
  }

  lemma SquaredDeviationsNonNeg(xs: seq<real>, m: real)
    ensures SumOf(xs, SquaredDeviation(m)) >= 0.0
  {
    forall x | x in xs ensures SquaredDeviation(m)(x) >= 0.0 {
      SquareNonNeg(x - m);
    }
    SumOfNonNeg(xs, SquaredDeviation(m));
  }

  lemma SquareNonNeg(d: real)
    ensures d * d >= 0.0
  {
    if d >= 0.0 {
      MulMonotone(0.0, d, d);
    } else {
      MulMonotone(d, 0.0, -d);
    }
  }

  /** `getStandardDeviation()`: 0 for a single value, otherwise the square
      root of the sample variance. The square root is a parameter. */
  function StdDev(xs: seq<real>, sqrt: real -> real): (s: real)
    requires |xs| > 0
    requires forall x :: x >= 0.0 ==> sqrt(x) >= 0.0
    ensures s >= 0.0
  {
    if |xs| == 1 then 0.0 else sqrt(SampleVariance(xs))
  }

  /** Normalised popularity: one minus the z-score, clamped into [0,1]. */
  function NormalizedPopularity(p: real, mean: real, std: real): (r: real)
    requires std >= 0.0
    ensures 0.0 <= r <= 1.0
  {
    Clamp01(1.0 - (p - mean) / (std + 0.00000001))
  }

  /** A less popular track never gets a lower normalised popularity. */
  lemma NormalizedPopularityAntitone(p: real, q: real, mean: real, std: real)
    requires std >= 0.0 && p <= q
    ensures NormalizedPopularity(p, mean, std) >= NormalizedPopularity(q, mean, std)
  {
    var d := std + 0.00000001;
    assert (p - mean) / d <= (q - mean) / d by {
      assert (q - mean) / d - (p - mean) / d == (q - p) / d;
    }
  }

  /** The popularity bias score: the normalised popularity times the weight. */
  function PopularityBias(p: real, mean: real, std: real, w: real): (b: real)
    requires std >= 0.0
    ensures w >= 0.0 ==> 0.0 <= b <= w
  {
    NormalizedPopularity(p, mean, std) * w
  }

  /** The score after normalisation: a weight-w blend of the old score and
      the bias score. */
  function NormalizedScore(score: real, bias: real, w: real): real {
    score * (1.0 - w) + bias * w
  }

  /** With a weight in [0,1], old score and bias in [0,1], the new score
      stays in [0,1]. */
  lemma NormalizedScoreInUnit(score: real, bias: real, w: real)
    requires 0.0 <= w <= 1.0 && 0.0 <= score <= 1.0 && 0.0 <= bias <= 1.0
    ensures 0.0 <= NormalizedScore(score, bias, w) <= 1.0
  {
    var v := 1.0 - w;
    var a := score * v;
    var b := bias * w;
    ScaleUnit(score, v);
    ScaleUnit(bias, w);
    assert 0.0 <= a <= v;
    assert 0.0 <= b <= w;
    AddBounds(a, b, v, w);
  }

  /** What normalisation does to one recommendation: with a popularity it
      gets the bias score and the blended score, without one nothing changes. */
  predicate NormalizedEntry(t: Track, oldScore: real, oldBias: real, score: real, bias: real,
                            mean: real, std: real, w: real)
    requires std >= 0.0
  {
    if t.spotifyPopularity.Some? then
      bias == PopularityBias(t.spotifyPopularity.value as real, mean, std, w)
      && score == NormalizedScore(oldScore, bias, w)
    else
      bias == oldBias && score == oldScore
  }

  /** The loop of `applyPopularityNormalization`, given the statistics. */
  method NormalizeEach(recs: seq<TrackRecommendation>, mean: real, std: real, weight: real)
    requires Distinct(recs) && std >= 0.0
    modifies (set r | r in recs)`score, (set r | r in recs)`popularityBiasScore
    ensures forall k :: 0 <= k < |recs| ==>
      NormalizedEntry(recs[k].track, old(recs[k].score), old(recs[k].popularityBiasScore),
                      recs[k].score, recs[k].popularityBiasScore, mean, std, weight)
  {
    var i := 0;
    while i < |recs|
      invariant 0 <= i <= |recs|
      invariant forall k :: 0 <= k < i ==>
        NormalizedEntry(recs[k].track, old(recs[k].score), old(recs[k].popularityBiasScore),
                        recs[k].score, recs[k].popularityBiasScore, mean, std, weight)
      invariant forall k :: i <= k < |recs| ==>
        recs[k].popularityBiasScore == old(recs[k].popularityBiasScore) && recs[k].score == old(recs[k].score)
    {
      var rec := recs[i];
      if rec.track.spotifyPopularity.Some? {
        var biasScore := PopularityBias(rec.track.spotifyPopularity.value as real, mean, std, weight);
        rec.SetPopularityBiasScore(biasScore);
        rec.SetScore(rec.score * (1.0 - weight) + biasScore * weight);
      }
      i := i + 1;
    }
  }

  /** `applyPopularityNormalization`. The list is returned untouched when it
      is empty or has no popularity at all; otherwise every recommendation
      with a popularity gets a bias score and a blended score, computed from
      the mean and standard deviation of the present popularities, and the
      others are left as they were. */
  method ApplyPopularityNormalization(recs: seq<TrackRecommendation>, weight: real, sqrt: real -> real)
    requires Distinct(recs)
    requires forall x :: x >= 0.0 ==> sqrt(x) >= 0.0
    modifies (set r | r in recs)`score, (set r | r in recs)`popularityBiasScore
    ensures var pops := PresentPops(Tracks(recs));
      |pops| > 0 ==> forall k :: 0 <= k < |recs| ==>
        NormalizedEntry(recs[k].track, old(recs[k].score), old(recs[k].popularityBiasScore),
                        recs[k].score, recs[k].popularityBiasScore, Mean(pops), StdDev(pops, sqrt), weight)
    ensures |PresentPops(Tracks(recs))| == 0 ==> forall k :: 0 <= k < |recs| ==>
      recs[k].popularityBiasScore == old(recs[k].popularityBiasScore) && recs[k].score == old(recs[k].score)
  {
    if |recs| == 0 {
      return;
    }
    var pops := PresentPops(Tracks(recs));
    if |pops| == 0 {
      return;
    }
    var meanPopularity := Mean(pops);
    var stdPopularity := StdDev(pops, sqrt);
    NormalizeEach(recs, meanPopularity, stdPopularity, weight);
  }

  // ---------------------------------------------------------------------
  // Diversity injection
  // ---------------------------------------------------------------------

  /** Size of the `groupingBy(artist)` group of artist `a`. */
  function ArtistCount(ts: seq<Track>, a: string): (n: nat)
    ensures n <= |ts|
  {
    CountOf(ts, (t: Track) => t.artist == a)
  }

  /** Size of the `groupingBy(genre)` group of genre `g`. */
  function GenreCount(ts: seq<Track>, g: string): (n: nat)
    ensures n <= |ts|
  {
    CountOf(ts, (t: Track) => t.genre == Some(g))
  }

  /** The engine's `calculateDiversityScore` for track `t` of list `ts`:
      artist rarity 0.6·(1 − share), genre rarity 0.4·(1 − share) when the
      genre is known, 0.2 for an independent artist, 0.3·novelty, capped at
      1. The group look-ups always succeed because `t` is in the list. */
  function TrackDiversity(t: Track, ts: seq<Track>): (d: real)
    requires |ts| > 0
    ensures d <= 1.0
    ensures t.noveltyScore.None? || t.noveltyScore.value >= 0.0 ==> d >= 0.0
  {
    var n := |ts| as real;
    var d0 := 0.0;
    var d1 := d0 + (1.0 - ArtistCount(ts, t.artist) as real / n) * 0.6;
    var d2 := if t.genre.Some? then d1 + (1.0 - GenreCount(ts, t.genre.value) as real / n) * 0.4 else d1;
    var d3 := if t.isIndependent == Some(true) then d2 + 0.2 else d2;
    var d4 := if t.noveltyScore.Some? then d3 + t.noveltyScore.value * 0.3 else d3;
    ShareAtMostOne(ArtistCount(ts, t.artist), |ts|);
    ShareAtMostOne(GenreCount(ts, t.genre.GetOr("")), |ts|);
    MinR(1.0, d4)
  }

  lemma ShareAtMostOne(c: nat, n: nat)
    requires 0 < n && c <= n
    ensures 0.0 <= c as real / n as real <= 1.0
  {
  }

  /** A track whose artist appears once and whose genre is unknown, with no
      other bonus, gets exactly 0.6·(1 − 1/n). */
  lemma TrackDiversitySingleArtist(t: Track, ts: seq<Track>)
    requires |ts| > 0 && ArtistCount(ts, t.artist) == 1
    requires t.genre.None? && t.isIndependent != Some(true) && t.noveltyScore.None?
    ensures TrackDiversity(t, ts) == (1.0 - 1.0 / |ts| as real) * 0.6
  {
  }

  /** `applyDiversityInjection`: each recommendation records its diversity
      and gains diversity·target on its score. */
  method ApplyDiversityInjection(recs: seq<TrackRecommendation>, targetDiversity: real)
    requires Distinct(recs)
    modifies (set r | r in recs)`score, (set r | r in recs)`diversityScore
    ensures forall k :: 0 <= k < |recs| ==>
      var d := TrackDiversity(recs[k].track, Tracks(recs));
      recs[k].diversityScore == d && recs[k].score == old(recs[k].score) + d * targetDiversity
  {
    if |recs| == 0 {
      return;
    }
    var ds := Diversities(Tracks(recs));
    InjectAll(recs, ds, targetDiversity);
  }

  /** The loop of `applyDiversityInjection`, given every recommendation's
      diversity `ds[k]`. */
  method InjectAll(recs: seq<TrackRecommendation>, ds: seq<real>, targetDiversity: real)
    requires Distinct(recs) && |ds| == |recs|
    modifies (set r | r in recs)`score, (set r | r in recs)`diversityScore
    ensures forall k :: 0 <= k < |recs| ==>
      recs[k].diversityScore == ds[k] && recs[k].score == Injected(old(recs[k].score), ds[k], targetDiversity)
  {
    ghost var s0 := seq(|recs|, k requires 0 <= k < |recs| reads recs => recs[k].score);
    var i := 0;
    while i < |recs|
      invariant 0 <= i <= |recs|
      invariant forall k :: 0 <= k < i ==>
        recs[k].diversityScore == ds[k] && recs[k].score == Injected(s0[k], ds[k], targetDiversity)
      invariant forall k :: i <= k < |recs| ==> recs[k].score == s0[k]
    {
      assert forall k :: 0 <= k < |recs| && k != i ==> recs[k] != recs[i];
      InjectOne(recs[i], ds[i], targetDiversity);
      i := i + 1;
    }
  }

  /** A score raised by a diversity times the target diversity. */
  function Injected(score: real, d: real, targetDiversity: real): real {
    score + d * targetDiversity
  }

  /** Each track's diversity within the whole list. */
  function Diversities(ts: seq<Track>): (ds: seq<real>)
    requires |ts| > 0
    ensures |ds| == |ts|
    ensures forall k :: 0 <= k < |ts| ==> ds[k] == TrackDiversity(ts[k], ts)
  {
    seq(|ts|, k requires 0 <= k < |ts| => TrackDiversity(ts[k], ts))
  }

  /** The loop body of `applyDiversityInjection` for one recommendation. */
  method InjectOne(rec: TrackRecommendation, d: real, targetDiversity: real)
    modifies rec`score, rec`diversityScore
    ensures rec.diversityScore == d && rec.score == Injected(old(rec.score), d, targetDiversity)
  {
    rec.SetDiversityScore(d);
    rec.SetScore(rec.score + d * targetDiversity);
  }

  // ---------------------------------------------------------------------
  // Fairness constraints
  // ---------------------------------------------------------------------

  function Artists(ts: seq<Track>): (r: seq<string>)
    ensures |r| == |ts|
    ensures forall k :: 0 <= k < |ts| ==> r[k] == ts[k].artist
  {
    Map(ts, (t: Track) => t.artist)
  }

  /** `idealPerArtist`: tracks per distinct artist. */
  function IdealPerArtist(ts: seq<Track>): (ideal: real)
    requires |ts| > 0
    ensures 1.0 <= ideal <= |ts| as real
  {
    ElemsCard(Artists(ts));
    var m := |Elems(Artists(ts))|;
    ShareAtMostOne(m, |ts|);
    IdealBounds(|ts|, m);
    |ts| as real / m as real
  }

  lemma IdealBounds(n: nat, m: nat)
    requires 0 < m <= n
    ensures 1.0 <= n as real / m as real <= n as real
  {
    AverageArith(m as real, n as real, 1.0, n as real);
    assert m as real * 1.0 <= n as real;
    MulMonotone(1.0, m as real, n as real);
  }

  predicate OverRepresented(count: real, ideal: real, threshold: real) {
    count > ideal * (1.0 + threshold)
  }

  predicate UnderRepresented(count: real, ideal: real, threshold: real) {
    count < ideal * (1.0 - threshold)
  }

  /** The penalty of an over-represented artist: 0.3 per ideal share of excess. */
  function Penalized(score: real, count: real, ideal: real): real
    requires ideal > 0.0
  {
    score * (1.0 - (count - ideal) / ideal * 0.3)
  }

  /** The boost of an under-represented artist: 0.2 per ideal share of deficit. */
  function Boosted(score: real, count: real, ideal: real): real
    requires ideal > 0.0
  {
    score * (1.0 + (ideal - count) / ideal * 0.2)
  }

  /** The two sequential adjustments of `applyFairnessConstraints` for one
      recommendation whose artist occurs `count` times. */
  function FairScore(score: real, count: real, ideal: real, threshold: real): real
    requires ideal > 0.0
  {
    var s1 := if OverRepresented(count, ideal, threshold) then Penalized(score, count, ideal) else score;
    if UnderRepresented(count, ideal, threshold) then Boosted(s1, count, ideal) else s1
  }

  /** With a non-negative threshold and score, an over-represented artist's
      score never rises, an under-represented one's never falls, and every
      other score is unchanged. */
  lemma FairScoreDirection(score: real, count: real, ideal: real, threshold: real)
    requires ideal > 0.0 && threshold >= 0.0 && score >= 0.0
    ensures count > ideal * (1.0 + threshold) ==> FairScore(score, count, ideal, threshold) <= score
    ensures count < ideal * (1.0 - threshold) ==> FairScore(score, count, ideal, threshold) >= score
    ensures ideal * (1.0 - threshold) <= count <= ideal * (1.0 + threshold) ==>
      FairScore(score, count, ideal, threshold) == score
  {
    if count > ideal * (1.0 + threshold) {
      assert (count - ideal) / ideal >= 0.0;
      assert score * ((count - ideal) / ideal * 0.3) >= 0.0;
    }
    if count < ideal * (1.0 - threshold) {
      assert (ideal - count) / ideal >= 0.0;
      assert score * ((ideal - count) / ideal * 0.2) >= 0.0;
    }
  }

  /** The loop of `applyFairnessConstraints`, given the ideal share. */
  method AdjustEach(recs: seq<TrackRecommendation>, ideal: real, threshold: real)
    requires Distinct(recs) && ideal > 0.0
    modifies (set r | r in recs)`score
    ensures forall k :: 0 <= k < |recs| ==>
      recs[k].score == FairScore(old(recs[k].score), ArtistCount(Tracks(recs), recs[k].track.artist) as real, ideal, threshold)
  {
    var ts := Tracks(recs);
    var i := 0;
    while i < |recs|
      invariant 0 <= i <= |recs|
      invariant forall k :: 0 <= k < i ==>
        recs[k].score == FairScore(old(recs[k].score), ArtistCount(ts, recs[k].track.artist) as real, ideal, threshold)
      invariant forall k :: i <= k < |recs| ==> recs[k].score == old(recs[k].score)
    {
      var rec := recs[i];
      var artistCount := ArtistCount(ts, rec.track.artist) as real;
      if OverRepresented(artistCount, ideal, threshold) {
        rec.SetScore(Penalized(rec.score, artistCount, ideal));
      }
      if UnderRepresented(artistCount, ideal, threshold) {
        rec.SetScore(Boosted(rec.score, artistCount, ideal));
      }
      i := i + 1;
    }
  }

  /** `applyFairnessConstraints`: over- and under-represented artists have
      their scores scaled against the ideal number of tracks per artist. */
  method ApplyFairnessConstraints(recs: seq<TrackRecommendation>, threshold: real)
    requires Distinct(recs)
    modifies (set r | r in recs)`score
    ensures |recs| > 0 ==> forall k :: 0 <= k < |recs| ==>
      recs[k].score == FairScore(old(recs[k].score), ArtistCount(Tracks(recs), recs[k].track.artist) as real,
                                 IdealPerArtist(Tracks(recs)), threshold)
  {
    if |recs| == 0 {
      return;
    }
    var idealPerArtist := IdealPerArtist(Tracks(recs));
    AdjustEach(recs, idealPerArtist, threshold);
  }

  // ---------------------------------------------------------------------
  // Adversarial debiasing
  // ---------------------------------------------------------------------

  datatype BiasPattern = HIGH_POPULARITY_BIAS | ARTIST_CONCENTRATION_BIAS | GENRE_CONCENTRATION_BIAS

  function PopOrZero(t: Track): real {
    if t.spotifyPopularity.Some? then t.spotifyPopularity.value as real else 0.0
  }

  /** Mean popularity with a missing one counted as 0, or 0 for no track. */
  function MeanPopularity(ts: seq<Track>): real {
    if |ts| == 0 then 0.0 else SumOf(ts, PopOrZero) / |ts| as real
  }

  /** The largest artist group among the tracks of `ts`, counted in `all`;
      0 for no track. */
  function MaxArtistCount(ts: seq<Track>, all: seq<Track>): (m: nat)
    ensures forall k :: 0 <= k < |ts| ==> ArtistCount(all, ts[k].artist) <= m
    ensures |ts| > 0 ==> exists k :: 0 <= k < |ts| && ArtistCount(all, ts[k].artist) == m
    ensures |ts| == 0 ==> m == 0
  {
    if ts == [] then 0
    else
      var rest := MaxArtistCount(ts[..|ts| - 1], all);
      var last := ArtistCount(all, ts[|ts| - 1].artist);
      assert forall k :: 0 <= k < |ts| - 1 ==> ts[..|ts| - 1][k] == ts[k];
      MaxI(rest, last)
  }

  /** The largest genre group among the tracks of `ts` that have a genre,
      counted in `all`; 0 when none has one. */
  function MaxGenreCount(ts: seq<Track>, all: seq<Track>): (m: nat)
    ensures forall k :: 0 <= k < |ts| && ts[k].genre.Some? ==> GenreCount(all, ts[k].genre.value) <= m
    ensures m > 0 ==> exists k :: 0 <= k < |ts| && ts[k].genre.Some? && GenreCount(all, ts[k].genre.value) == m
  {
    if ts == [] then 0
    else
      var rest := MaxGenreCount(ts[..|ts| - 1], all);
      var t := ts[|ts| - 1];
      var last := if t.genre.Some? then GenreCount(all, t.genre.value) else 0;
      assert forall k :: 0 <= k < |ts| - 1 ==> ts[..|ts| - 1][k] == ts[k];
      MaxI(rest, last)
  }

  predicate HasGenre(t: Track) { t.genre.Some? }

  /** Some artist holds more than 30% of the tracks. */
  predicate ArtistConcentrated(ts: seq<Track>) {
    MaxArtistCount(ts, ts) as real > |ts| as real * 0.3
  }

  /** Some track has a genre, and some genre holds more than half of the
      tracks. */
  predicate GenreConcentrated(ts: seq<Track>) {
    CountOf(ts, HasGenre) > 0 && MaxGenreCount(ts, ts) as real > |ts| as real * 0.5
  }

  /** The patterns whose flags are set, in the fixed order popularity,
      artist, genre. */
  function PatternList(popular: bool, artist: bool, genre: bool): seq<BiasPattern> {
    (if popular then [HIGH_POPULARITY_BIAS] else [])
    + (if artist then [ARTIST_CONCENTRATION_BIAS] else [])
    + (if genre then [GENRE_CONCENTRATION_BIAS] else [])
  }

  /** `identifyBiasPatterns`. The genre check is made only when some track
      has a genre. */
  function IdentifyBiasPatterns(ts: seq<Track>): seq<BiasPattern> {
    PatternList(MeanPopularity(ts) > 70.0, ArtistConcentrated(ts), GenreConcentrated(ts))
  }

  lemma PatternListSpec(popular: bool, artist: bool, genre: bool)
    ensures var ps := PatternList(popular, artist, genre);
      (HIGH_POPULARITY_BIAS in ps <==> popular)
      && (ARTIST_CONCENTRATION_BIAS in ps <==> artist)
      && (GENRE_CONCENTRATION_BIAS in ps <==> genre)
      && Distinct(ps)
  {
  }

  lemma ArtistConcentratedSpec(ts: seq<Track>)
    ensures ArtistConcentrated(ts) <==>
      exists k :: 0 <= k < |ts| && ArtistCount(ts, ts[k].artist) as real > |ts| as real * 0.3
  {
  }

  lemma GenreConcentratedSpec(ts: seq<Track>)
    ensures GenreConcentrated(ts) <==>
      exists k :: 0 <= k < |ts| && ts[k].genre.Some? && GenreCount(ts, ts[k].genre.value) as real > |ts| as real * 0.5
  {
    var m := MaxGenreCount(ts, ts);
    if exists k :: 0 <= k < |ts| && ts[k].genre.Some? && GenreCount(ts, ts[k].genre.value) as real > |ts| as real * 0.5 {
      var k :| 0 <= k < |ts| && ts[k].genre.Some? && GenreCount(ts, ts[k].genre.value) as real > |ts| as real * 0.5;
      CountOfPositive(ts, HasGenre, k);
    }
  }

  /** Each pattern is reported exactly when its condition holds, and at most
      once. */
  lemma IdentifyBiasPatternsSpec(ts: seq<Track>)
    ensures var ps := IdentifyBiasPatterns(ts);
      (HIGH_POPULARITY_BIAS in ps <==> MeanPopularity(ts) > 70.0)
      && (ARTIST_CONCENTRATION_BIAS in ps <==>
          exists k :: 0 <= k < |ts| && ArtistCount(ts, ts[k].artist) as real > |ts| as real * 0.3)
      && (GENRE_CONCENTRATION_BIAS in ps <==>
          exists k :: 0 <= k < |ts| && ts[k].genre.Some? && GenreCount(ts, ts[k].genre.value) as real > |ts| as real * 0.5)
      && Distinct(ps)
  {
    PatternListSpec(MeanPopularity(ts) > 70.0, ArtistConcentrated(ts), GenreConcentrated(ts));
    ArtistConcentratedSpec(ts);
    GenreConcentratedSpec(ts);
  }

  lemma {:induction false} CountOfPositive<T>(s: seq<T>, p: T -> bool, k: int)
    requires 0 <= k < |s| && p(s[k])
    ensures CountOf(s, p) > 0
  {
    if k < |s| - 1 {
      assert s[..|s| - 1][k] == s[k];
      CountOfPositive(s[..|s| - 1], p, k);
    }
  }

  /** The boost one pattern gives a track. */
  function PatternBonus(t: Track, p: BiasPattern): real {
    match p
    case HIGH_POPULARITY_BIAS =>
      if t.spotifyPopularity.Some? && t.spotifyPopularity.value < 50 then 0.3 else 0.0
    case ARTIST_CONCENTRATION_BIAS => 0.2
    case GENRE_CONCENTRATION_BIAS => 0.2
  }

  function Bonuses(t: Track, ps: seq<BiasPattern>): real {
    SumOf(ps, (p: BiasPattern) => PatternBonus(t, p))
  }

  /** `calculateAdversarialScore`: the bonuses of the patterns, summed in a loop. */
  method CalculateAdversarialScore(t: Track, patterns: seq<BiasPattern>) returns (score: real)
    ensures score == Bonuses(t, patterns)
  {
    score := 0.0;
    var i := 0;
    while i < |patterns|
      invariant 0 <= i <= |patterns|
      invariant score == Bonuses(t, patterns[..i])
    {
      assert patterns[..i + 1][..i] == patterns[..i];
      score := score + PatternBonus(t, patterns[i]);
      i := i + 1;
    }
    assert patterns[..i] == patterns;
  }

  /** For the patterns of a list: 0.3 when the popularity pattern holds and
      the track's popularity is below 50, plus 0.2 per concentration pattern;
      at most 0.7 in all. */
  lemma AdversarialScoreOfPatterns(t: Track, ts: seq<Track>)
    ensures var ps := IdentifyBiasPatterns(ts);
      Bonuses(t, ps) ==
        (if HIGH_POPULARITY_BIAS in ps && t.spotifyPopularity.Some? && t.spotifyPopularity.value < 50 then 0.3 else 0.0)
        + (if ARTIST_CONCENTRATION_BIAS in ps then 0.2 else 0.0)
        + (if GENRE_CONCENTRATION_BIAS in ps then 0.2 else 0.0)
      && 0.0 <= Bonuses(t, ps) <= 0.7
  {
    PatternListSpec(MeanPopularity(ts) > 70.0, ArtistConcentrated(ts), GenreConcentrated(ts));
    BonusesOfList(t, MeanPopularity(ts) > 70.0, ArtistConcentrated(ts), GenreConcentrated(ts));
  }

  lemma BonusesOfList(t: Track, popular: bool, artist: bool, genre: bool)
    ensures Bonuses(t, PatternList(popular, artist, genre)) ==
      (if popular && t.spotifyPopularity.Some? && t.spotifyPopularity.value < 50 then 0.3 else 0.0)
      + (if artist then 0.2 else 0.0)
      + (if genre then 0.2 else 0.0)
  {
    var a := if popular then [HIGH_POPULARITY_BIAS] else [];
    var b := if artist then [ARTIST_CONCENTRATION_BIAS] else [];
    var c := if genre then [GENRE_CONCENTRATION_BIAS] else [];
    var f := (p: BiasPattern) => PatternBonus(t, p);
    SumOfAppend(a, b, f);
    SumOfAppend(a + b, c, f);
  }

  /** The loop of `applyAdversarialDebiasing`: each score gains the
      adversarial score of its track under the given patterns. */
  method AddAdversarialScores(recs: seq<TrackRecommendation>, patterns: seq<BiasPattern>)
    requires Distinct(recs)
    modifies (set r | r in recs)`score
    ensures forall k :: 0 <= k < |recs| ==> recs[k].score == old(recs[k].score) + Bonuses(recs[k].track, patterns)
  {
    var i := 0;
    while i < |recs|
      invariant 0 <= i <= |recs|
      invariant forall k :: 0 <= k < i ==> recs[k].score == old(recs[k].score) + Bonuses(recs[k].track, patterns)
      invariant forall k :: i <= k < |recs| ==> recs[k].score == old(recs[k].score)
    {
      var rec := recs[i];
      var adversarialScore := CalculateAdversarialScore(rec.track, patterns);
      rec.SetScore(rec.score + adversarialScore);
      i := i + 1;
    }
  }

  /** `applyAdversarialDebiasing`: each score gains its adversarial score
      under the patterns of the whole list. */
  method ApplyAdversarialDebiasing(recs: seq<TrackRecommendation>)
    requires Distinct(recs)
    modifies (set r | r in recs)`score
    ensures forall k :: 0 <= k < |recs| ==>
      recs[k].score == old(recs[k].score) + Bonuses(recs[k].track, IdentifyBiasPatterns(Tracks(recs)))
  {
    if |recs| == 0 {
      return;
    }
    var biasPatterns := IdentifyBiasPatterns(Tracks(recs));
    AddAdversarialScores(recs, biasPatterns);
  }

  // ---------------------------------------------------------------------
  // Comprehensive debiasing and the final sort
  // ---------------------------------------------------------------------

  /** A recommendation paired with its score at the moment of sorting. */
  datatype Scored = Scored(rec: TrackRecommendation, score: real)

  function ScoreKey(p: Scored): real { p.score }
  function RecOf(p: Scored): TrackRecommendation { p.rec }

  function Snapshot(recs: seq<TrackRecommendation>): (r: seq<Scored>)
    reads set x | x in recs
    ensures |r| == |recs|
    ensures forall k :: 0 <= k < |recs| ==> r[k] == Scored(recs[k], recs[k].score)
  {
    if recs == [] then [] else [Scored(recs[0], recs[0].score)] + Snapshot(recs[1..])
  }

  /** `recommendations.sort(Comparator.comparing(getScore).reversed())`:
      the stable descending sort of the current scores. */
  method SortByScore(recs: seq<TrackRecommendation>) returns (sorted: seq<TrackRecommendation>)
    ensures sorted == Map(SortDesc(Snapshot(recs), ScoreKey), RecOf)
    ensures |sorted| == |recs| && multiset(sorted) == multiset(recs)
    ensures forall i, j :: 0 <= i < j < |sorted| ==> sorted[i].score >= sorted[j].score
  {
    sorted := Map(SortDesc(Snapshot(recs), ScoreKey), RecOf);
    SortedSnapshot(recs);
  }

  /** A snapshot entry still holds its recommendation's score. */
  predicate UpToDate(p: Scored)
    reads p.rec
  {
    p.score == p.rec.score
  }

  /** The recommendations behind the sorted snapshot are the same ones,
      in descending order of their current scores. */
  lemma SortedSnapshot(recs: seq<TrackRecommendation>)
    ensures var sorted := Map(SortDesc(Snapshot(recs), ScoreKey), RecOf);
      && multiset(sorted) == multiset(recs)
      && forall i, j :: 0 <= i < j < |sorted| ==> sorted[i].score >= sorted[j].score
  {
    SortedSnapshotPerm(recs);
    SortedSnapshotOrder(recs);
  }

  lemma SnapshotUpToDate(recs: seq<TrackRecommendation>)
    ensures forall x :: x in Snapshot(recs) ==> UpToDate(x)
  {
    var snap := Snapshot(recs);
    forall x | x in snap ensures UpToDate(x) {
      var m :| 0 <= m < |snap| && snap[m] == x;
    }
  }

  /** Sorting a snapshot keeps every entry up to date. */
  lemma SortedUpToDate(recs: seq<TrackRecommendation>)
    ensures var s := SortDesc(Snapshot(recs), ScoreKey);
      forall k :: 0 <= k < |s| ==> UpToDate(s[k])
  {
    var snap := Snapshot(recs);
    SnapshotUpToDate(recs);
    var s := SortDesc(snap, ScoreKey);
    forall k | 0 <= k < |s| ensures UpToDate(s[k]) {
      assert s[k] in multiset(s);
      assert s[k] in multiset(snap);
    }
  }

  lemma SortedSnapshotPerm(recs: seq<TrackRecommendation>)
    ensures multiset(Map(SortDesc(Snapshot(recs), ScoreKey), RecOf)) == multiset(recs)
  {
    var snap := Snapshot(recs);
    SortDescMap(snap, ScoreKey, RecOf);
    assert Map(snap, RecOf) == recs;
  }

  lemma SortedSnapshotOrder(recs: seq<TrackRecommendation>)
    ensures var sorted := Map(SortDesc(Snapshot(recs), ScoreKey), RecOf);
      forall i, j :: 0 <= i < j < |sorted| ==> sorted[i].score >= sorted[j].score
  {
    var snap := Snapshot(recs);
    SnapshotUpToDate(recs);
    var s := SortDesc(snap, ScoreKey);
    SortDescElems(snap, ScoreKey);
    var sorted := Map(s, RecOf);
    forall i, j | 0 <= i < j < |sorted| ensures sorted[i].score >= sorted[j].score {
      assert s[i] in s && s[j] in s;
      assert UpToDate(s[i]) && UpToDate(s[j]);
      assert ScoreKey(s[i]) >= ScoreKey(s[j]);
    }
  }

  /** `applyComprehensiveDebiasing`: the four passes in order, then the
      stable descending sort by score. */
  method ApplyComprehensiveDebiasing(recs: seq<TrackRecommendation>, popularityWeight: real,
                                     diversityWeight: real, fairnessThreshold: real, sqrt: real -> real)
    returns (sorted: seq<TrackRecommendation>)
    requires Distinct(recs)
    requires forall x :: x >= 0.0 ==> sqrt(x) >= 0.0
    modifies (set r | r in recs)`score, (set r | r in recs)`popularityBiasScore, (set r | r in recs)`diversityScore
    ensures forall k :: 0 <= k < |recs| ==>
      recs[k].score == DebiasedScore(recs[k].track, Tracks(recs), old(recs[k].score),
                                     popularityWeight, diversityWeight, fairnessThreshold, sqrt)
    ensures forall k :: 0 <= k < |recs| ==>
      recs[k].popularityBiasScore == NormalizedBiasOf(recs[k].track, Tracks(recs), old(recs[k].popularityBiasScore),
                                                      popularityWeight, sqrt)
    ensures forall k :: 0 <= k < |recs| ==> recs[k].diversityScore == TrackDiversity(recs[k].track, Tracks(recs))
    ensures sorted == Map(SortDesc(Snapshot(recs), ScoreKey), RecOf)
    ensures |sorted| == |recs| && multiset(sorted) == multiset(recs)
    ensures forall i, j :: 0 <= i < j < |sorted| ==> sorted[i].score >= sorted[j].score
  {
    DebiasPasses(recs, popularityWeight, diversityWeight, fairnessThreshold, sqrt);
    sorted := SortByScore(recs);
  }

  /** The four passes of `applyComprehensiveDebiasing`, before its sort. */
  method DebiasPasses(recs: seq<TrackRecommendation>, popularityWeight: real,
                      diversityWeight: real, fairnessThreshold: real, sqrt: real -> real)
    requires Distinct(recs)
    requires forall x :: x >= 0.0 ==> sqrt(x) >= 0.0
    modifies (set r | r in recs)`score, (set r | r in recs)`popularityBiasScore, (set r | r in recs)`diversityScore
    ensures forall k :: 0 <= k < |recs| ==>
      recs[k].score == DebiasedScore(recs[k].track, Tracks(recs), old(recs[k].score),
                                     popularityWeight, diversityWeight, fairnessThreshold, sqrt)
    ensures forall k :: 0 <= k < |recs| ==>
      recs[k].popularityBiasScore == NormalizedBiasOf(recs[k].track, Tracks(recs), old(recs[k].popularityBiasScore),
                                                      popularityWeight, sqrt)
    ensures forall k :: 0 <= k < |recs| ==> recs[k].diversityScore == TrackDiversity(recs[k].track, Tracks(recs))
  {
    NormalizeAndInject(recs, popularityWeight, diversityWeight, sqrt);
    FairAndAdversarial(recs, fairnessThreshold);
  }

  /** The first two passes: popularity normalisation, then diversity injection. */
  method NormalizeAndInject(recs: seq<TrackRecommendation>, popularityWeight: real,
                            diversityWeight: real, sqrt: real -> real)
    requires Distinct(recs)
    requires forall x :: x >= 0.0 ==> sqrt(x) >= 0.0
    modifies (set r | r in recs)`score, (set r | r in recs)`popularityBiasScore, (set r | r in recs)`diversityScore
    ensures forall k :: 0 <= k < |recs| ==>
      recs[k].score == Injected(NormalizedScoreOf(recs[k].track, Tracks(recs), old(recs[k].score), popularityWeight, sqrt),
                                TrackDiversity(recs[k].track, Tracks(recs)), diversityWeight)
    ensures forall k :: 0 <= k < |recs| ==>
      recs[k].popularityBiasScore == NormalizedBiasOf(recs[k].track, Tracks(recs), old(recs[k].popularityBiasScore),
                                                      popularityWeight, sqrt)
    ensures forall k :: 0 <= k < |recs| ==> recs[k].diversityScore == TrackDiversity(recs[k].track, Tracks(recs))
  {
    ghost var s0 := Scores(recs);
    ApplyPopularityNormalization(recs, popularityWeight, sqrt);
    ghost var s1 := Scores(recs);
    forall k | 0 <= k < |recs|
      ensures s1[k] == NormalizedScoreOf(recs[k].track, Tracks(recs), s0[k], popularityWeight, sqrt)
      ensures recs[k].popularityBiasScore
              == NormalizedBiasOf(recs[k].track, Tracks(recs), old(recs[k].popularityBiasScore), popularityWeight, sqrt)
    {
      NormalizedEntryOf(recs[k].track, Tracks(recs), old(recs[k].score), old(recs[k].popularityBiasScore),
                        recs[k].score, recs[k].popularityBiasScore, popularityWeight, sqrt);
    }
    ApplyDiversityInjection(recs, diversityWeight);
  }

  /** The last two passes: fairness constraints, then adversarial boosts. */
  method FairAndAdversarial(recs: seq<TrackRecommendation>, fairnessThreshold: real)
    requires Distinct(recs)
    modifies (set r | r in recs)`score
    ensures forall k :: 0 <= k < |recs| ==>
      var ts := Tracks(recs);
      recs[k].score == FairScore(old(recs[k].score), ArtistCount(ts, recs[k].track.artist) as real,
                                 IdealPerArtist(ts), fairnessThreshold)
                       + Bonuses(recs[k].track, IdentifyBiasPatterns(ts))
  {
    ApplyFairnessConstraints(recs, fairnessThreshold);
    ApplyAdversarialDebiasing(recs);
  }

  /** The score popularity normalisation leaves: blended with the bias score
      when the list has popularities and this track has one, else as it was. */
  function NormalizedScoreOf(t: Track, ts: seq<Track>, score: real, w: real, sqrt: real -> real): real
    requires forall x :: x >= 0.0 ==> sqrt(x) >= 0.0
  {
    var pops := PresentPops(ts);
    if |pops| > 0 && t.spotifyPopularity.Some? then
      NormalizedScore(score, PopularityBias(t.spotifyPopularity.value as real, Mean(pops), StdDev(pops, sqrt), w), w)
    else score
  }

  /** What `applyPopularityNormalization` leaves in one recommendation,
      stated through the list's popularities. */
  lemma NormalizedEntryOf(t: Track, ts: seq<Track>, oldScore: real, oldBias: real, score: real, bias: real,
                          w: real, sqrt: real -> real)
    requires forall x :: x >= 0.0 ==> sqrt(x) >= 0.0
    requires var pops := PresentPops(ts);
      |pops| > 0 ==> NormalizedEntry(t, oldScore, oldBias, score, bias, Mean(pops), StdDev(pops, sqrt), w)
    requires |PresentPops(ts)| == 0 ==> bias == oldBias && score == oldScore
    ensures score == NormalizedScoreOf(t, ts, oldScore, w, sqrt)
    ensures bias == NormalizedBiasOf(t, ts, oldBias, w, sqrt)
  {
  }

  /** The bias score popularity normalisation leaves. */
  function NormalizedBiasOf(t: Track, ts: seq<Track>, bias: real, w: real, sqrt: real -> real): real
    requires forall x :: x >= 0.0 ==> sqrt(x) >= 0.0
  {
    var pops := PresentPops(ts);
    if |pops| > 0 && t.spotifyPopularity.Some? then
      PopularityBias(t.spotifyPopularity.value as real, Mean(pops), StdDev(pops, sqrt), w)
    else bias
  }

  /** The score after all four passes of the comprehensive debiasing, for a
      track of the list `ts` whose score was `score` before them. */
  function DebiasedScore(t: Track, ts: seq<Track>, score: real, popularityWeight: real,
                         diversityWeight: real, fairnessThreshold: real, sqrt: real -> real): real
    requires |ts| > 0
    requires forall x :: x >= 0.0 ==> sqrt(x) >= 0.0
  {
    var injected := Injected(NormalizedScoreOf(t, ts, score, popularityWeight, sqrt), TrackDiversity(t, ts), diversityWeight);
    FairScore(injected, ArtistCount(ts, t.artist) as real, IdealPerArtist(ts), fairnessThreshold)
      + Bonuses(t, IdentifyBiasPatterns(ts))
  }

  // ---------------------------------------------------------------------
  // Bias metrics
  // ---------------------------------------------------------------------

  /** The five entries of the metrics map. */
  datatype BiasMetrics = BiasMetrics(
    popularityBias: real,
    artistDiversity: real,
    genreDiversity: real,
    independentRatio: real,
    overallBiasScore: real)

  /** The genres that are present, in list order. */
  function GenreSeq(ts: seq<Track>): (r: seq<string>)
    ensures |r| <= |ts|
    ensures forall g :: g in r <==> exists k :: 0 <= k < |ts| && ts[k].genre == Some(g)
  {
    if ts == [] then []
    else
      assert forall k :: 1 <= k < |ts| ==> ts[1..][k - 1] == ts[k];
      (if ts[0].genre.Some? then [ts[0].genre.value] else []) + GenreSeq(ts[1..])
  }

  predicate IsIndependentTrack(t: Track) { t.isIndependent == Some(true) }

  /** `artist_diversity`: distinct artists per track. */
  function ArtistDiversity(ts: seq<Track>): (d: real)
    requires ts != []
    ensures 0.0 < d <= 1.0
  {
    ElemsCard(Artists(ts));
    ShareAtMostOne(|Elems(Artists(ts))|, |ts|);
    |Elems(Artists(ts))| as real / |ts| as real
  }

  /** `genre_diversity`: distinct genres per track, 0 with no genre at all. */
  function GenreDiversity(ts: seq<Track>): (d: real)
    requires ts != []
    ensures 0.0 <= d <= 1.0
    ensures d == 0.0 <==> forall k :: 0 <= k < |ts| ==> ts[k].genre.None?
  {
    var gs := GenreSeq(ts);
    ElemsCard(gs);
    ShareAtMostOne(|Elems(gs)|, |ts|);
    if gs == [] then 0.0
    else
      assert gs[0] in Elems(gs);
      |Elems(gs)| as real / |ts| as real
  }

  /** `independent_ratio`. */
  function IndependentRatio(ts: seq<Track>): (d: real)
    requires ts != []
    ensures 0.0 <= d <= 1.0
  {
    ShareAtMostOne(CountOf(ts, IsIndependentTrack), |ts|);
    CountOf(ts, IsIndependentTrack) as real / |ts| as real
  }

  /** `calculateBiasMetrics`: `None` stands for the empty map returned for an
      empty list. */
  function CalculateBiasMetrics(ts: seq<Track>): (r: Option<BiasMetrics>)
    ensures r.None? <==> ts == []
    ensures r.Some? ==> 0.0 < r.value.artistDiversity <= 1.0 && 0.0 <= r.value.genreDiversity <= 1.0
    ensures r.Some? ==> 0.0 <= r.value.independentRatio <= 1.0
  {
    if ts == [] then None
    else
      var avgPopularity := MeanPopularity(ts);
      var artistDiversity := ArtistDiversity(ts);
      var genreDiversity := GenreDiversity(ts);
      Some(BiasMetrics(
        avgPopularity / 100.0,
        artistDiversity,
        genreDiversity,
        IndependentRatio(ts),
        (1.0 - artistDiversity) * 0.4 + (1.0 - genreDiversity) * 0.3 + (avgPopularity / 100.0) * 0.3))
  }

  /** With popularities in [0,100] every metric, the overall bias score
      included, lies in [0,1]. */
  lemma BiasMetricsInUnit(ts: seq<Track>)
    requires ts != []
    requires forall k :: 0 <= k < |ts| ==> 0.0 <= PopOrZero(ts[k]) <= 100.0
    ensures var m := CalculateBiasMetrics(ts).value;
      0.0 <= m.popularityBias <= 1.0 && 0.0 <= m.overallBiasScore <= 1.0
  {
    PopularityBiasInUnit(ts);
    var m := CalculateBiasMetrics(ts).value;
    WeightedBiasInUnit(m.artistDiversity, m.genreDiversity, m.popularityBias);
  }

  /** The mean popularity over 100 lies in [0,1]. */
  lemma PopularityBiasInUnit(ts: seq<Track>)
    requires ts != []
    requires forall k :: 0 <= k < |ts| ==> 0.0 <= PopOrZero(ts[k]) <= 100.0
    ensures 0.0 <= MeanPopularity(ts) / 100.0 <= 1.0
  {
    SumOfBounds(ts, PopOrZero, 0.0, 100.0);
    MeanOverHundred(SumOf(ts, PopOrZero), |ts| as real);
  }

  lemma MeanOverHundred(sum: real, n: real)
    requires n > 0.0 && 0.0 <= sum <= 100.0 * n
    ensures 0.0 <= (sum / n) / 100.0 <= 1.0
  {
    assert sum / n <= 100.0;
  }

  /** The overall bias score weighs three quantities in [0,1] by 0.4, 0.3
      and 0.3, so it lies in [0,1] too. */
  lemma WeightedBiasInUnit(artistDiversity: real, genreDiversity: real, popularityBias: real)
    requires 0.0 <= artistDiversity <= 1.0 && 0.0 <= genreDiversity <= 1.0 && 0.0 <= popularityBias <= 1.0
    ensures var b := (1.0 - artistDiversity) * 0.4 + (1.0 - genreDiversity) * 0.3 + popularityBias * 0.3;
      0.0 <= b <= 1.0
  {
  }

  /** A list whose artists are pairwise different has artist diversity 1. */
  lemma DistinctArtistsFullDiversity(ts: seq<Track>)
    requires ts != [] && Distinct(Artists(ts))
    ensures ArtistDiversity(ts) == 1.0
  {
    DistinctIffElemsCard(Artists(ts));
  }

}
