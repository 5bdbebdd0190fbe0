/** The track-to-track similarity of `src/spotify/data_processor.py`: an
    audio, a popularity, a release-year and an artist component, weighted
    and summed. Every helper catches its own exceptions and falls back to
    a constant; those fallbacks are modelled as the cases that reach them. */
module TrackSimilarity {
  import opened Common

  /** A release date as the temporal component sees it: missing or empty,
      a value `pd.to_datetime` rejects, or a date in some year. */
  datatype Date = NoDate | Unparsable | Dated(year: int)

  /** The track fields the similarity reads. */
  datatype TrackInfo = TrackInfo(
    features: map<string, real>,
    popularity: Option<real>,
    releaseDate: Date,
    artistId: Option<string>)

  // ---------------------------------------------------------------------
  // Temporal similarity
  // ---------------------------------------------------------------------

  /** The similarity of two release years `diff` years apart. */
  function YearBand(diff: nat): real {
    if diff == 0 then 1.0
    else if diff <= 2 then 0.8
    else if diff <= 5 then 0.6
    else if diff <= 10 then 0.4
    else 0.2
  }

  /** `_calculate_temporal_similarity`: neutral 0.5 when a date is missing
      or cannot be parsed, otherwise the band of the year difference. */
  function TemporalSimilarity(d1: Date, d2: Date): real {
    if d1.NoDate? || d2.NoDate? then 0.5
    else if d1.Unparsable? || d2.Unparsable? then 0.5
    else YearBand(AbsI(d1.year - d2.year))
  }

  /** The band only falls as the years move apart. */
  lemma YearBandAntitone(a: nat, b: nat)
    requires a <= b
    ensures YearBand(b) <= YearBand(a)
    ensures 0.2 <= YearBand(b) <= 1.0
  {
  }

  /** The temporal component is symmetric, lies in [0.2, 1], is 1 exactly
      for two dates in the same year, and is the neutral 0.5 whenever a
      date is missing or unparsable. */
  lemma TemporalSpec(d1: Date, d2: Date)
    ensures TemporalSimilarity(d1, d2) == TemporalSimilarity(d2, d1)
    ensures 0.2 <= TemporalSimilarity(d1, d2) <= 1.0
    ensures TemporalSimilarity(d1, d2) == 1.0 <==> d1.Dated? && d2.Dated? && d1.year == d2.year
    ensures !(d1.Dated? && d2.Dated?) ==> TemporalSimilarity(d1, d2) == 0.5
  {
  }

  // ---------------------------------------------------------------------
  // Popularity similarity
  // ---------------------------------------------------------------------

  /** `track.get('popularity', 0)`. */
  function PopularityOf(t: TrackInfo): real {
    t.popularity.GetOr(0.0)
  }

  /** `_calculate_popularity_similarity`. */
  function PopularitySimilarity(t1: TrackInfo, t2: TrackInfo): real {
    1.0 - AbsR(PopularityOf(t1) - PopularityOf(t2)) / 100.0
  }

  /** Symmetric; in [0,1] for popularities in [0,100]; 1 exactly for equal
      popularities, a missing one counting as 0. */
  lemma PopularitySpec(t1: TrackInfo, t2: TrackInfo)
    ensures PopularitySimilarity(t1, t2) == PopularitySimilarity(t2, t1)
    ensures 0.0 <= PopularityOf(t1) <= 100.0 && 0.0 <= PopularityOf(t2) <= 100.0 ==>
      0.0 <= PopularitySimilarity(t1, t2) <= 1.0
    ensures PopularitySimilarity(t1, t2) == 1.0 <==> PopularityOf(t1) == PopularityOf(t2)
  {
  }

  // ---------------------------------------------------------------------
  // Audio similarity
  // ---------------------------------------------------------------------

  const SIMILARITY_FEATURES: seq<string> := ["danceability", "energy", "valence", "acousticness", "instrumentalness"]

  /** `1 - |a - b|` for every feature of `ks` both tracks have, in order. */
  function FeatureSims(f1: map<string, real>, f2: map<string, real>, ks: seq<string>): seq<real> {
    if ks == [] then []
    else
      var k := ks[|ks| - 1];
      FeatureSims(f1, f2, ks[..|ks| - 1]) + (if k in f1 && k in f2 then [1.0 - AbsR(f1[k] - f2[k])] else [])
  }

  /** `_calculate_audio_similarity`. */
  function AudioSimilarity(t1: TrackInfo, t2: TrackInfo): real {
    MeanOrZero(FeatureSims(t1.features, t2.features, SIMILARITY_FEATURES))
  }

  /** The loop collecting the per-feature similarities, then their mean. */
  method CalculateAudioSimilarity(t1: TrackInfo, t2: TrackInfo) returns (r: real)
    ensures r == AudioSimilarity(t1, t2)
  {
    var similarities: seq<real> := [];
    for i := 0 to |SIMILARITY_FEATURES|
      invariant similarities == FeatureSims(t1.features, t2.features, SIMILARITY_FEATURES[..i])
    {
      var k := SIMILARITY_FEATURES[i];
      assert SIMILARITY_FEATURES[..i + 1][..i] == SIMILARITY_FEATURES[..i];
      if k in t1.features && k in t2.features {
        similarities := similarities + [1.0 - AbsR(t1.features[k] - t2.features[k])];
      }
    }
    assert SIMILARITY_FEATURES[..|SIMILARITY_FEATURES|] == SIMILARITY_FEATURES;
    r := if similarities == [] then 0.0 else SumOf(similarities, IdR) / |similarities| as real;
  }

  lemma {:induction false} FeatureSimsSymmetric(f1: map<string, real>, f2: map<string, real>, ks: seq<string>)
    ensures FeatureSims(f1, f2, ks) == FeatureSims(f2, f1, ks)
  {
    if ks != [] {
      FeatureSimsSymmetric(f1, f2, ks[..|ks| - 1]);
    }
  }

  /** Feature values in [0,1] give per-feature similarities in [0,1]. */
  predicate UnitFeatures(f: map<string, real>) {
    forall k :: k in f ==> 0.0 <= f[k] <= 1.0
  }

  lemma {:induction false} FeatureSimsBounds(f1: map<string, real>, f2: map<string, real>, ks: seq<string>)
    requires UnitFeatures(f1) && UnitFeatures(f2)
    ensures forall x :: x in FeatureSims(f1, f2, ks) ==> 0.0 <= IdR(x) <= 1.0
  {
    if ks != [] {
      FeatureSimsBounds(f1, f2, ks[..|ks| - 1]);
    }
  }

  /** A track compared with itself agrees fully on every feature it has. */
  lemma {:induction false} FeatureSimsSelf(f: map<string, real>, ks: seq<string>)
    ensures forall x :: x in FeatureSims(f, f, ks) ==> IdR(x) == 1.0
    ensures FeatureSims(f, f, ks) == [] <==> forall k :: k in ks ==> k !in f
  {
    if ks != [] {
      FeatureSimsSelf(f, ks[..|ks| - 1]);
      assert forall k :: k in ks <==> k in ks[..|ks| - 1] || k == ks[|ks| - 1];
    }
  }

  /** The audio component is symmetric, lies in [0,1] for feature values
      in [0,1], and is 0 when the tracks share none of the five features. */
  lemma AudioSimilaritySpec(t1: TrackInfo, t2: TrackInfo)
    ensures AudioSimilarity(t1, t2) == AudioSimilarity(t2, t1)
    ensures UnitFeatures(t1.features) && UnitFeatures(t2.features) ==> 0.0 <= AudioSimilarity(t1, t2) <= 1.0
    ensures (forall k :: k in SIMILARITY_FEATURES ==> k !in t1.features || k !in t2.features) ==>
      AudioSimilarity(t1, t2) == 0.0
  {
    FeatureSimsSymmetric(t1.features, t2.features, SIMILARITY_FEATURES);
    var sims := FeatureSims(t1.features, t2.features, SIMILARITY_FEATURES);
    if UnitFeatures(t1.features) && UnitFeatures(t2.features) && sims != [] {
      FeatureSimsBounds(t1.features, t2.features, SIMILARITY_FEATURES);
      SumOfBounds(sims, IdR, 0.0, 1.0);
      AverageArith(|sims| as real, SumOf(sims, IdR), 0.0, 1.0);
    }
    if forall k :: k in SIMILARITY_FEATURES ==> k !in t1.features || k !in t2.features {
      NoSharedFeatures(t1.features, t2.features, SIMILARITY_FEATURES);
    }
  }

  lemma {:induction false} NoSharedFeatures(f1: map<string, real>, f2: map<string, real>, ks: seq<string>)
    requires forall k :: k in ks ==> k !in f1 || k !in f2
    ensures FeatureSims(f1, f2, ks) == []
  {
    if ks != [] {
      NoSharedFeatures(f1, f2, ks[..|ks| - 1]);
    }
  }

  lemma AudioSimilaritySelf(t: TrackInfo)
    requires exists k :: k in SIMILARITY_FEATURES && k in t.features
    ensures AudioSimilarity(t, t) == 1.0
  {
    var sims := FeatureSims(t.features, t.features, SIMILARITY_FEATURES);
    FeatureSimsSelf(t.features, SIMILARITY_FEATURES);
    SumOfBounds(sims, IdR, 1.0, 1.0);
    Quotient(SumOf(sims, IdR), |sims| as real);
  }

  // ---------------------------------------------------------------------
  // The weighted total
  // ---------------------------------------------------------------------

  const WEIGHT_KEYS: seq<string> := ["audio_features", "popularity", "temporal", "artist"]

  const DEFAULT_WEIGHTS: map<string, real> :=
    map["audio_features" := 0.6, "popularity" := 0.2, "temporal" := 0.1, "artist" := 0.1]

  /** `1.0 if track1.get('artist_id') == track2.get('artist_id') else 0.0`:
      two tracks without an artist id count as the same artist. */
  function ArtistSimilarity(t1: TrackInfo, t2: TrackInfo): real {
    if t1.artistId == t2.artistId then 1.0 else 0.0
  }

  function Weighted(sim: real, w: real): real { sim * w }

  /** The four components weighted and summed in order. */
  function Combined(t1: TrackInfo, t2: TrackInfo, w: map<string, real>): real
    requires forall k :: k in WEIGHT_KEYS ==> k in w
  {
    0.0
    + Weighted(AudioSimilarity(t1, t2), w["audio_features"])
    + Weighted(PopularitySimilarity(t1, t2), w["popularity"])
    + Weighted(TemporalSimilarity(t1.releaseDate, t2.releaseDate), w["temporal"])
    + Weighted(ArtistSimilarity(t1, t2), w["artist"])
  }

  /** `calculate_track_similarity(track1, track2, weights)`: None selects
      the defaults; a weight dict missing one of the four keys raises
      KeyError, which is caught and gives 0.0. */
  function CalculateTrackSimilarity(t1: TrackInfo, t2: TrackInfo, weights: Option<map<string, real>>): real {
    var w := weights.GetOr(DEFAULT_WEIGHTS);
    if forall k :: k in WEIGHT_KEYS ==> k in w then Combined(t1, t2, w) else 0.0
  }

  /** The total is symmetric in the two tracks, for any weights. */
  lemma SimilaritySymmetric(t1: TrackInfo, t2: TrackInfo, weights: Option<map<string, real>>)
    ensures CalculateTrackSimilarity(t1, t2, weights) == CalculateTrackSimilarity(t2, t1, weights)
  {
    AudioSimilaritySpec(t1, t2);
    PopularitySpec(t1, t2);
    TemporalSpec(t1.releaseDate, t2.releaseDate);
  }

  /** A weight dict without all four keys makes the total 0.0. */
  lemma MissingWeightKey(t1: TrackInfo, t2: TrackInfo, w: map<string, real>, k: string)
    requires k in WEIGHT_KEYS && k !in w
    ensures CalculateTrackSimilarity(t1, t2, Some(w)) == 0.0
  {
  }

  /** A track whose values are in range. */
  predicate InRange(t: TrackInfo) {
    UnitFeatures(t.features) && 0.0 <= PopularityOf(t) <= 100.0
  }

  /** With the default weights the total is 0.6·audio + 0.2·popularity +
      0.1·temporal + 0.1·artist, and lies in [0,1] for tracks in range. */
  lemma DefaultSimilarity(t1: TrackInfo, t2: TrackInfo)
    ensures CalculateTrackSimilarity(t1, t2, None) ==
      0.6 * AudioSimilarity(t1, t2) + 0.2 * PopularitySimilarity(t1, t2)
      + 0.1 * TemporalSimilarity(t1.releaseDate, t2.releaseDate) + 0.1 * ArtistSimilarity(t1, t2)
    ensures InRange(t1) && InRange(t2) ==> 0.0 <= CalculateTrackSimilarity(t1, t2, None) <= 1.0
  {
    AudioSimilaritySpec(t1, t2);
    PopularitySpec(t1, t2);
    TemporalSpec(t1.releaseDate, t2.releaseDate);
  }

  /** A dated track with one of the five features is fully similar to
      itself under the default weights. */
  lemma DefaultSelfSimilarity(t: TrackInfo)
    requires t.releaseDate.Dated?
    requires exists k :: k in SIMILARITY_FEATURES && k in t.features
    ensures CalculateTrackSimilarity(t, t, None) == 1.0
  {
    AudioSimilaritySelf(t);
    DefaultSimilarity(t, t);
  }
}
