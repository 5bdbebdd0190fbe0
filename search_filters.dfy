/** The search filter of the home page (`HomePage._apply_search_filters` in
    `src/ui/pages.py`) and the popularity cap of the niche discovery
    request. */
module SearchPage {
  import opened Common
  import opened Text
  import opened TrackSimilarity

  /** The track fields the filter reads; an absent or empty
      `audio_features` dict is the empty map. */
  datatype SearchResult = SearchResult(
    popularity: Option<real>,
    releaseDate: Date,
    audioFeatures: map<string, real>,
    genres: seq<string>)

  /** Inclusive bounds. */
  datatype Range<T> = Range(lo: T, hi: T)

  /** The filter dict the search form builds. */
  datatype SearchFilters = SearchFilters(
    popularityRange: Range<real>,
    yearRange: Range<int>,
    energyRange: Range<real>,
    danceabilityRange: Range<real>,
    valenceRange: Range<real>,
    genres: seq<string>)

  predicate WithinR(r: Range<real>, x: real) { r.lo <= x <= r.hi }
  predicate WithinI(r: Range<int>, x: int) { r.lo <= x <= r.hi }

  /** `audio_features.get(key, 0.5)`. */
  function FeatureOr(f: map<string, real>, key: string): real {
    if key in f then f[key] else 0.5
  }

  /** The popularity check, a missing popularity counting as 0. */
  predicate PopularityPasses(t: SearchResult, f: SearchFilters) {
    WithinR(f.popularityRange, t.popularity.GetOr(0.0))
  }

  /** The year check: only a parsable date can fail it. */
  predicate YearPasses(t: SearchResult, f: SearchFilters) {
    t.releaseDate.Dated? ==> WithinI(f.yearRange, t.releaseDate.year)
  }

  /** The audio check: only a non-empty feature dict can fail it. */
  predicate AudioPasses(t: SearchResult, f: SearchFilters) {
    t.audioFeatures != map[] ==>
      && WithinR(f.energyRange, FeatureOr(t.audioFeatures, "energy"))
      && WithinR(f.danceabilityRange, FeatureOr(t.audioFeatures, "danceability"))
      && WithinR(f.valenceRange, FeatureOr(t.audioFeatures, "valence"))
  }

  /** Some filter genre equals some track genre, ignoring case. */
  predicate SharesGenre(wanted: seq<string>, have: seq<string>) {
    exists i, j :: 0 <= i < |wanted| && 0 <= j < |have| && Lower(wanted[i]) == Lower(have[j])
  }

  /** The genre check: skipped when no genre is asked for. */
  predicate GenrePasses(t: SearchResult, f: SearchFilters) {
    f.genres != [] ==> SharesGenre(f.genres, t.genres)
  }

  /** A track survives every check. */
  predicate Kept(t: SearchResult, f: SearchFilters) {
    PopularityPasses(t, f) && YearPasses(t, f) && AudioPasses(t, f) && GenrePasses(t, f)
  }

  /** The tracks of `results` that survive, in their order. */
  function Filtered(results: seq<SearchResult>, f: SearchFilters): seq<SearchResult> {
    if results == [] then []
    else Filtered(results[..|results| - 1], f) + (if Kept(results[|results| - 1], f) then [results[|results| - 1]] else [])
  }

  /** The loop of `_apply_search_filters`: each failed check skips the
      track, and a track passing all of them is appended. */
  method ApplySearchFilters(results: seq<SearchResult>, f: SearchFilters) returns (filtered: seq<SearchResult>)
    ensures filtered == Filtered(results, f)
  {
    filtered := [];
    for i := 0 to |results|
      invariant filtered == Filtered(results[..i], f)
    {
      var t := results[i];
      assert results[..i + 1][..i] == results[..i];
      if !WithinR(f.popularityRange, t.popularity.GetOr(0.0)) {
        continue;
      }
      if t.releaseDate.Dated? && !WithinI(f.yearRange, t.releaseDate.year) {
        continue;
      }
      if t.audioFeatures != map[] {
        if !WithinR(f.energyRange, FeatureOr(t.audioFeatures, "energy")) {
          continue;
        }
        if !WithinR(f.danceabilityRange, FeatureOr(t.audioFeatures, "danceability")) {
          continue;
        }
        if !WithinR(f.valenceRange, FeatureOr(t.audioFeatures, "valence")) {
          continue;
        }
      }
      if f.genres != [] && !SharesGenre(f.genres, t.genres) {
        continue;
      }
      filtered := filtered + [t];
    }
    assert results[..|results|] == results;
  }

  /** Filtering commutes with concatenation, so the survivors keep their
      relative order. */
  lemma {:induction false} FilteredAppend(a: seq<SearchResult>, b: seq<SearchResult>, f: SearchFilters)
    ensures Filtered(a + b, f) == Filtered(a, f) + Filtered(b, f)
  {
    if b == [] {
      assert a + b == a;
    } else {
      assert (a + b)[..|a + b| - 1] == a + b[..|b| - 1];
      FilteredAppend(a, b[..|b| - 1], f);
    }
  }

  /** A track is kept exactly when it is in the input and passes every
      check; there are never more survivors than inputs. */
  lemma {:induction false} FilteredMembers(results: seq<SearchResult>, f: SearchFilters)
    ensures |Filtered(results, f)| <= |results|
    ensures forall t :: t in Filtered(results, f) <==> t in results && Kept(t, f)
  {
    if results != [] {
      FilteredMembers(results[..|results| - 1], f);
      var init := results[..|results| - 1];
      assert forall t :: t in results <==> t in init || t == results[|results| - 1];
    }
  }

  /** Filtering twice with the same filters keeps the same tracks. */
  lemma {:induction false} FilteredIdempotent(results: seq<SearchResult>, f: SearchFilters)
    ensures Filtered(Filtered(results, f), f) == Filtered(results, f)
  {
    if results != [] {
      var init := results[..|results| - 1];
      var last := results[|results| - 1];
      FilteredIdempotent(init, f);
      FilteredAppend(Filtered(init, f), if Kept(last, f) then [last] else [], f);
      if Kept(last, f) {
        assert Filtered([last], f) == Filtered([], f) + [last];
      }
    }
  }

  /** What the filters mean for a kept track: its popularity (default 0)
      is within range; its year is within range when its date parses; its
      energy, danceability and valence (default 0.5) are within range when
      it has features; and with genres asked for, it shares one. */
  lemma KeptSpec(t: SearchResult, f: SearchFilters)
    requires Kept(t, f)
    ensures f.popularityRange.lo <= t.popularity.GetOr(0.0) <= f.popularityRange.hi
    ensures t.releaseDate.Dated? ==> f.yearRange.lo <= t.releaseDate.year <= f.yearRange.hi
    ensures t.audioFeatures != map[] ==>
      && f.energyRange.lo <= FeatureOr(t.audioFeatures, "energy") <= f.energyRange.hi
      && f.danceabilityRange.lo <= FeatureOr(t.audioFeatures, "danceability") <= f.danceabilityRange.hi
      && f.valenceRange.lo <= FeatureOr(t.audioFeatures, "valence") <= f.valenceRange.hi
    ensures f.genres != [] ==> exists g, h :: g in f.genres && h in t.genres && Lower(g) == Lower(h)
  {
    if f.genres != [] {
      var i, j :| 0 <= i < |f.genres| && 0 <= j < |t.genres| && Lower(f.genres[i]) == Lower(t.genres[j]);
      assert f.genres[i] in f.genres && t.genres[j] in t.genres;
    }
  }

  /** An unparsable or missing date, a missing feature dict and an empty
      genre filter never filter a track out: only popularity is left. */
  lemma NoDateNoFeaturesKept(t: SearchResult, f: SearchFilters)
    requires !t.releaseDate.Dated? && t.audioFeatures == map[] && f.genres == []
    ensures Kept(t, f) <==> PopularityPasses(t, f)
  {
  }

  // ---------------------------------------------------------------------
  // Niche discovery
  // ---------------------------------------------------------------------

  /** `max_popularity=30 - (niche_level * 5)` for the discovery level. */
  function NicheMaxPopularity(level: int): int {
    30 - level * 5
  }

  /** Over the slider's levels 1..5 the cap falls strictly from 25 to 5. */
  lemma NicheCapRange(a: int, b: int)
    requires 1 <= a < b <= 5
    ensures 5 <= NicheMaxPopularity(b) < NicheMaxPopularity(a) <= 25
  {
  }
}
