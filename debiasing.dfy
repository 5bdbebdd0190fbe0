/** The Python debiasers of `src/ml/debiasing.py`: the popularity
    debiaser, the fairness-constraint enforcer, the diversity injector and
    the rule-based parts of the adversarial debiaser. Recommendations are
    the dicts of `RecDicts`; the sigmoid `1/(1+e^-x)` is a parameter with
    the properties the code relies on, and the statistics that the `fit`
    methods compute from data frames are inputs. */
module Debiasing {
  import opened Common
  import opened TrackMetadata
  import opened RecDicts

  // ---------------------------------------------------------------------
  // PopularityDebiaser
  // ---------------------------------------------------------------------

  /** The fitted `popularity_stats` that debiasing reads. */
  datatype PopularityStats = PopularityStats(mean: real, min: real, max: real)

  /** What the code relies on of the logistic function `1/(1+e^-x)`: it
      lies strictly between 0 and 1, never decreases, and is 1/2 at 0. */
  ghost predicate IsLogistic(logistic: real -> real) {
    && (forall x :: 0.0 < logistic(x) < 1.0)
    && (forall x, y :: x <= y ==> logistic(x) <= logistic(y))
    && logistic(0.0) == 0.5
  }

  /** `_calculate_popularity_penalty`: the popularity normalised into the
      fitted range (1/2 when the range is empty), pushed through a steep
      sigmoid centred on 1/2. */
  function PopularityPenalty(popularity: real, stats: PopularityStats, logistic: real -> real): real {
    var range := stats.max - stats.min;
    var normalized := if range > 0.0 then (popularity - stats.min) / range else 0.5;
    logistic(10.0 * (normalized - 0.5))
  }

  lemma DivMonotone(a: real, b: real, t: real)
    requires t > 0.0 && a <= b
    ensures a / t <= b / t
  {
    var p, q := a / t, b / t;
    assert p * t == a && q * t == b;
    if p > q {
      MulMonotone(q, p, t);
    }
  }

  /** The penalty is a proportion, exactly 1/2 when all fitted
      popularities are equal, and never smaller for a more popular track. */
  lemma PenaltyProperties(p: real, q: real, stats: PopularityStats, logistic: real -> real)
    requires IsLogistic(logistic)
    ensures 0.0 < PopularityPenalty(p, stats, logistic) < 1.0
    ensures stats.max <= stats.min ==> PopularityPenalty(p, stats, logistic) == 0.5
    ensures p <= q ==> PopularityPenalty(p, stats, logistic) <= PopularityPenalty(q, stats, logistic)
  {
    var range := stats.max - stats.min;
    if range > 0.0 && p <= q {
      DivMonotone(p - stats.min, q - stats.min, range);
    }
  }

  /** The popularity used for an item: the track's own, else the fitted mean. */
  function DebiasPopularity(meta: Metadata, id: string, stats: PopularityStats): real {
    InfoOf(meta, id).popularity.GetOr(stats.mean)
  }

  /** One debiased copy: the score scaled by `1 - strength * penalty`, with
      `original_score` and `popularity_penalty` recorded. */
  function Debiased(v: Rec, meta: Metadata, stats: PopularityStats, strength: real,
                    logistic: real -> real): Rec {
    var penalty := PopularityPenalty(DebiasPopularity(meta, v.itemId, stats), stats, logistic);
    v.(score := v.score * (1.0 - strength * penalty),
       fields := v.fields["original_score" := v.score]["popularity_penalty" := penalty])
  }

  /** The debiased copies, in input order. */
  function DebiasedAll(vs: seq<Rec>, meta: Metadata, stats: PopularityStats, strength: real,
                       logistic: real -> real): (ds: seq<Rec>)
    ensures |ds| == |vs|
    ensures forall k :: 0 <= k < |vs| ==> ds[k] == Debiased(vs[k], meta, stats, strength, logistic)
  {
    if vs == [] then []
    else DebiasedAll(vs[..|vs| - 1], meta, stats, strength, logistic)
         + [Debiased(vs[|vs| - 1], meta, stats, strength, logistic)]
  }

  /** What `debias_scores` returns: the input when the debiaser is unfitted
      (the lookup of the fitted mean raises and the handler returns the
      input), else the debiased copies sorted by score, largest first. */
  function DebiasScoresOf(vs: seq<Rec>, meta: Metadata, stats: Option<PopularityStats>,
                          strength: real, logistic: real -> real): seq<Rec> {
    match stats
    case None => vs
    case Some(st) => SortDesc(DebiasedAll(vs, meta, st, strength, logistic), ScoreKey)
  }

  function IdOf(v: Rec): string { v.itemId }

  /** What a debiased copy holds: the same id, the original score and a
      penalty in (0, 1) recorded, and, for a strength in [0, 1] and a
      non-negative score, a score between `(1 - strength) * score` and
      `score`. */
  predicate DebiasedWell(d: Rec, v: Rec, strength: real) {
    && d.itemId == v.itemId
    && "original_score" in d.fields && d.fields["original_score"] == v.score
    && "popularity_penalty" in d.fields && 0.0 < d.fields["popularity_penalty"] < 1.0
    && (0.0 <= strength <= 1.0 && v.score >= 0.0 ==> (1.0 - strength) * v.score <= d.score <= v.score)
  }

  lemma DebiasedProps(v: Rec, meta: Metadata, stats: PopularityStats, strength: real, logistic: real -> real)
    requires IsLogistic(logistic)
    ensures DebiasedWell(Debiased(v, meta, stats, strength, logistic), v, strength)
  {
    var pen := PopularityPenalty(DebiasPopularity(meta, v.itemId, stats), stats, logistic);
    PenaltyProperties(DebiasPopularity(meta, v.itemId, stats), 0.0, stats, logistic);
    PenalisedWell(v, strength, pen);
  }

  /** A copy penalised by any penalty in (0, 1) is debiased well. */
  lemma PenalisedWell(v: Rec, strength: real, pen: real)
    requires 0.0 < pen < 1.0
    ensures DebiasedWell(v.(score := v.score * (1.0 - strength * pen),
                            fields := v.fields["original_score" := v.score]["popularity_penalty" := pen]),
                         v, strength)
  {
    var d := v.(score := v.score * (1.0 - strength * pen),
                fields := v.fields["original_score" := v.score]["popularity_penalty" := pen]);
    var ds := v.score * (1.0 - strength * pen);
    assert d.score == ds;
    if 0.0 <= strength <= 1.0 && v.score >= 0.0 {
      DebiasFactor(v.score, strength, pen);
      assert (1.0 - strength) * v.score <= ds <= v.score;
    }
  }

  lemma DebiasedAllIds(vs: seq<Rec>, meta: Metadata, stats: PopularityStats, strength: real,
                       logistic: real -> real)
    ensures Map(DebiasedAll(vs, meta, stats, strength, logistic), IdOf) == Map(vs, IdOf)
  {
  }

  lemma DebiasedAllWell(vs: seq<Rec>, meta: Metadata, stats: PopularityStats, strength: real,
                        logistic: real -> real)
    requires IsLogistic(logistic)
    ensures forall d :: d in DebiasedAll(vs, meta, stats, strength, logistic) ==>
              exists v :: v in vs && DebiasedWell(d, v, strength)
  {
    var ds := DebiasedAll(vs, meta, stats, strength, logistic);
    forall d | d in ds ensures exists v :: v in vs && DebiasedWell(d, v, strength) {
      var k :| 0 <= k < |ds| && ds[k] == d;
      DebiasedProps(vs[k], meta, stats, strength, logistic);
      assert DebiasedWell(ds[k], vs[k], strength);
      assert vs[k] in vs;
    }
  }

  /** Debiasing keeps the items (as a multiset of ids), orders them by
      score, and every returned entry is a well-debiased copy of an input
      entry. */
  lemma DebiasScoresSpec(vs: seq<Rec>, meta: Metadata, stats: PopularityStats, strength: real,
                         logistic: real -> real)
    requires IsLogistic(logistic)
    ensures var r := DebiasScoresOf(vs, meta, Some(stats), strength, logistic);
      && |r| == |vs|
      && multiset(Map(r, IdOf)) == multiset(Map(vs, IdOf))
      && SortedDesc(r, ScoreKey)
      && forall d :: d in r ==> exists v :: v in vs && DebiasedWell(d, v, strength)
  {
    var ds := DebiasedAll(vs, meta, stats, strength, logistic);
    var r := SortDesc(ds, ScoreKey);
    assert r == DebiasScoresOf(vs, meta, Some(stats), strength, logistic);
    assert multiset(Map(r, IdOf)) == multiset(Map(vs, IdOf)) by {
      SortDescMap(ds, ScoreKey, IdOf);
      DebiasedAllIds(vs, meta, stats, strength, logistic);
    }
    assert forall d :: d in r ==> exists v :: v in vs && DebiasedWell(d, v, strength) by {
      SortDescElems(ds, ScoreKey);
      DebiasedAllWell(vs, meta, stats, strength, logistic);
    }
  }

  lemma DebiasFactor(s: real, strength: real, pen: real)
    requires s >= 0.0 && 0.0 <= strength <= 1.0 && 0.0 < pen < 1.0
    ensures (1.0 - strength) * s <= s * (1.0 - strength * pen) <= s
  {
    var sp := strength * pen;
    MulMonotone(0.0, pen, strength);
    MulMonotone(pen, 1.0, strength);
    assert 0.0 <= sp <= strength;
    MulMonotone(1.0 - strength, 1.0 - sp, s);
    MulMonotone(1.0 - sp, 1.0, s);
  }

  /** Between two items with the same non-negative score, the more popular
      one never ends up with the larger debiased score. */
  lemma DebiasFavoursNiche(v: Rec, w: Rec, meta: Metadata, stats: PopularityStats, strength: real,
                           logistic: real -> real)
    requires IsLogistic(logistic) && strength >= 0.0
    requires v.score == w.score >= 0.0
    requires DebiasPopularity(meta, v.itemId, stats) <= DebiasPopularity(meta, w.itemId, stats)
    ensures Debiased(w, meta, stats, strength, logistic).score <= Debiased(v, meta, stats, strength, logistic).score
  {
    var pv := PopularityPenalty(DebiasPopularity(meta, v.itemId, stats), stats, logistic);
    var pw := PopularityPenalty(DebiasPopularity(meta, w.itemId, stats), stats, logistic);
    PenaltyProperties(DebiasPopularity(meta, v.itemId, stats), DebiasPopularity(meta, w.itemId, stats),
                      stats, logistic);
    MulMonotone(pv, pw, strength);
    MulMonotone(1.0 - strength * pw, 1.0 - strength * pv, v.score);
  }

  /** `PopularityDebiaser.debias_scores`: each dict is copied with
      `rec.copy()` and the copy gets the debiased score, `original_score`
      and `popularity_penalty`; the copies are then sorted by score. The
      caller's dicts are not written (the method modifies nothing). The
      debiased contents are computed first and the copies made after,
      which yields the same fresh dicts as copying inside the loop. */
  method DebiasScores(recs: seq<RecDict>, meta: Metadata, stats: Option<PopularityStats>,
                      strength: real, logistic: real -> real) returns (out: seq<RecDict>)
    ensures Values(out) == DebiasScoresOf(Values(recs), meta, stats, strength, logistic)
    ensures stats.None? ==> out == recs
    ensures stats.Some? ==> forall r :: r in out ==> fresh(r)
  {
    if stats.None? {
      return recs;
    }
    out := SortedNew(DebiasedAll(Values(recs), meta, stats.value, strength, logistic));
  }

  /** Fresh dicts holding `vs`, sorted by score, largest first. */
  method SortedNew(vs: seq<Rec>) returns (out: seq<RecDict>)
    ensures Values(out) == SortDesc(vs, ScoreKey)
    ensures forall r :: r in out ==> fresh(r)
  {
    var copies := NewDicts(vs);
    out := SortRecs(copies, ScoreKey);
    SameMembers(out, copies);
  }

  /** `int(len(recommendations) * x)`: the number of entries a ratio `x`
      of a list asks for (`items_to_replace`, `n_replacements`). */
  function ScaledCount(len: nat, x: real): (n: int)
    ensures x >= 0.0 ==> n >= 0
    ensures 0.0 <= x <= 1.0 ==> n <= len
  {
    ScaledLength(len, x);
    Trunc(len as real * x)
  }

  lemma ScaledLength(len: nat, x: real)
    ensures x >= 0.0 ==> len as real * x >= 0.0
    ensures x <= 1.0 ==> len as real * x <= len as real
  {
    if x >= 0.0 {
      MulMonotone(0.0, x, len as real);
    }
    if x <= 1.0 {
      MulMonotone(x, 1.0, len as real);
    }
  }

  // ---------------------------------------------------------------------
  // FairnessConstraintEnforcer
  // ---------------------------------------------------------------------

  /** The enforcer's settings and its fitted `artist_stats`: the artist ids
      classed niche (popularity below 30) and mainstream (80 and above). An
      unfitted enforcer has no artists in either class. */
  datatype FairnessEnforcer = FairnessEnforcer(minNicheRatio: real, minDiverseGenres: int,
                                               niche: set<string>, mainstream: set<string>)

  /** The constructor's defaults, before `fit`. */
  const DefaultEnforcer := FairnessEnforcer(0.3, 3, {}, {})

  /** The genres listed for each artist id (`artist_metadata`). */
  type ArtistMetadata = map<string, seq<string>>

  function GenresOf(artistMeta: ArtistMetadata, artist: string): seq<string> {
    if artist in artistMeta then artistMeta[artist] else []
  }

  datatype NicheViolation = NicheViolation(currentRatio: real, requiredRatio: real, deficit: real)
  datatype GenreViolation = GenreViolation(currentGenres: nat, requiredGenres: int, deficit: int)

  /** The `violations` dict: each of its two keys present or not. */
  datatype Violations = Violations(niche: Option<NicheViolation>, genres: Option<GenreViolation>) {
    /** `if violations:` */
    predicate Any() { niche.Some? || genres.Some? }
  }

  /** The truthy `artist_id`s of the recommended tracks, one per track that has one. */
  function CurrentArtists(ids: seq<string>, meta: Metadata): (artists: seq<string>)
    ensures |artists| <= |ids|
    ensures forall a :: a in artists ==> a != ""
  {
    if ids == [] then []
    else
      var last := InfoOf(meta, ids[|ids| - 1]).artistId;
      CurrentArtists(ids[..|ids| - 1], meta) + (if last.Some? && last.value != "" then [last.value] else [])
  }

  /** The union of the genres of the current artists. */
  function CurrentGenres(artists: seq<string>, artistMeta: ArtistMetadata): (genres: set<string>)
    ensures forall g :: g in genres <==> exists a :: a in artists && g in GenresOf(artistMeta, a)
  {
    if artists == [] then {}
    else
      var rest := artists[..|artists| - 1];
      assert artists == rest + [artists[|artists| - 1]];
      CurrentGenres(rest, artistMeta) + Elems(GenresOf(artistMeta, artists[|artists| - 1]))
  }

  /** `niche_ratio`: the distinct niche artists over the number of artist
      mentions, 0 when there are none. */
  function NicheRatio(artists: seq<string>, niche: set<string>): (r: real)
    ensures 0.0 <= r <= 1.0
    ensures artists == [] ==> r == 0.0
  {
    if artists == [] then 0.0
    else
      SubsetCard(Elems(artists) * niche, Elems(artists));
      ElemsCard(artists);
      RatioOfCounts(|Elems(artists) * niche|, |artists|);
      |Elems(artists) * niche| as real / |artists| as real
  }

  /** `_check_fairness_violations`. */
  function CheckFairnessViolations(e: FairnessEnforcer, artists: seq<string>, genres: set<string>): Violations {
    var ratio := NicheRatio(artists, e.niche);
    Violations(
      if ratio < e.minNicheRatio then Some(NicheViolation(ratio, e.minNicheRatio, e.minNicheRatio - ratio)) else None,
      if |genres| < e.minDiverseGenres then Some(GenreViolation(|genres|, e.minDiverseGenres, e.minDiverseGenres - |genres|)) else None)
  }

  /** The niche violation is reported exactly when the niche ratio falls
      short, with a positive deficit that is at most the required ratio;
      so a required ratio above 1 is always violated and one at most 0
      never is. The genre violation is reported exactly when there are
      fewer genres than required, with a positive deficit. */
  lemma FairnessViolationsSpec(e: FairnessEnforcer, artists: seq<string>, genres: set<string>)
    ensures var v := CheckFairnessViolations(e, artists, genres);
      && (v.niche.Some? <==> NicheRatio(artists, e.niche) < e.minNicheRatio)
      && (v.niche.Some? ==> 0.0 < v.niche.value.deficit <= e.minNicheRatio
                            && v.niche.value.currentRatio + v.niche.value.deficit == e.minNicheRatio)
      && (e.minNicheRatio > 1.0 ==> v.niche.Some?)
      && (e.minNicheRatio <= 0.0 ==> v.niche.None?)
      && (artists == [] ==> (v.niche.Some? <==> e.minNicheRatio > 0.0))
      && (v.genres.Some? <==> |genres| < e.minDiverseGenres)
      && (v.genres.Some? ==> v.genres.value.deficit > 0
                             && v.genres.value.currentGenres + v.genres.value.deficit == e.minDiverseGenres)
  {
  }

  /** The recommended tracks' artist is one of the fitted mainstream artists
      (a track without an `artist_id` is not). */
  predicate IsMainstream(id: string, meta: Metadata, mainstream: set<string>) {
    var a := InfoOf(meta, id).artistId;
    a.Some? && a.value in mainstream
  }

  /** `mainstream_indices`: the positions of mainstream tracks, in order. */
  function MainstreamIndices(ids: seq<string>, meta: Metadata, mainstream: set<string>): (idx: seq<nat>)
    ensures forall k :: 0 <= k < |idx| ==> idx[k] < |ids| && IsMainstream(ids[idx[k]], meta, mainstream)
    ensures forall i :: 0 <= i < |ids| && IsMainstream(ids[i], meta, mainstream) ==> i in idx
    ensures forall k, l :: 0 <= k < l < |idx| ==> idx[k] < idx[l]
  {
    if ids == [] then []
    else
      var n := |ids| - 1;
      var rest := MainstreamIndices(ids[..n], meta, mainstream);
      assert forall k :: 0 <= k < |rest| ==> ids[..n][rest[k]] == ids[rest[k]];
      assert forall i :: 0 <= i < n ==> ids[..n][i] == ids[i];
      rest + (if IsMainstream(ids[n], meta, mainstream) then [n] else [])
  }

  /** The positions flagged for niche replacement:
      `mainstream_indices[:items_to_replace]`. */
  function FlagTargets(ids: seq<string>, meta: Metadata, e: FairnessEnforcer, v: Violations): seq<nat> {
    match v.niche
    case None => []
    case Some(nv) => PyTo(MainstreamIndices(ids, meta, e.mainstream), ScaledCount(|ids|, nv.deficit))
  }

  /** With a non-negative deficit, the flagged positions are the first
      `int(len * deficit)` mainstream positions, or all of them if there
      are fewer: every flagged track is mainstream, and every mainstream
      track left unflagged comes after all the flagged ones. */
  lemma FlagTargetsSpec(ids: seq<string>, meta: Metadata, e: FairnessEnforcer, v: Violations)
    requires v.niche.Some? ==> v.niche.value.deficit >= 0.0
    ensures var t := FlagTargets(ids, meta, e, v);
      var all := MainstreamIndices(ids, meta, e.mainstream);
      && (v.niche.None? ==> t == [])
      && (v.niche.Some? ==> |t| == MinI(ScaledCount(|ids|, v.niche.value.deficit), |all|))
      && (forall k :: 0 <= k < |t| ==> t[k] < |ids| && IsMainstream(ids[t[k]], meta, e.mainstream))
      && (forall i :: 0 <= i < |ids| && IsMainstream(ids[i], meta, e.mainstream) && i !in t ==>
            forall k :: 0 <= k < |t| ==> t[k] < i)
  {
    var t := FlagTargets(ids, meta, e, v);
    var all := MainstreamIndices(ids, meta, e.mainstream);
    if v.niche.Some? {
      var m := ScaledCount(|ids|, v.niche.value.deficit);
      PyToPrefix(all, m);
      forall i | 0 <= i < |ids| && IsMainstream(ids[i], meta, e.mainstream) && i !in t
        ensures forall k :: 0 <= k < |t| ==> t[k] < i
      {
        var j :| 0 <= j < |all| && all[j] == i;
        assert j >= |t|;
      }
    }
  }

  /** The dicts at the positions `idx` of `rs` (positions past the end
      name nothing). */
  function DictsAt(rs: seq<RecDict>, idx: seq<nat>): set<RecDict> {
    if idx == [] then {}
    else
      var last := idx[|idx| - 1];
      DictsAt(rs, idx[..|idx| - 1]) + (if last < |rs| then {rs[last]} else {})
  }

  const NICHE_FLAG := "needs_niche_replacement"

  function ItemIdList(rs: seq<RecDict>): (ids: seq<string>)
    ensures |ids| == |rs|
    ensures forall k :: 0 <= k < |rs| ==> ids[k] == rs[k].itemId
  {
    if rs == [] then [] else ItemIdList(rs[..|rs| - 1]) + [rs[|rs| - 1].itemId]
  }

  /** `_apply_fairness_corrections`: the list is copied shallowly, so the
      `needs_niche_replacement` flag lands on the caller's dicts at the
      flagged positions; nothing else changes, and the list keeps its
      length and order. */
  method ApplyFairnessCorrections(e: FairnessEnforcer, recs: seq<RecDict>, v: Violations, meta: Metadata)
    returns (out: seq<RecDict>)
    modifies recs`flags
    ensures out == recs
    ensures forall r :: r in recs ==>
      r.flags == old(r.flags) + (if r in DictsAt(recs, FlagTargets(ItemIdList(recs), meta, e, v)) then {NICHE_FLAG} else {})
  {
    out := recs;
    var targets := FlagTargets(ItemIdList(recs), meta, e, v);
    for j := 0 to |targets|
      invariant forall r :: r in recs ==>
        r.flags == old(r.flags) + (if r in DictsAt(recs, targets[..j]) then {NICHE_FLAG} else {})
    {
      DictsAtSnoc(recs, targets, j);
      if targets[j] < |recs| {
        SetFlag(recs[targets[j]], NICHE_FLAG);
      }
    }
    assert targets[..|targets|] == targets;
  }

  /** One more position names at most the dict at that position. */
  lemma DictsAtSnoc(rs: seq<RecDict>, idx: seq<nat>, j: nat)
    requires j < |idx|
    ensures DictsAt(rs, idx[..j + 1]) == DictsAt(rs, idx[..j]) + (if idx[j] < |rs| then {rs[idx[j]]} else {})
  {
    assert idx[..j + 1][..j] == idx[..j];
  }

  /** `rec[flag] = True`. */
  method SetFlag(r: RecDict, flag: string)
    modifies r`flags
    ensures r.flags == old(r.flags) + {flag}
  {
    r.flags := r.flags + {flag};
  }

  /** `enforce_fairness`: collects the artists and genres of the
      recommendations, checks the constraints, and applies the corrections
      when any is violated; otherwise nothing changes. */
  method EnforceFairness(e: FairnessEnforcer, recs: seq<RecDict>, meta: Metadata, artistMeta: ArtistMetadata)
    returns (out: seq<RecDict>, violations: Violations)
    modifies recs`flags
    ensures var artists := CurrentArtists(ItemIdList(recs), meta);
      violations == CheckFairnessViolations(e, artists, CurrentGenres(artists, artistMeta))
    ensures out == recs
    ensures forall r :: r in recs ==>
      r.flags == old(r.flags)
                 + (if violations.Any() && r in DictsAt(recs, FlagTargets(ItemIdList(recs), meta, e, violations))
                    then {NICHE_FLAG} else {})
  {
    var artists := CurrentArtists(ItemIdList(recs), meta);
    violations := CheckFairnessViolations(e, artists, CurrentGenres(artists, artistMeta));
    if violations.Any() {
      out := ApplyFairnessCorrections(e, recs, violations, meta);
    } else {
      out := recs;
    }
  }

  // ---------------------------------------------------------------------
  // DiversityInjector
  // ---------------------------------------------------------------------

  /** What `_calculate_diversity_score` reads of a user's profile: the
      preferred genres (the keys of the genre counter), the average
      popularity and the mean of each audio feature. A profile that failed
      to build (`{}`) has no genres, average 0 and no features. */
  datatype InjectorProfile = InjectorProfile(genres: set<string>, avgPopularity: real,
                                             audioMeans: map<string, real>)

  const INJECTOR_FEATURES: seq<string> := ["danceability", "energy", "valence", "acousticness"]

  /** The feature is known for both the track and the user. */
  predicate Shared(info: TrackInfo, profile: InjectorProfile, f: string) {
    f in info.features && f in profile.audioMeans
  }

  /** `audio_diversity` before the division: the summed gaps over the
      shared features. */
  function GapSum(fs: seq<string>, info: TrackInfo, profile: InjectorProfile): real {
    if fs == [] then 0.0
    else
      var f := fs[|fs| - 1];
      GapSum(fs[..|fs| - 1], info, profile)
        + (if Shared(info, profile, f) then AbsR(info.features[f] - profile.audioMeans[f]) else 0.0)
  }

  /** `audio_count`. */
  function GapCount(fs: seq<string>, info: TrackInfo, profile: InjectorProfile): nat {
    if fs == [] then 0
    else GapCount(fs[..|fs| - 1], info, profile) + (if Shared(info, profile, fs[|fs| - 1]) then 1 else 0)
  }

  /** The Jaccard overlap of two non-empty genre sets. */
  function Jaccard(a: set<string>, b: set<string>): real
    requires a != {} && b != {}
  {
    SubsetCard(a, a + b);
    |a * b| as real / |a + b| as real
  }

  /** `_calculate_diversity_score`: 0.4 of the genre dissimilarity (only
      when both genre sets are non-empty), plus 0.3 of the popularity gap
      over 100 (a missing popularity counts as 0), plus 0.3 of the mean
      gap over the shared audio features (when there are any). */
  function DiversityScore(info: TrackInfo, profile: InjectorProfile): real {
    var trackGenres := Elems(info.genres);
    var genre := if trackGenres != {} && profile.genres != {} then
                   (1.0 - Jaccard(trackGenres, profile.genres)) * 0.4 else 0.0;
    var popularity := AbsR(info.popularity.GetOr(0.0) - profile.avgPopularity) / 100.0 * 0.3;
    var count := GapCount(INJECTOR_FEATURES, info, profile);
    var audio := if count > 0 then GapSum(INJECTOR_FEATURES, info, profile) / count as real * 0.3 else 0.0;
    genre + popularity + audio
  }

  /** The track's and the profile's values lie on the scales the code
      assumes: popularity in [0, 100], audio features in [0, 1]. */
  predicate OnScale(info: TrackInfo, profile: InjectorProfile) {
    && 0.0 <= info.popularity.GetOr(0.0) <= 100.0
    && 0.0 <= profile.avgPopularity <= 100.0
    && (forall f :: f in info.features ==> 0.0 <= info.features[f] <= 1.0)
    && (forall f :: f in profile.audioMeans ==> 0.0 <= profile.audioMeans[f] <= 1.0)
  }

  lemma {:induction false} GapBounds(fs: seq<string>, info: TrackInfo, profile: InjectorProfile)
    ensures 0.0 <= GapSum(fs, info, profile)
    ensures OnScale(info, profile) ==> GapSum(fs, info, profile) <= GapCount(fs, info, profile) as real
  {
    if fs != [] {
      GapBounds(fs[..|fs| - 1], info, profile);
    }
  }

  lemma {:induction false} GapZero(fs: seq<string>, info: TrackInfo, profile: InjectorProfile)
    requires forall f :: f in fs && Shared(info, profile, f) ==> info.features[f] == profile.audioMeans[f]
    ensures GapSum(fs, info, profile) == 0.0
  {
    if fs != [] {
      GapZero(fs[..|fs| - 1], info, profile);
    }
  }

  lemma JaccardBounds(a: set<string>, b: set<string>)
    requires a != {} && b != {}
    ensures 0.0 <= Jaccard(a, b) <= 1.0
    ensures a == b ==> Jaccard(a, b) == 1.0
  {
    SubsetCard(a * b, a + b);
    var x :| x in a;
    assert x in a + b;
    RatioOfCounts(|a * b|, |a + b|);
    if a == b {
      assert a * b == a + b;
    }
  }

  /** The diversity score is never negative; on the assumed scales it is at
      most 1 (0.4 + 0.3 + 0.3); and a track that matches the profile
      exactly (same genres, the average popularity, the user's mean on
      every shared feature) scores 0. */
  lemma DiversityScoreBounds(info: TrackInfo, profile: InjectorProfile)
    ensures 0.0 <= DiversityScore(info, profile)
    ensures OnScale(info, profile) ==> DiversityScore(info, profile) <= 1.0
    ensures Elems(info.genres) == profile.genres && info.popularity.GetOr(0.0) == profile.avgPopularity
            && (forall f :: Shared(info, profile, f) ==> info.features[f] == profile.audioMeans[f])
            ==> DiversityScore(info, profile) == 0.0
  {
    var tg := Elems(info.genres);
    if tg != {} && profile.genres != {} {
      JaccardBounds(tg, profile.genres);
    }
    var gap := AbsR(info.popularity.GetOr(0.0) - profile.avgPopularity);
    assert 0.0 <= gap;
    var count := GapCount(INJECTOR_FEATURES, info, profile);
    var sum := GapSum(INJECTOR_FEATURES, info, profile);
    GapBounds(INJECTOR_FEATURES, info, profile);
    if count > 0 {
      Quotient(sum, count as real);
      if OnScale(info, profile) {
        AverageArith(count as real, sum, 0.0, 1.0);
      }
    }
    if (forall f :: Shared(info, profile, f) ==> info.features[f] == profile.audioMeans[f]) {
      GapZero(INJECTOR_FEATURES, info, profile);
    }
  }

  /** The candidate copy with its `diversity_score`. */
  function WithDiversity(v: Rec, meta: Metadata, profile: InjectorProfile): Rec {
    v.(fields := v.fields["diversity_score" := DiversityScore(InfoOf(meta, v.itemId), profile)])
  }

  /** The pool entries whose id is not already recommended. */
  function EligibleCount(pool: seq<Rec>, recommended: set<string>): nat {
    if pool == [] then 0
    else EligibleCount(pool[..|pool| - 1], recommended) + (if pool[|pool| - 1].itemId !in recommended then 1 else 0)
  }

  /** `diversity_candidates` before sorting: a scored copy of every pool
      entry whose id is not already recommended, in pool order. */
  function Candidates(pool: seq<Rec>, recommended: set<string>, meta: Metadata, profile: InjectorProfile)
    : (cs: seq<Rec>)
    ensures |cs| == EligibleCount(pool, recommended)
    ensures forall c :: c in cs ==> c.itemId !in recommended && "diversity_score" in c.fields
  {
    if pool == [] then []
    else
      var last := pool[|pool| - 1];
      Candidates(pool[..|pool| - 1], recommended, meta, profile)
        + (if last.itemId !in recommended then [WithDiversity(last, meta, profile)] else [])
  }

  /** Every candidate is a scored copy of a pool entry. */
  lemma {:induction false} CandidatesFromPool(pool: seq<Rec>, recommended: set<string>, meta: Metadata,
                                              profile: InjectorProfile)
    ensures forall c :: c in Candidates(pool, recommended, meta, profile) ==>
              exists v :: v in pool && c == WithDiversity(v, meta, profile)
  {
    if pool != [] {
      var init := pool[..|pool| - 1];
      CandidatesFromPool(init, recommended, meta, profile);
      forall c | c in Candidates(init, recommended, meta, profile)
        ensures exists v :: v in pool && c == WithDiversity(v, meta, profile)
      {
        var v :| v in init && c == WithDiversity(v, meta, profile);
        assert v in pool;
      }
    }
  }

  function DiversityKey(v: Rec): real { Get(v.fields, "diversity_score", 0.0) }
  function CombinedKey(v: Rec): real { Get(v.fields, "combined_score", 0.0) }

  /** The `combined_score` written into each kept or injected dict:
      score plus strength times its diversity score, if it has one. */
  function WithCombined(v: Rec, strength: real): Rec {
    v.(fields := v.fields["combined_score" := if "diversity_score" in v.fields
                                               then v.score + v.fields["diversity_score"] * strength
                                               else v.score])
  }

  lemma WithCombinedIdempotent(v: Rec, strength: real)
    ensures WithCombined(WithCombined(v, strength), strength) == WithCombined(v, strength)
  {
    var w := WithCombined(v, strength);
    assert "diversity_score" != "combined_score" by {
      assert |"diversity_score"| != |"combined_score"|;
    }
    assert "diversity_score" in v.fields ==> w.fields["diversity_score"] == v.fields["diversity_score"];
    assert WithCombined(w, strength).fields["combined_score"] == w.fields["combined_score"];
    assert forall k :: k in w.fields <==> k in WithCombined(w, strength).fields;
    assert forall k :: k in w.fields ==> w.fields[k] == WithCombined(w, strength).fields[k];
  }

  function CombinedAll(vs: seq<Rec>, strength: real): (ws: seq<Rec>)
    ensures |ws| == |vs|
    ensures forall k :: 0 <= k < |vs| ==> ws[k] == WithCombined(vs[k], strength)
  {
    if vs == [] then [] else CombinedAll(vs[..|vs| - 1], strength) + [WithCombined(vs[|vs| - 1], strength)]
  }

  /** What `inject_diversity` returns for a known user: the candidates
      sorted by diversity; the recommendations sorted by score ascending,
      without their first `n`; then the first `n` candidates; all with
      their combined score, sorted by it. */
  function InjectDiversityOf(recs: seq<Rec>, pool: seq<Rec>, meta: Metadata, profile: InjectorProfile,
                             strength: real): seq<Rec> {
    Injected(recs, pool, meta, profile, strength, ScaledCount(|recs|, strength))
  }

  function Injected(recs: seq<Rec>, pool: seq<Rec>, meta: Metadata, profile: InjectorProfile,
                    strength: real, n: int): seq<Rec> {
    var cands := SortDesc(Candidates(pool, RecIds(recs), meta, profile), DiversityKey);
    var kept := PyFrom(SortDesc(recs, AscScoreKey), n);
    SortDesc(CombinedAll(kept + PyTo(cands, n), strength), CombinedKey)
  }

  /** The length of the result: with `n = int(len * strength)` and a
      non-negative strength, `max(0, len - n) + min(n, eligible)`, where
      the eligible candidates are the pool entries not already
      recommended; so with a strength of at most 1 the list never grows.
      The result is sorted by combined score and every entry has one. */
  lemma InjectDiversitySpec(recs: seq<Rec>, pool: seq<Rec>, meta: Metadata, profile: InjectorProfile,
                            strength: real)
    requires strength >= 0.0
    ensures var r := InjectDiversityOf(recs, pool, meta, profile, strength);
      var n := ScaledCount(|recs|, strength);
      && |r| == MaxI(0, |recs| - n) + MinI(n, EligibleCount(pool, RecIds(recs)))
      && (strength <= 1.0 ==> |r| <= |recs|)
      && SortedDesc(r, CombinedKey)
      && (forall v :: v in r ==> "combined_score" in v.fields)
  {
    InjectedShape(recs, pool, meta, profile, strength, ScaledCount(|recs|, strength));
  }

  lemma InjectedShape(recs: seq<Rec>, pool: seq<Rec>, meta: Metadata, profile: InjectorProfile,
                      strength: real, n: int)
    requires n >= 0
    ensures var r := Injected(recs, pool, meta, profile, strength, n);
      && |r| == MaxI(0, |recs| - n) + MinI(n, EligibleCount(pool, RecIds(recs)))
      && SortedDesc(r, CombinedKey)
      && (forall v :: v in r ==> "combined_score" in v.fields)
  {
    var cands := SortDesc(Candidates(pool, RecIds(recs), meta, profile), DiversityKey);
    var kept := PyFrom(SortDesc(recs, AscScoreKey), n);
    var ws := CombinedAll(kept + PyTo(cands, n), strength);
    var r := SortDesc(ws, CombinedKey);
    assert r == Injected(recs, pool, meta, profile, strength, n);
    assert |kept| == MaxI(0, |recs| - n) by {
      PyFromSuffix(SortDesc(recs, AscScoreKey), n);
    }
    assert |PyTo(cands, n)| == MinI(n, EligibleCount(pool, RecIds(recs))) by {
      PyToPrefix(cands, n);
    }
    assert forall v :: v in r ==> "combined_score" in v.fields by {
      SortDescElems(ws, CombinedKey);
      forall v | v in ws ensures "combined_score" in v.fields {
        var k :| 0 <= k < |ws| && ws[k] == v;
      }
    }
  }

  /** Every injected candidate has an id that was not recommended. */
  lemma InjectedAreNew(recs: seq<Rec>, pool: seq<Rec>, meta: Metadata, profile: InjectorProfile, n: int)
    ensures var cands := SortDesc(Candidates(pool, RecIds(recs), meta, profile), DiversityKey);
      forall c :: c in PyTo(cands, n) ==> c.itemId !in RecIds(recs) && c.itemId in RecIds(pool)
  {
    var cs := Candidates(pool, RecIds(recs), meta, profile);
    var cands := SortDesc(cs, DiversityKey);
    SortDescElems(cs, DiversityKey);
    CandidatesFromPool(pool, RecIds(recs), meta, profile);
    forall c | c in PyTo(cands, n) ensures c.itemId !in RecIds(recs) && c.itemId in RecIds(pool) {
      assert c in cands;
      var v :| v in pool && c == WithDiversity(v, meta, profile);
    }
  }

  /** What the caller's list holds after `inject_diversity` for a known
      user: its dicts by ascending score, the first `n` (the replaced ones)
      as they were and the kept ones with their combined score. */
  function ReorderedOf(vals: seq<Rec>, n: int, strength: real): seq<Rec> {
    var asc := SortDesc(vals, AscScoreKey);
    PyTo(asc, n) + CombinedAll(PyFrom(asc, n), strength)
  }

  /** The caller's list keeps its entries: the same ids and scores as the
      ascending sort, so its scores ascend; only the kept entries gain a
      combined score. */
  lemma ReorderedShape(vals: seq<Rec>, n: int, strength: real)
    ensures var r := ReorderedOf(vals, n, strength);
      var asc := SortDesc(vals, AscScoreKey);
      && |r| == |vals|
      && (forall k :: 0 <= k < |r| ==> r[k].itemId == asc[k].itemId && r[k].score == asc[k].score)
      && Ascending(Map(r, ScoreKey))
  {
    var r := ReorderedOf(vals, n, strength);
    var asc := SortDesc(vals, AscScoreKey);
    var b := PyBound(n, |asc|);
    PyToIsPrefix(asc, n);
    PyFromIsSuffix(asc, n);
    var ks := CombinedAll(asc[b..], strength);
    forall k | 0 <= k < |r| ensures r[k].itemId == asc[k].itemId && r[k].score == asc[k].score {
      if k >= b {
        assert r[k] == ks[k - b] == WithCombined(asc[k], strength);
      }
    }
    forall i, j | 0 <= i < j < |r| ensures Map(r, ScoreKey)[i] <= Map(r, ScoreKey)[j] {
      assert AscScoreKey(asc[i]) >= AscScoreKey(asc[j]);
    }
  }

  /** From the per-entry account of the writes to the caller's list. */
  lemma ReorderedFrom(va: seq<Rec>, now: seq<Rec>, n: int, strength: real)
    requires |now| == |va|
    requires forall k :: 0 <= k < PyBound(n, |va|) ==> now[k] == va[k]
    requires forall k :: PyBound(n, |va|) <= k < |va| ==> now[k] == WithCombined(va[k], strength)
    ensures now == PyTo(va, n) + CombinedAll(PyFrom(va, n), strength)
  {
    PyToIsPrefix(va, n);
    PyFromIsSuffix(va, n);
  }

  /** The candidate loop of `inject_diversity`: a scored `candidate.copy()`
      for every pool entry not already recommended. The scored contents
      are computed first and copied after, which yields the same fresh
      dicts as copying inside the loop. */
  method CollectCandidates(pool: seq<RecDict>, recommended: set<string>, meta: Metadata,
                           profile: InjectorProfile) returns (cands: seq<RecDict>)
    ensures Values(cands) == Candidates(Values(pool), recommended, meta, profile)
    ensures forall r :: r in cands ==> fresh(r) && r.itemId !in recommended
  {
    var cs := Candidates(Values(pool), recommended, meta, profile);
    cands := NewDicts(cs);
    forall r | r in cands ensures r.itemId !in recommended {
      var k :| 0 <= k < |cands| && cands[k] == r;
      assert cs[k] in cs;
    }
  }

  /** `rec['combined_score'] = ...` for one dict. */
  method SetCombined(r: RecDict, strength: real)
    modifies r`fields
    ensures r.Value() == WithCombined(old(r.Value()), strength)
  {
    r.fields := WithCombined(r.Value(), strength).fields;
  }

  /** The combined-score loop: each dict of the list gets its combined
      score (a dict listed twice gets the same value twice). */
  method WriteCombined(rs: seq<RecDict>, strength: real, ghost others: seq<RecDict>)
    modifies rs`fields
    ensures Values(rs) == CombinedAll(old(Values(rs)), strength)
    ensures Scores(others) == old(Scores(others))
    ensures forall k :: 0 <= k < |others| && others[k] !in rs ==> others[k].Value() == old(others[k].Value())
  {
    ghost var before := Values(rs);
    CombineEach(rs, strength, others);
    ghost var after := Values(rs);
    forall k | 0 <= k < |rs| ensures after[k] == WithCombined(before[k], strength) {
      assert rs[k] in rs;
    }
    CombinedPointwise(before, after, strength);
  }

  /** A list whose every entry is the combined-score update of the
      corresponding entry of another is that list's `CombinedAll`. */
  lemma CombinedPointwise(before: seq<Rec>, after: seq<Rec>, strength: real)
    requires |after| == |before|
    requires forall k :: 0 <= k < |before| ==> after[k] == WithCombined(before[k], strength)
    ensures after == CombinedAll(before, strength)
  {
  }

  /** The loop itself, dict by dict. */
  method CombineEach(rs: seq<RecDict>, strength: real, ghost others: seq<RecDict>)
    modifies rs`fields
    ensures forall r :: r in rs ==> r.Value() == WithCombined(old(r.Value()), strength)
    ensures Scores(others) == old(Scores(others))
  {
    for i := 0 to |rs|
      invariant forall r :: r in rs ==>
        r.Value() == (if r in rs[..i] then WithCombined(old(r.Value()), strength) else old(r.Value()))
    {
      WithCombinedIdempotent(old(rs[i].Value()), strength);
      SetCombined(rs[i], strength);
      PrefixSnoc(rs, i);
    }
    assert rs[..|rs|] == rs;
  }

  lemma PrefixSnoc<T>(s: seq<T>, i: nat)
    requires i < |s|
    ensures forall x :: x in s[..i + 1] <==> x in s[..i] || x == s[i]
  {
    assert s[..i + 1] == s[..i] + [s[i]];
  }

  /** `DiversityInjector.inject_diversity`. For an unknown user nothing
      changes and the input list is returned. Otherwise the caller's list
      is sorted in place by score ascending: `reordered` is its new order
      (the same dicts). The result's
      contents are `InjectDiversityOf` the original contents, and every
      dict in the result is either one of the caller's or a new copy whose
      id was not recommended. */
  method InjectDiversity(userId: string, items: seq<RecDict>, pool: seq<RecDict>, meta: Metadata,
                         profiles: map<string, InjectorProfile>, strength: real)
    returns (reordered: seq<RecDict>, out: seq<RecDict>)
    modifies items`fields
    ensures userId !in profiles ==> reordered == out == items && unchanged(items)
    ensures userId in profiles ==>
      && Values(out) == InjectDiversityOf(old(Values(items)), old(Values(pool)), meta, profiles[userId], strength)
      && (Distinct(items) ==>
            Values(reordered) == ReorderedOf(old(Values(items)), ScaledCount(|items|, strength), strength))
      && multiset(reordered) == multiset(items)
      && Ascending(Scores(reordered))
      && (forall r :: r in out ==> r in items || (fresh(r) && r.itemId !in ItemIds(items)))
  {
    if userId !in profiles {
      return items, items;
    }
    reordered, out := InjectKnown(items, pool, meta, profiles[userId], strength, Values(items), Values(pool));
  }

  /** `inject_diversity` for a user with a profile: the list the caller's
      list becomes (its dicts by ascending score) and the result. */
  method InjectKnown(items: seq<RecDict>, pool: seq<RecDict>, meta: Metadata, profile: InjectorProfile,
                     strength: real, ghost vals0: seq<Rec>, ghost pool0: seq<Rec>)
    returns (asc: seq<RecDict>, out: seq<RecDict>)
    requires Values(items) == vals0 && Values(pool) == pool0
    modifies items`fields
    ensures Values(out) == InjectDiversityOf(vals0, pool0, meta, profile, strength)
    ensures Distinct(items) ==> Values(asc) == ReorderedOf(vals0, ScaledCount(|items|, strength), strength)
    ensures multiset(asc) == multiset(items)
    ensures Ascending(Scores(asc))
    ensures forall r :: r in out ==> r in items || (fresh(r) && r.itemId !in ItemIds(items))
  {
    var n := ScaledCount(|items|, strength);
    var diverse;
    ghost var injected;
    asc, diverse, injected := SelectDiverse(items, pool, meta, profile, n, vals0, pool0);
    out := RescoreKept(Distinct(items), asc, diverse, injected, n, strength, vals0, pool0, meta, profile);
  }

  /** The second half of `inject_diversity`: the result holds the contents
      `InjectDiversityOf` describes and, when no dict repeats, the caller's
      list ends up as `ReorderedOf` describes. */
  method RescoreKept(ghost apart: bool, asc: seq<RecDict>, diverse: seq<RecDict>, ghost injected: seq<RecDict>,
                     n: int, strength: real, ghost vals: seq<Rec>, ghost pool: seq<Rec>, meta: Metadata,
                     profile: InjectorProfile)
    returns (out: seq<RecDict>)
    requires n == ScaledCount(|vals|, strength)
    requires SelectedFor(apart, asc, diverse, injected, n, vals, pool, meta, profile)
    requires Ascending(Scores(asc))
    modifies diverse`fields
    ensures Values(out) == InjectDiversityOf(vals, pool, meta, profile, strength)
    ensures forall r :: r in out <==> r in diverse
    ensures Ascending(Scores(asc))
    ensures apart ==> Values(asc) == ReorderedOf(vals, n, strength)
  {
    ghost var kept := SortDesc(vals, AscScoreKey);
    ghost var cands := SortDesc(Candidates(pool, RecIds(vals), meta, profile), DiversityKey);
    out := RescoreLists(apart, asc, diverse, injected, n, strength, kept, cands);
    InjectedOfSelected(vals, pool, meta, profile, strength, n, kept, cands);
  }

  /** `Rescore` seen from the caller's list `asc`, whose contents are
      `kept`: the result holds the kept and injected contents rescored and
      sorted, and, when no dict repeats, the caller's list ends up as its
      first `n` entries unchanged followed by the rest rescored. */
  method RescoreLists(ghost apart: bool, asc: seq<RecDict>, diverse: seq<RecDict>, ghost injected: seq<RecDict>,
                     n: int, strength: real, ghost kept: seq<Rec>, ghost cands: seq<Rec>)
    returns (out: seq<RecDict>)
    requires Selected(apart, asc, diverse, injected, n, kept, cands)
    requires Ascending(Scores(asc))
    modifies diverse`fields
    ensures Values(out) == SortDesc(CombinedAll(PyFrom(kept, n) + PyTo(cands, n), strength), CombinedKey)
    ensures forall r :: r in out <==> r in diverse
    ensures Ascending(Scores(asc))
    ensures apart ==> Values(asc) == PyTo(kept, n) + CombinedAll(PyFrom(kept, n), strength)
  {
    ghost var pre := Values(diverse);
    ghost var va := Values(asc);
    ghost var b := PyBound(n, |asc|);
    RescorePlan(apart, asc, diverse, injected, n, b, kept, cands, pre, va);
    out := Rescore(diverse, strength, pre, asc);
    if apart {
      forall k | 0 <= k < b ensures asc[k].Value() == va[k] {
        assert asc[k] !in diverse;
      }
      ReorderedAfter(asc, diverse, n, b, strength, va, pre);
    }
  }

  /** How the caller's list and the list to rescore line up: each kept
      dict sits `b` places earlier in the list to rescore with the same
      contents, and, when no dict repeats (`apart`), none of the first `b`
      is rescored. */
  ghost predicate RescoreReady(apart: bool, asc: seq<RecDict>, diverse: seq<RecDict>, n: int, b: nat,
                               pre: seq<Rec>, va: seq<Rec>)
    reads asc, diverse
  {
    && pre == Values(diverse) && va == Values(asc) && b == PyBound(n, |asc|)
    && |asc| <= b + |diverse|
    && (forall k :: b <= k < |asc| ==> k - b < |diverse| && diverse[k - b] == asc[k])
    && (forall k :: b <= k < |va| ==> k - b < |pre| && pre[k - b] == va[k])
    && (apart ==> forall k :: 0 <= k < b ==> asc[k] !in diverse)
  }

  /** What holds of the two lists before the rescoring: the list to rescore
      holds the kept and the injected contents, the caller's list is the
      ascending sort, each kept dict sits `b` places earlier in the list to
      rescore with the same contents, and, when no dict repeats, none of
      the first `b` is rescored. */
  lemma RescorePlan(apart: bool, asc: seq<RecDict>, diverse: seq<RecDict>, injected: seq<RecDict>,
                    n: int, b: nat, kept: seq<Rec>, cands: seq<Rec>, pre: seq<Rec>, va: seq<Rec>)
    requires Selected(apart, asc, diverse, injected, n, kept, cands)
    requires pre == Values(diverse) && va == Values(asc) && b == PyBound(n, |asc|)
    ensures pre == PyFrom(kept, n) + PyTo(cands, n)
    ensures va == kept
    ensures RescoreReady(apart, asc, diverse, n, b, pre, va)
  {
    KeptDicts(asc, injected, diverse, n, b);
    KeptValues(asc, diverse, b, va, pre);
    if apart {
      NoneInEach(asc[..b], diverse);
      forall k | 0 <= k < b ensures asc[k] !in diverse {
        assert asc[..b][k] == asc[k];
      }
    }
  }

  /** What the first half of `inject_diversity` leaves for the second: the
      caller's dicts by ascending score, and the list to rescore, which is
      the kept ones (all but the first `n`) followed by the injected copies
      of the first `n` candidates by diversity. When the caller's list has
      no repeated dict, none of the first `n` is rescored. */
  ghost predicate SelectedFor(apart: bool, asc: seq<RecDict>, diverse: seq<RecDict>, injected: seq<RecDict>,
                              n: int, vals: seq<Rec>, pool: seq<Rec>, meta: Metadata, profile: InjectorProfile)
    reads asc, diverse
  {
    Selected(apart, asc, diverse, injected, n, SortDesc(vals, AscScoreKey),
             SortDesc(Candidates(pool, RecIds(vals), meta, profile), DiversityKey))
  }

  /** The same, for the contents `kept` of the caller's sorted list and
      the sorted candidates `cands`. */
  ghost predicate Selected(apart: bool, asc: seq<RecDict>, diverse: seq<RecDict>, injected: seq<RecDict>, n: int,
                           kept: seq<Rec>, cands: seq<Rec>)
    reads asc, diverse
  {
    && Values(diverse) == PyFrom(kept, n) + PyTo(cands, n)
    && Values(asc) == kept
    && diverse == PyFrom(asc, n) + injected
    && (apart ==> NoneIn(asc[..PyBound(n, |asc|)], diverse))
  }

  /** Each kept dict holds the same contents in both lists. */
  lemma KeptValues(asc: seq<RecDict>, diverse: seq<RecDict>, b: nat, va: seq<Rec>, pre: seq<Rec>)
    requires va == Values(asc) && pre == Values(diverse)
    requires |asc| <= b + |diverse|
    requires forall k :: b <= k < |asc| ==> k - b < |diverse| && diverse[k - b] == asc[k]
    ensures forall k :: b <= k < |va| ==> k - b < |pre| && pre[k - b] == va[k]
  {
    forall k | b <= k < |va| ensures k - b < |pre| && pre[k - b] == va[k] {
      assert asc[k] == diverse[k - b];
    }
  }

  /** The caller's list after the rescoring: its first `b` entries as they
      were, the rest as the rescored kept entries. */
  lemma ReorderedAfter(asc: seq<RecDict>, diverse: seq<RecDict>, n: int, b: nat, strength: real,
                       va: seq<Rec>, pre: seq<Rec>)
    requires b == PyBound(n, |asc|) && |va| == |asc|
    requires |asc| <= b + |diverse|
    requires forall k :: b <= k < |asc| ==> k - b < |diverse| && diverse[k - b] == asc[k]
    requires forall k :: b <= k < |va| ==> k - b < |pre| && pre[k - b] == va[k]
    requires forall k :: 0 <= k < b ==> asc[k].Value() == va[k]
    requires Values(diverse) == CombinedAll(pre, strength)
    ensures Values(asc) == PyTo(va, n) + CombinedAll(PyFrom(va, n), strength)
  {
    ghost var now := Values(asc);
    ghost var post := Values(diverse);
    assert |now| == |asc|;
    forall k | 0 <= k < b ensures now[k] == va[k] {
      assert asc[k].Value() == va[k];
    }
    forall k | b <= k < |va| ensures k - b < |pre| && now[k] == post[k - b] && pre[k - b] == va[k] {
      assert asc[k] == diverse[k - b];
    }
    ReorderedOfParts(va, now, pre, post, n, b, strength);
  }

  /** The caller's list after the rescoring, value by value: its first `b`
      entries as they were, the rest as the rescored kept entries. */
  lemma ReorderedOfParts(va: seq<Rec>, now: seq<Rec>, pre: seq<Rec>, post: seq<Rec>, n: int, b: nat,
                         strength: real)
    requires b == PyBound(n, |va|)
    requires |now| == |va|
    requires forall k :: 0 <= k < b ==> now[k] == va[k]
    requires post == CombinedAll(pre, strength)
    requires forall k :: b <= k < |va| ==> k - b < |pre| && now[k] == post[k - b] && pre[k - b] == va[k]
    ensures now == PyTo(va, n) + CombinedAll(PyFrom(va, n), strength)
  {
    ReorderedFrom(va, now, n, strength);
  }

  /** Each kept dict sits `b` places earlier in the list that is rescored. */
  lemma KeptDicts(asc: seq<RecDict>, injected: seq<RecDict>, diverse: seq<RecDict>, n: int, b: nat)
    requires diverse == PyFrom(asc, n) + injected
    requires b == PyBound(n, |asc|)
    ensures |asc| <= b + |diverse|
    ensures forall k :: b <= k < |asc| ==> k - b < |diverse| && diverse[k - b] == asc[k]
  {
    PyFromIsSuffix(asc, n);
  }

  /** None of the replaced dicts (the first ones of a list without
      repeats) is rescored. */
  lemma DroppedNotWritten(items: seq<RecDict>, asc: seq<RecDict>, injected: seq<RecDict>, diverse: seq<RecDict>,
                          n: int)
    requires multiset(asc) == multiset(items)
    requires forall r :: r in injected ==> r !in items
    requires diverse == PyFrom(asc, n) + injected
    ensures Distinct(items) ==> NoneIn(asc[..PyBound(n, |asc|)], diverse)
  {
    var b := PyBound(n, |asc|);
    PyFromIsSuffix(asc, n);
    if Distinct(items) {
      DistinctPermutation(items, asc);
      SameMembers(items, asc);
      forall k | 0 <= k < b ensures asc[..b][k] !in diverse {
        assert asc[k] in items;
        assert asc[k] !in asc[b..];
      }
      NoneInAll(asc[..b], diverse);
    }
  }

  /** None of the dicts of `xs` is in `rs`. */
  predicate NoneIn(xs: seq<RecDict>, rs: seq<RecDict>) {
    xs == [] || (xs[0] !in rs && NoneIn(xs[1..], rs))
  }

  lemma {:induction false} NoneInAll(xs: seq<RecDict>, rs: seq<RecDict>)
    requires forall k :: 0 <= k < |xs| ==> xs[k] !in rs
    ensures NoneIn(xs, rs)
  {
    if xs != [] {
      assert forall k :: 0 <= k < |xs[1..]| ==> xs[1..][k] == xs[k + 1];
      NoneInAll(xs[1..], rs);
    }
  }

  lemma {:induction false} NoneInEach(xs: seq<RecDict>, rs: seq<RecDict>)
    requires NoneIn(xs, rs)
    ensures forall k :: 0 <= k < |xs| ==> xs[k] !in rs
  {
    if xs != [] {
      NoneInEach(xs[1..], rs);
      forall k | 1 <= k < |xs| ensures xs[k] !in rs {
        assert xs[k] == xs[1..][k - 1];
      }
    }
  }

  /** The kept and injected contents, rescored and sorted, are the result
      `InjectDiversityOf` describes. */
  lemma InjectedOfSelected(vals: seq<Rec>, pool: seq<Rec>, meta: Metadata, profile: InjectorProfile,
                           strength: real, n: int, kept: seq<Rec>, cands: seq<Rec>)
    requires n == ScaledCount(|vals|, strength)
    requires kept == SortDesc(vals, AscScoreKey)
    requires cands == SortDesc(Candidates(pool, RecIds(vals), meta, profile), DiversityKey)
    ensures SortDesc(CombinedAll(PyFrom(kept, n) + PyTo(cands, n), strength), CombinedKey)
      == InjectDiversityOf(vals, pool, meta, profile, strength)
    ensures PyTo(kept, n) + CombinedAll(PyFrom(kept, n), strength) == ReorderedOf(vals, n, strength)
  {
  }

  /** The first half of `inject_diversity` for a known user: the scored
      candidates sorted by diversity, the recommendations sorted by score
      ascending (what the caller's list becomes), and the kept and the
      injected dicts, before any of them is written. */
  method SelectDiverse(items: seq<RecDict>, pool: seq<RecDict>, meta: Metadata, profile: InjectorProfile, n: int,
                       ghost vals: seq<Rec>, ghost poolVals: seq<Rec>)
    returns (asc: seq<RecDict>, diverse: seq<RecDict>, ghost injected: seq<RecDict>)
    requires Values(items) == vals && Values(pool) == poolVals
    ensures SelectedFor(Distinct(items), asc, diverse, injected, n, vals, poolVals, meta, profile)
    ensures forall r :: r in injected ==> fresh(r)
    ensures multiset(asc) == multiset(items)
    ensures Ascending(Scores(asc))
    ensures forall r :: r in diverse ==> r in items || (fresh(r) && r.itemId !in ItemIds(items))
  {
    var recommended := ItemIds(items);
    ValuesIds(items);
    var cands := CollectCandidates(pool, recommended, meta, profile);
    var sortedCands := SortRecs(cands, DiversityKey);
    asc := SortRecs(items, AscScoreKey);
    diverse := PyFrom(asc, n) + PyTo(sortedCands, n);
    injected := PyTo(sortedCands, n);
    ValuesAppend(PyFrom(asc, n), PyTo(sortedCands, n));
    ValuesSlices(asc, sortedCands, n);
    AscendingScores(asc, Values(items));
    SameMembers(asc, items);
    SameMembers(sortedCands, cands);
    InjectedDicts(items, asc, cands, sortedCands, n, recommended);
    DroppedNotWritten(items, asc, injected, diverse, n);
  }

  /** Writes the combined score into the kept and the injected dicts and
      sorts them by it, largest first. Only the dicts' keyed values are
      written. */
  method Rescore(rs: seq<RecDict>, strength: real, ghost pre: seq<Rec>, ghost others: seq<RecDict>)
    returns (out: seq<RecDict>)
    requires Values(rs) == pre
    modifies rs`fields
    ensures Values(rs) == CombinedAll(pre, strength)
    ensures Values(out) == SortDesc(CombinedAll(pre, strength), CombinedKey)
    ensures forall r :: r in out <==> r in rs
    ensures Scores(others) == old(Scores(others))
    ensures forall k :: 0 <= k < |others| && others[k] !in rs ==> others[k].Value() == old(others[k].Value())
  {
    WriteCombined(rs, strength, others);
    out := SortRecs(rs, CombinedKey);
    SameMembers(out, rs);
  }

  /** A list whose contents are sorted by `AscScoreKey` has ascending scores. */
  lemma AscendingScores(asc: seq<RecDict>, vals: seq<Rec>)
    requires Values(asc) == SortDesc(vals, AscScoreKey)
    ensures Ascending(Scores(asc))
  {
    var ss := Scores(asc);
    forall i, j | 0 <= i < j < |ss| ensures ss[i] <= ss[j] {
      assert AscScoreKey(Values(asc)[i]) >= AscScoreKey(Values(asc)[j]);
    }
  }

  /** The dicts `inject_diversity` puts in its result are the caller's own
      or the new candidate copies. */
  lemma InjectedDicts(items: seq<RecDict>, asc: seq<RecDict>, cands: seq<RecDict>, sortedCands: seq<RecDict>,
                      n: int, recommended: set<string>)
    requires forall r :: r in asc ==> r in items
    requires forall r :: r in sortedCands ==> r in cands
    requires forall r :: r in cands ==> r.itemId !in recommended
    ensures forall r :: r in PyFrom(asc, n) ==> r in items
    ensures forall r :: r in PyTo(sortedCands, n) ==> r in cands && r.itemId !in recommended
  {
  }

  lemma ValuesAppend(a: seq<RecDict>, b: seq<RecDict>)
    ensures Values(a + b) == Values(a) + Values(b)
  {
  }

  lemma ValuesSlices(a: seq<RecDict>, b: seq<RecDict>, n: int)
    ensures Values(PyFrom(a, n)) == PyFrom(Values(a), n)
    ensures Values(PyTo(b, n)) == PyTo(Values(b), n)
  {
  }

  // ---------------------------------------------------------------------
  // AdversarialDebiaser
  // ---------------------------------------------------------------------

  /** What `_detect_bias_in_session` reads of one recommended dict: its
      `popularity` and its `artist_id` (either may be missing). */
  datatype SessionRec = SessionRec(popularity: Option<real>, artistId: Option<string>)

  function SessionPopularity(r: SessionRec): real { r.popularity.GetOr(0.0) }
  function SessionArtist(r: SessionRec): Option<string> { r.artistId }

  /** `np.mean` of the popularities (a missing one counts as 0), 0 for an
      empty session. */
  function SessionMeanPopularity(session: seq<SessionRec>): real {
    if session == [] then 0.0 else SumOf(session, SessionPopularity) / |session| as real
  }

  /** `len(set(artist_id)) / len(recommendations)`, 0 for an empty session;
      a missing `artist_id` counts as one more value (`None`). */
  function ArtistDiversity(session: seq<SessionRec>): real {
    if session == [] then 0.0
    else |Elems(Map(session, SessionArtist))| as real / |session| as real
  }

  /** `_detect_bias_in_session`: too mainstream (mean popularity above 75),
      else too little artist diversity (below 0.7). */
  function DetectBiasInSession(session: seq<SessionRec>): bool {
    if SessionMeanPopularity(session) > 75.0 then true
    else ArtistDiversity(session) < 0.7
  }

  /** A session is flagged exactly when it is too mainstream or too
      concentrated on few artists; the empty session is always flagged,
      and a session of distinct artists with a mean popularity of at most
      75 never is. */
  lemma DetectBiasInSessionSpec(session: seq<SessionRec>)
    ensures DetectBiasInSession(session) <==>
      SessionMeanPopularity(session) > 75.0 || ArtistDiversity(session) < 0.7
    ensures session == [] ==> DetectBiasInSession(session)
    ensures session != [] && Distinct(Map(session, SessionArtist)) && SessionMeanPopularity(session) <= 75.0
            ==> !DetectBiasInSession(session)
  {
    if session != [] && Distinct(Map(session, SessionArtist)) {
      DistinctIffElemsCard(Map(session, SessionArtist));
    }
  }

  const BIAS_FLAG := "needs_bias_correction"

  /** `key=lambda x: x.get('popularity', 0)`. */
  function PopularityKey(v: Rec): real { Get(v.fields, "popularity", 0.0) }

  /** The number of the most popular dicts `_apply_bias_corrections`
      penalises: `int(len(recommendations) * 0.3)`. */
  function PenaltyCount(len: nat): (n: nat)
    ensures n <= len
  {
    ScaledCount(len, 0.3)
  }

  /** A score multiplied by 0.7 `k` times: a dict listed `k` times among
      the most popular is penalised once per listing. */
  function DampedScore(score: real, k: nat): real {
    if k == 0 then score else 0.7 * DampedScore(score, k - 1)
  }

  /** Damping a non-negative score never raises it and keeps it
      non-negative; one damping is exactly a factor 0.7. */
  lemma {:induction false} DampedScoreBounds(score: real, k: nat)
    requires score >= 0.0
    ensures 0.0 <= DampedScore(score, k) <= score
    ensures k == 1 ==> DampedScore(score, k) == 0.7 * score
  {
    if k > 0 {
      DampedScoreBounds(score, k - 1);
    }
  }

  /** The loop of `_apply_bias_corrections`: each of the first `n` dicts of
      `rs` is flagged and has its score multiplied by 0.7. */
  method PenaliseFirst(rs: seq<RecDict>, n: nat)
    requires n <= |rs|
    modifies (set r | r in rs)`score, (set r | r in rs)`flags
    ensures forall r :: r in rs ==>
      && r.score == DampedScore(old(r.score), multiset(rs[..n])[r])
      && r.flags == old(r.flags) + (if r in rs[..n] then {BIAS_FLAG} else {})
  {
    for i := 0 to n
      invariant forall r :: r in rs ==>
        && r.score == DampedScore(old(r.score), multiset(rs[..i])[r])
        && r.flags == old(r.flags) + (if r in rs[..i] then {BIAS_FLAG} else {})
    {
      assert rs[..i + 1] == rs[..i] + [rs[i]];
      SetFlag(rs[i], BIAS_FLAG);
      Damp(rs[i]);
    }
  }

  /** `recommendations[i]['score'] *= 0.7`. */
  method Damp(r: RecDict)
    modifies r`score
    ensures r.score == 0.7 * old(r.score)
  {
    r.score := r.score * 0.7;
  }

  /** `_apply_bias_corrections`: the caller's list is sorted in place by
      popularity, most popular first (`byPopularity` is that order), the
      first `int(len * 0.3)` of it are flagged and their scores multiplied
      by 0.7, and the list is then sorted in place by score, largest first:
      `out` is its final order and is what is returned. */
  method ApplyBiasCorrections(recs: seq<RecDict>) returns (byPopularity: seq<RecDict>, out: seq<RecDict>)
    modifies (set r | r in recs)`score, (set r | r in recs)`flags
    ensures byPopularity == old(SortRecs(recs, PopularityKey))
    ensures multiset(byPopularity) == multiset(recs) && multiset(out) == multiset(recs)
    ensures var top := byPopularity[..PenaltyCount(|recs|)];
      forall r :: r in recs ==>
        && r.score == DampedScore(old(r.score), multiset(top)[r])
        && r.flags == old(r.flags) + (if r in top then {BIAS_FLAG} else {})
    ensures Values(out) == SortDesc(Values(byPopularity), ScoreKey)
  {
    byPopularity := SortRecs(recs, PopularityKey);
    forall r ensures r in byPopularity <==> r in recs {
      assert r in byPopularity <==> r in multiset(byPopularity);
      assert r in recs <==> r in multiset(recs);
    }
    PenaliseFirst(byPopularity, PenaltyCount(|recs|));
    out := SortRecs(byPopularity, ScoreKey);
  }

  /** For a list without repeated dicts, each of the first `n` dicts is
      penalised exactly once and no other dict is penalised. */
  lemma PenalisedOnce(byPopularity: seq<RecDict>, n: nat)
    requires Distinct(byPopularity) && n <= |byPopularity|
    ensures forall k :: 0 <= k < n ==> multiset(byPopularity[..n])[byPopularity[k]] == 1
    ensures forall k :: n <= k < |byPopularity| ==> multiset(byPopularity[..n])[byPopularity[k]] == 0
  {
    var top := byPopularity[..n];
    assert Distinct(top);
    forall k | 0 <= k < |byPopularity| ensures multiset(top)[byPopularity[k]] == (if k < n then 1 else 0) {
      DistinctOccursOnce(top, byPopularity[k]);
      if k >= n {
        assert byPopularity[k] !in top;
      } else {
        assert top[k] == byPopularity[k];
      }
    }
  }

  /** `apply_adversarial_debiasing`: with no fitted bias detector nothing
      changes; otherwise the detector's bias probability for the session
      (an input here) decides whether the corrections are applied. */
  method ApplyAdversarialDebiasing(recs: seq<RecDict>, detectorFitted: bool, biasProbability: real)
    returns (out: seq<RecDict>, ghost byPopularity: seq<RecDict>)
    modifies (set r | r in recs)`score, (set r | r in recs)`flags
    ensures !(detectorFitted && biasProbability > 0.7) ==> out == recs && unchanged(recs)
    ensures detectorFitted && biasProbability > 0.7 ==>
      && byPopularity == old(SortRecs(recs, PopularityKey))
      && multiset(out) == multiset(recs)
      && (var top := byPopularity[..PenaltyCount(|recs|)];
          forall r :: r in recs ==>
            && r.score == DampedScore(old(r.score), multiset(top)[r])
            && r.flags == old(r.flags) + (if r in top then {BIAS_FLAG} else {}))
      && Values(out) == SortDesc(Values(byPopularity), ScoreKey)
      && SortedDesc(Values(out), ScoreKey)
  {
    if !detectorFitted || biasProbability <= 0.7 {
      return recs, recs;
    }
    byPopularity, out := ApplyBiasCorrections(recs);
  }
}
