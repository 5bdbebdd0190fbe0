/** The pure and loop helpers of `src/utils/helpers.py`: audio-feature
    normalisation and weighted similarity, the list diversity and novelty
    scores, duration and star-rating formatting, input sanitising and
    batching. The session cache is in module `SessionCache`, the
    validators in module `Validation`. */
module Helpers {
  import opened Common
  import opened Text

  // ---------------------------------------------------------------------
  // DataProcessor.normalize_audio_features
  // ---------------------------------------------------------------------

  /** The features already on a 0..1 scale, which are only clamped. */
  const DIRECT_FEATURES: seq<string> :=
    ["danceability", "energy", "speechiness", "acousticness", "instrumentalness", "liveness", "valence"]

  /** Tempo (60..200 BPM), loudness (-60..0 dB) and duration (30 s..10 min)
      mapped linearly onto 0..1. */
  function ScaledTempo(t: real): real { (t - 60.0) / 140.0 }
  function ScaledLoudness(l: real): real { (l + 60.0) / 60.0 }
  function ScaledDuration(ms: real): real { (ms / 1000.0 - 30.0) / 570.0 }

  /** `normalize_audio_features`: every value lies in [0,1]. */
  function NormalizeAudioFeatures(f: map<string, real>): (r: map<string, real>)
    ensures forall k :: k in r ==> 0.0 <= r[k] <= 1.0
  {
    var direct := map k | k in f && IsDirect(k) :: Clamp01(f[k]);
    var withTempo := if "tempo" in f then direct["tempo" := Clamp01(ScaledTempo(f["tempo"]))] else direct;
    var withLoudness :=
      if "loudness" in f then withTempo["loudness" := Clamp01(ScaledLoudness(f["loudness"]))] else withTempo;
    if "duration_ms" in f then withLoudness["duration" := Clamp01(ScaledDuration(f["duration_ms"]))]
    else withLoudness
  }

  predicate IsDirect(k: string) { k in DIRECT_FEATURES }

  lemma ScaledNotDirect()
    ensures !IsDirect("tempo") && !IsDirect("loudness") && !IsDirect("duration")
  {
  }

  /** A normalised key exists only for a feature the input has
      (`duration_ms` becomes `duration`), and holds its clamped, scaled
      value. */
  lemma NormalizeKeys(f: map<string, real>, k: string)
    ensures var r := NormalizeAudioFeatures(f);
      && (k in r <==>
          || (IsDirect(k) && k in f)
          || (k == "tempo" && "tempo" in f)
          || (k == "loudness" && "loudness" in f)
          || (k == "duration" && "duration_ms" in f))
      && (IsDirect(k) && k in f ==> r[k] == Clamp01(f[k]))
      && (k == "tempo" && k in f ==> r[k] == Clamp01(ScaledTempo(f[k])))
      && (k == "loudness" && k in f ==> r[k] == Clamp01(ScaledLoudness(f[k])))
      && (k == "duration" && "duration_ms" in f ==> r[k] == Clamp01(ScaledDuration(f["duration_ms"])))
  {
    ScaledNotDirect();
  }

  /** Normalising is monotone in each feature: a larger raw value never
      gives a smaller normalised one. */
  lemma NormalizeMonotone(f: map<string, real>, g: map<string, real>, k: string)
    requires k in f && k in g && f[k] <= g[k]
    requires IsDirect(k) || k == "tempo" || k == "loudness"
    ensures k in NormalizeAudioFeatures(f) && k in NormalizeAudioFeatures(g)
    ensures NormalizeAudioFeatures(f)[k] <= NormalizeAudioFeatures(g)[k]
  {
    NormalizeKeys(f, k);
    NormalizeKeys(g, k);
    assert ScaledTempo(f[k]) <= ScaledTempo(g[k]);
    assert ScaledLoudness(f[k]) <= ScaledLoudness(g[k]);
  }

  /** The ends of the typical tempo and loudness ranges map to 0 and 1. */
  lemma NormalizeRangeEnds(f: map<string, real>)
    requires "tempo" in f && "loudness" in f
    ensures f["tempo"] == 60.0 && f["loudness"] == -60.0 ==>
      NormalizeAudioFeatures(f)["tempo"] == 0.0 && NormalizeAudioFeatures(f)["loudness"] == 0.0
    ensures f["tempo"] == 200.0 && f["loudness"] == 0.0 ==>
      NormalizeAudioFeatures(f)["tempo"] == 1.0 && NormalizeAudioFeatures(f)["loudness"] == 1.0
  {
    NormalizeKeys(f, "tempo");
    NormalizeKeys(f, "loudness");
  }

  // ---------------------------------------------------------------------
  // DataProcessor.calculate_audio_similarity
  // ---------------------------------------------------------------------

  /** The default weights, in the dict's insertion order. */
  const DEFAULT_AUDIO_WEIGHTS: seq<(string, real)> :=
    [("danceability", 0.2), ("energy", 0.2), ("valence", 0.15), ("acousticness", 0.1),
     ("instrumentalness", 0.1), ("tempo", 0.15), ("loudness", 0.1)]

  /** `(1 - diff) * weight`. */
  function Agreement(diff: real, w: real): real { (1.0 - diff) * w }

  function Shared(n1: map<string, real>, n2: map<string, real>, k: string): bool {
    k in n1 && k in n2
  }

  /** The weighted agreement summed over the weighted features both
      normalised vectors have, and the weight summed over them. */
  function AgreementSum(n1: map<string, real>, n2: map<string, real>, ws: seq<(string, real)>): real {
    if ws == [] then 0.0
    else
      var (k, w) := ws[|ws| - 1];
      AgreementSum(n1, n2, ws[..|ws| - 1])
        + (if Shared(n1, n2, k) then Agreement(AbsR(n1[k] - n2[k]), w) else 0.0)
  }

  function SharedWeight(n1: map<string, real>, n2: map<string, real>, ws: seq<(string, real)>): real {
    if ws == [] then 0.0
    else
      var (k, w) := ws[|ws| - 1];
      SharedWeight(n1, n2, ws[..|ws| - 1]) + (if Shared(n1, n2, k) then w else 0.0)
  }

  /** The weights used: the given ones (as the dict's items, in order) or
      the defaults. */
  function WeightsOr(weights: Option<seq<(string, real)>>): seq<(string, real)> {
    if weights.None? then DEFAULT_AUDIO_WEIGHTS else weights.value
  }

  /** `calculate_audio_similarity` as a value: the weighted mean agreement
      of the normalised features, 0 when no weighted feature is shared or
      the shared weight is not positive. */
  function AudioSimilarity(f1: map<string, real>, f2: map<string, real>, weights: Option<seq<(string, real)>>): real {
    var n1 := NormalizeAudioFeatures(f1);
    var n2 := NormalizeAudioFeatures(f2);
    var ws := WeightsOr(weights);
    var total := SharedWeight(n1, n2, ws);
    if total > 0.0 then AgreementSum(n1, n2, ws) / total else 0.0
  }

  /** The accumulation loop over `weights.items()`. */
  method AccumulateAgreement(n1: map<string, real>, n2: map<string, real>, ws: seq<(string, real)>)
    returns (similarity: real, totalWeight: real)
    ensures similarity == AgreementSum(n1, n2, ws) && totalWeight == SharedWeight(n1, n2, ws)
  {
    similarity, totalWeight := 0.0, 0.0;
    for i := 0 to |ws|
      invariant similarity == AgreementSum(n1, n2, ws[..i])
      invariant totalWeight == SharedWeight(n1, n2, ws[..i])
    {
      var (k, w) := ws[i];
      assert ws[..i + 1][..i] == ws[..i] && ws[..i + 1][i] == ws[i];
      if k in n1 && k in n2 {
        similarity := similarity + Agreement(AbsR(n1[k] - n2[k]), w);
        totalWeight := totalWeight + w;
      }
    }
    assert ws[..|ws|] == ws;
  }

  /** `DataProcessor.calculate_audio_similarity`. */
  method CalculateAudioSimilarity(f1: map<string, real>, f2: map<string, real>, weights: Option<seq<(string, real)>>)
    returns (r: real)
    ensures r == AudioSimilarity(f1, f2, weights)
  {
    var n1 := NormalizeAudioFeatures(f1);
    var n2 := NormalizeAudioFeatures(f2);
    var similarity, totalWeight := AccumulateAgreement(n1, n2, WeightsOr(weights));
    r := if totalWeight > 0.0 then similarity / totalWeight else 0.0;
  }

  /** Both sums are the same with the vectors swapped. */
  lemma {:induction false} SumsSymmetric(n1: map<string, real>, n2: map<string, real>, ws: seq<(string, real)>)
    ensures AgreementSum(n1, n2, ws) == AgreementSum(n2, n1, ws)
    ensures SharedWeight(n1, n2, ws) == SharedWeight(n2, n1, ws)
  {
    if ws != [] {
      SumsSymmetric(n1, n2, ws[..|ws| - 1]);
      var (k, w) := ws[|ws| - 1];
      if Shared(n1, n2, k) {
        assert AbsR(n1[k] - n2[k]) == AbsR(n2[k] - n1[k]);
      }
    }
  }

  /** The similarity does not depend on the order of the two tracks. */
  lemma AudioSimilaritySymmetric(f1: map<string, real>, f2: map<string, real>, weights: Option<seq<(string, real)>>)
    ensures AudioSimilarity(f1, f2, weights) == AudioSimilarity(f2, f1, weights)
  {
    SumsSymmetric(NormalizeAudioFeatures(f1), NormalizeAudioFeatures(f2), WeightsOr(weights));
  }

  /** With non-negative weights, each shared feature adds between 0 and
      its weight. */
  lemma {:induction false} AgreementBounds(n1: map<string, real>, n2: map<string, real>, ws: seq<(string, real)>)
    requires forall k :: k in n1 ==> 0.0 <= n1[k] <= 1.0
    requires forall k :: k in n2 ==> 0.0 <= n2[k] <= 1.0
    requires forall i :: 0 <= i < |ws| ==> ws[i].1 >= 0.0
    ensures 0.0 <= AgreementSum(n1, n2, ws) <= SharedWeight(n1, n2, ws)
  {
    if ws != [] {
      var init := ws[..|ws| - 1];
      assert forall i :: 0 <= i < |init| ==> init[i] == ws[i];
      AgreementBounds(n1, n2, init);
      var (k, w) := ws[|ws| - 1];
      assert w == ws[|ws| - 1].1;
      var a := if Shared(n1, n2, k) then Agreement(AbsR(n1[k] - n2[k]), w) else 0.0;
      var c := if Shared(n1, n2, k) then w else 0.0;
      if Shared(n1, n2, k) {
        ScaleUnit(1.0 - AbsR(n1[k] - n2[k]), w);
      }
      assert 0.0 <= a <= c;
      assert AgreementSum(n1, n2, ws) == AgreementSum(n1, n2, init) + a;
      assert SharedWeight(n1, n2, ws) == SharedWeight(n1, n2, init) + c;
      AddBounds(AgreementSum(n1, n2, init), a, SharedWeight(n1, n2, init), c);
    }
  }

  /** With non-negative weights the similarity lies in [0,1]. */
  lemma AudioSimilarityBounds(f1: map<string, real>, f2: map<string, real>, weights: Option<seq<(string, real)>>)
    requires forall i :: 0 <= i < |WeightsOr(weights)| ==> WeightsOr(weights)[i].1 >= 0.0
    ensures 0.0 <= AudioSimilarity(f1, f2, weights) <= 1.0
  {
    var n1 := NormalizeAudioFeatures(f1);
    var n2 := NormalizeAudioFeatures(f2);
    var ws := WeightsOr(weights);
    AgreementBounds(n1, n2, ws);
    var total := SharedWeight(n1, n2, ws);
    if total > 0.0 {
      FractionBounds(AgreementSum(n1, n2, ws), total);
    }
  }

  lemma FractionBounds(a: real, t: real)
    requires 0.0 <= a <= t && t > 0.0
    ensures 0.0 <= a / t <= 1.0
  {
    Quotient(a, t);
    Quotient(t - a, t);
    DivAdd(a, t - a, t);
    Quotient(t, t);
  }

  /** Against itself every shared feature agrees fully. */
  lemma {:induction false} SelfAgreement(n: map<string, real>, ws: seq<(string, real)>)
    ensures AgreementSum(n, n, ws) == SharedWeight(n, n, ws)
  {
    if ws != [] {
      SelfAgreement(n, ws[..|ws| - 1]);
    }
  }

  /** A track is fully similar to itself once some weight is shared. */
  lemma AudioSimilaritySelf(f: map<string, real>, weights: Option<seq<(string, real)>>)
    requires SharedWeight(NormalizeAudioFeatures(f), NormalizeAudioFeatures(f), WeightsOr(weights)) > 0.0
    ensures AudioSimilarity(f, f, weights) == 1.0
  {
    var n := NormalizeAudioFeatures(f);
    SelfAgreement(n, WeightsOr(weights));
    Quotient(AgreementSum(n, n, WeightsOr(weights)), SharedWeight(n, n, WeightsOr(weights)));
  }

  // ---------------------------------------------------------------------
  // DataProcessor.calculate_diversity_score / calculate_novelty_score
  // ---------------------------------------------------------------------

  /** The value an item holds under the feature key: a list of values, or
      a single one. A missing key reads as the empty list. */
  datatype FeatureValue = ListOf(values: seq<string>) | Single(value: string)

  function ValuesOf(v: Option<FeatureValue>): set<string> {
    match v
    case None => {}
    case Some(ListOf(vs)) => Elems(vs)
    case Some(Single(x)) => {x}
  }

  /** The distinct values over a list of items. */
  function AllValues(items: seq<Option<FeatureValue>>): set<string> {
    if items == [] then {} else AllValues(items[..|items| - 1]) + ValuesOf(items[|items| - 1])
  }

  /** `calculate_diversity_score`: distinct values per item, capped at 1;
      0 for no items. */
  function DiversityScore(items: seq<Option<FeatureValue>>): real {
    if items == [] then 0.0 else MinR(1.0, |AllValues(items)| as real / |items| as real)
  }

  /** The collecting loop of `calculate_diversity_score`. */
  method CalculateDiversityScore(items: seq<Option<FeatureValue>>) returns (r: real)
    ensures r == DiversityScore(items)
  {
    if items == [] {
      return 0.0;
    }
    var all: set<string> := {};
    for i := 0 to |items|
      invariant all == AllValues(items[..i])
    {
      assert items[..i + 1][..i] == items[..i];
      all := all + ValuesOf(items[i]);
    }
    assert items[..|items|] == items;
    r := MinR(1.0, |all| as real / |items| as real);
  }

  /** The diversity score lies in [0,1]; it is 1 exactly when there are at
      least as many distinct values as items, and 0 exactly when there are
      no items or no values. */
  lemma DiversityScoreSpec(items: seq<Option<FeatureValue>>)
    ensures 0.0 <= DiversityScore(items) <= 1.0
    ensures items != [] ==> (DiversityScore(items) == 1.0 <==> |AllValues(items)| >= |items|)
    ensures DiversityScore(items) == 0.0 <==> items == [] || AllValues(items) == {}
  {
    if items != [] {
      CountRatio(|AllValues(items)|, |items|);
    }
  }

  /** `min(1.0, u / n)` for counts: in [0,1], 1 iff `u >= n`, 0 iff `u == 0`. */
  lemma CountRatio(u: nat, n: nat)
    requires n > 0
    ensures var q := MinR(1.0, u as real / n as real);
      && 0.0 <= q <= 1.0
      && (q == 1.0 <==> u >= n)
      && (q == 0.0 <==> u == 0)
  {
    var q := u as real / n as real;
    assert q * n as real == u as real;
    if u < n {
      RatioOfCounts(u, n);
      if u > 0 {
        Quotient(u as real, n as real);
        assert q != 0.0;
      }
    } else {
      DivMonotone(n as real, u as real, n as real);
      Quotient(n as real, n as real);
    }
  }

  /** `item.get(popularity_key, 50)`. */
  function PopularityOr50(p: Option<real>): real { p.GetOr(50.0) }

  /** `calculate_novelty_score`: `(100 - mean popularity) / 100` clamped to
      [0,1], 0 for no items. */
  function NoveltyScore(items: seq<Option<real>>): real {
    if items == [] then 0.0
    else Clamp01((100.0 - SumOf(items, PopularityOr50) / |items| as real) / 100.0)
  }

  /** The loop collecting the popularities. */
  method CalculateNoveltyScore(items: seq<Option<real>>) returns (r: real)
    ensures r == NoveltyScore(items)
  {
    if items == [] {
      return 0.0;
    }
    var total := 0.0;
    for i := 0 to |items|
      invariant total == SumOf(items[..i], PopularityOr50)
    {
      assert items[..i + 1][..i] == items[..i];
      total := total + PopularityOr50(items[i]);
    }
    assert items[..|items|] == items;
    r := Clamp01((100.0 - total / |items| as real) / 100.0);
  }

  /** Novelty never increases when every item gets at least as popular,
      and items without a popularity count as medium (novelty 0.5). */
  lemma NoveltyAntitone(a: seq<Option<real>>, b: seq<Option<real>>)
    requires |a| == |b| && a != []
    requires forall i :: 0 <= i < |a| ==> PopularityOr50(a[i]) <= PopularityOr50(b[i])
    ensures NoveltyScore(b) <= NoveltyScore(a)
  {
    SumOfPointwise(a, b);
    DivMonotone(SumOf(a, PopularityOr50), SumOf(b, PopularityOr50), |a| as real);
  }

  lemma DivMonotone(x: real, y: real, n: real)
    requires x <= y && n > 0.0
    ensures x / n <= y / n
  {
    Quotient(y - x, n);
    DivAdd(x, y - x, n);
  }

  lemma {:induction false} SumOfPointwise(a: seq<Option<real>>, b: seq<Option<real>>)
    requires |a| == |b|
    requires forall i :: 0 <= i < |a| ==> PopularityOr50(a[i]) <= PopularityOr50(b[i])
    ensures SumOf(a, PopularityOr50) <= SumOf(b, PopularityOr50)
  {
    if a != [] {
      SumOfPointwise(a[..|a| - 1], b[..|b| - 1]);
    }
  }

  lemma NoveltyAllUnknown(items: seq<Option<real>>)
    requires items != [] && forall i :: 0 <= i < |items| ==> items[i].None?
    ensures NoveltyScore(items) == 0.5
  {
    SumOfConstant(items);
  }

  lemma {:induction false} SumOfConstant(items: seq<Option<real>>)
    requires forall i :: 0 <= i < |items| ==> items[i].None?
    ensures SumOf(items, PopularityOr50) == 50.0 * |items| as real
  {
    if items != [] {
      SumOfConstant(items[..|items| - 1]);
    }
  }

  // ---------------------------------------------------------------------
  // UIHelpers.format_duration / create_star_rating
  // ---------------------------------------------------------------------

  /** `format_duration`: "0:00" for 0; otherwise Python's floor division
      splits the whole seconds into minutes and seconds, and from 60
      minutes on into hours as well. */
  function FormatDuration(ms: int): string {
    if ms == 0 then "0:00"
    else
      var totalSeconds := ms / 1000;
      var minutes := totalSeconds / 60;
      var seconds := totalSeconds % 60;
      if minutes >= 60 then IntToString(minutes / 60) + ":" + Pad2(minutes % 60) + ":" + Pad2(seconds)
      else IntToString(minutes) + ":" + Pad2(seconds)
  }

  /** Reads an `H:MM:SS` or `M:SS` text back as whole seconds. */
  function ParseDuration(s: string): Option<int> {
    var fields := Split(s, ':');
    if |fields| == 2 then Some(60 * ParseNat(fields[0]) + ParseNat(fields[1]))
    else if |fields| == 3 then Some(3600 * ParseNat(fields[0]) + 60 * ParseNat(fields[1]) + ParseNat(fields[2]))
    else None
  }

  /** For a non-negative duration, the text holds an hour field exactly
      from one hour on, and reading it back gives the whole seconds. */
  lemma FormatDurationRoundTrip(ms: int)
    requires ms >= 0
    ensures |Split(FormatDuration(ms), ':')| == (if ms / 1000 >= 3600 then 3 else 2)
    ensures ParseDuration(FormatDuration(ms)) == Some(ms / 1000)
  {
    var sec := ms / 1000;
    var minutes := sec / 60;
    var seconds := sec % 60;
    assert sec == 60 * minutes + seconds;
    if ms == 0 {
      ShortClockRoundTrip(0, 0);
      assert IntToString(0) == "0" && Pad2(0) == "00";
      assert FormatDuration(ms) == IntToString(0) + ":" + Pad2(0);
    } else if minutes >= 60 {
      var h, m := minutes / 60, minutes % 60;
      assert minutes == 60 * h + m;
      assert FormatDuration(ms) == IntToString(h) + ":" + Pad2(m) + ":" + Pad2(seconds);
      LongClockRoundTrip(h, m, seconds);
      assert sec == 3600 * h + 60 * m + seconds && sec >= 3600;
    } else {
      assert FormatDuration(ms) == IntToString(minutes) + ":" + Pad2(seconds);
      ShortClockRoundTrip(minutes, seconds);
      assert sec < 3600;
    }
  }

  /** `M:SS` reads back as `60 M + SS`. */
  lemma ShortClockRoundTrip(m: nat, s: nat)
    requires s < 60
    ensures var t := IntToString(m) + ":" + Pad2(s);
      |Split(t, ':')| == 2 && ParseDuration(t) == Some(60 * m + s)
  {
    ParseNatToString(m);
    ParsePad2(s);
    SplitNone(Pad2(s), ':');
    SplitFirst(IntToString(m), ':', Pad2(s));
    assert IntToString(m) + ":" + Pad2(s) == IntToString(m) + [':'] + Pad2(s);
  }

  /** `H:MM:SS` reads back as `3600 H + 60 MM + SS`. */
  lemma LongClockRoundTrip(h: nat, m: nat, s: nat)
    requires m < 60 && s < 60
    ensures var t := IntToString(h) + ":" + Pad2(m) + ":" + Pad2(s);
      |Split(t, ':')| == 3 && ParseDuration(t) == Some(3600 * h + 60 * m + s)
  {
    ParseNatToString(h);
    ParsePad2(m);
    ParsePad2(s);
    SplitThree(IntToString(h), Pad2(m), Pad2(s));
  }

  lemma SplitThree(a: string, b: string, c: string)
    requires ':' !in a && ':' !in b && ':' !in c
    ensures Split(a + ":" + b + ":" + c, ':') == [a, b, c]
  {
    SplitNone(c, ':');
    SplitFirst(b, ':', c);
    SplitFirst(a, ':', b + [':'] + c);
    assert a + ":" + b + ":" + c == a + [':'] + (b + [':'] + c);
  }

  /** `"x" * n`: empty for a non-positive count. */
  function Repeat(c: char, n: int): (r: string)
    ensures |r| == MaxI(n, 0)
    ensures forall i :: 0 <= i < |r| ==> r[i] == c
  {
    if n <= 0 then "" else Repeat(c, n - 1) + [c]
  }

  const FULL_STAR: char := '\U{2B50}'
  const EMPTY_STAR: char := '\U{2606}'

  /** `create_star_rating`: `int(rating)` full stars, one more when the
      fraction is at least a half, and empty stars for the rest. */
  function StarRating(rating: real, maxRating: int): string {
    var full := Trunc(rating);
    var half := if rating - full as real >= 0.5 then 1 else 0;
    Repeat(FULL_STAR, full) + (if half == 1 then [FULL_STAR] else []) + Repeat(EMPTY_STAR, maxRating - full - half)
  }

  /** For a rating between 0 and the maximum the text has exactly the
      maximum number of stars; the full ones are the rating rounded half
      up. */
  lemma StarRatingSpec(rating: real, maxRating: int)
    requires 0.0 <= rating <= maxRating as real
    ensures var s := StarRating(rating, maxRating);
      var full := (rating + 0.5).Floor;
      && |s| == maxRating
      && 0 <= full <= maxRating
      && (forall i :: 0 <= i < full ==> s[i] == FULL_STAR)
      && (forall i :: full <= i < |s| ==> s[i] == EMPTY_STAR)
  {
    var full := Trunc(rating);
    var half := if rating - full as real >= 0.5 then 1 else 0;
    assert full == rating.Floor;
    assert (rating + 0.5).Floor == full + half;
  }

  // ---------------------------------------------------------------------
  // ValidationHelpers.sanitize_user_input
  // ---------------------------------------------------------------------

  /** The characters `re.sub(r'[<>"\']', '', text)` removes. */
  predicate Harmless(c: char) {
    c != '<' && c != '>' && c != '"' && c != '\''
  }

  /** `sanitize_user_input(text, max_length)`: "" for a value that is not
      a string (None here); otherwise the harmful characters removed, cut
      to `max_length` (a Python slice) and stripped. */
  function SanitizeUserInput(text: Option<string>, maxLength: int): (r: string)
    ensures text.None? ==> r == ""
    ensures forall c :: c in r ==> Harmless(c)
    ensures maxLength >= 0 ==> |r| <= maxLength
    ensures r == [] || (!IsPySpace(r[0]) && !IsPySpace(r[|r| - 1]))
  {
    if text.None? then ""
    else
      SanitizeParts(text.value, maxLength);
      PyStrip(PyTo(Filter(text.value, Harmless), maxLength))
  }

  lemma SanitizeParts(text: string, maxLength: int)
    ensures var r := PyStrip(PyTo(Filter(text, Harmless), maxLength));
      && (forall c :: c in r ==> Harmless(c))
      && (maxLength >= 0 ==> |r| <= maxLength)
      && (r == [] || (!IsPySpace(r[0]) && !IsPySpace(r[|r| - 1])))
  {
    var f := Filter(text, Harmless);
    var cut := PyTo(f, maxLength);
    assert cut == f[..PyBound(maxLength, |f|)];
    TrimPart(cut, IsPySpace);
    StripEnds(cut);
  }

  /** `PyStrip` leaves no space at either end. */
  lemma StripEnds(s: string)
    ensures var r := PyStrip(s); r == [] || (!IsPySpace(r[0]) && !IsPySpace(r[|r| - 1]))
  {
  }

  /** Stripping a text without outer spaces leaves it as it is. */
  lemma StripStripped(s: string)
    requires s == [] || (!IsPySpace(s[0]) && !IsPySpace(s[|s| - 1]))
    ensures PyStrip(s) == s
  {
  }

  /** Sanitising an already sanitised text changes nothing. */
  lemma SanitizeIdempotent(text: string, maxLength: int)
    requires maxLength >= 0
    ensures var once := SanitizeUserInput(Some(text), maxLength);
      SanitizeUserInput(Some(once), maxLength) == once
  {
    var once := SanitizeUserInput(Some(text), maxLength);
    assert Filter(once, Harmless) == once by {
      forall i | 0 <= i < |once| ensures Harmless(once[i]) {
        assert once[i] in once;
      }
      FilterAll(once, Harmless);
    }
    assert PyTo(once, maxLength) == once by {
      PyToPrefix(once, maxLength);
      assert once[..|once|] == once;
    }
    assert PyStrip(once) == once by {
      StripStripped(once);
    }
  }

  // ---------------------------------------------------------------------
  // PerformanceHelpers.batch_process
  // ---------------------------------------------------------------------

  /** `process_func` applied to consecutive `size`-long slices, the results
      concatenated. */
  function Batched<T>(items: seq<T>, size: nat, f: seq<T> -> seq<T>): seq<T>
    requires size > 0
    decreases |items|
  {
    if items == [] then []
    else
      var k := MinI(size, |items|);
      f(items[..k]) + Batched(items[k..], size, f)
  }

  /** `batch_process(items, batch_size, process_func)`: the items themselves
      without a function; `range` with step 0 raises ValueError; a negative
      step gives an empty range. */
  method BatchProcess<T>(items: seq<T>, batchSize: int, f: Option<seq<T> -> seq<T>>) returns (r: Result<seq<T>>)
    ensures f.None? ==> r == Ok(items)
    ensures f.Some? && batchSize == 0 ==> r.Err?
    ensures f.Some? && batchSize < 0 ==> r == Ok([])
    ensures f.Some? && batchSize > 0 ==> r == Ok(Batched(items, batchSize, f.value))
  {
    if f.None? {
      return Ok(items);
    }
    if batchSize == 0 {
      return Err("range() arg 3 must not be zero");
    }
    if batchSize < 0 {
      return Ok([]);
    }
    var results := BatchLoop(items, batchSize, f.value);
    return Ok(results);
  }

  /** The batching loop for a positive batch size. */
  method BatchLoop<T>(items: seq<T>, size: nat, f: seq<T> -> seq<T>) returns (results: seq<T>)
    requires size > 0
    ensures results == Batched(items, size, f)
  {
    results := [];
    var i := 0;
    while i < |items|
      invariant i <= |items|
      invariant results + Batched(items[i..], size, f) == Batched(items, size, f)
      decreases |items| - i
    {
      BatchedStep(items, i, size, f);
      results := results + f(PySlice(items, i, i + size));
      i := i + MinI(size, |items| - i);
    }
    assert items[i..] == [];
    assert results + [] == results;
  }

  /** One batch taken off the front of the rest. */
  lemma BatchedStep<T>(items: seq<T>, i: nat, size: nat, f: seq<T> -> seq<T>)
    requires size > 0 && i < |items|
    ensures Batched(items[i..], size, f)
      == f(PySlice(items, i, i + size)) + Batched(items[i + MinI(size, |items| - i)..], size, f)
  {
    var k := MinI(size, |items| - i);
    assert PySlice(items, i, i + size) == items[i..][..k];
    assert items[i..][k..] == items[i + k..];
  }

  /** The consecutive slices partition the items, and a function that
      distributes over concatenation gives the same result batched or
      not. */
  lemma {:induction false} BatchedTransparent<T>(items: seq<T>, size: nat, f: seq<T> -> seq<T>)
    requires size > 0
    requires forall a, b :: f(a + b) == f(a) + f(b)
    ensures Batched(items, size, f) == f(items)
    decreases |items|
  {
    if items == [] {
      assert f([] + []) == f([]) + f([]);
    } else {
      var k := MinI(size, |items|);
      BatchedTransparent(items[k..], size, f);
      assert items[..k] + items[k..] == items;
    }
  }

  /** Batching with the identity gives the items back. */
  lemma BatchedIdentity<T>(items: seq<T>, size: nat)
    requires size > 0
    ensures Batched(items, size, (s: seq<T>) => s) == items
  {
    BatchedTransparent(items, size, (s: seq<T>) => s);
  }
}
