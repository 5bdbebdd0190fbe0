/** The Java `Track` entity: identity, descriptive fields, Spotify audio
    features and the bias-related scores. Every field the entity may hold as
    `null` is an `Option`. The entity has only plain getters and setters, so
    it is a value here; its two computed views are functions. */
module TrackModel {
  import opened Common

  datatype Track = Track(
    spotifyId: string,
    name: string,
    artist: string,
    album: Option<string>,
    genre: Option<string>,
    acousticness: Option<real>,
    danceability: Option<real>,
    energy: Option<real>,
    instrumentalness: Option<real>,
    key: Option<int>,
    liveness: Option<real>,
    loudness: Option<real>,
    mode: Option<int>,
    speechiness: Option<real>,
    tempo: Option<real>,
    timeSignature: Option<int>,
    valence: Option<real>,
    spotifyPopularity: Option<int>,
    popularityBiasScore: Option<real>,
    noveltyScore: Option<real>,
    diversityScore: Option<real>,
    artistPopularity: Option<int>,
    isIndependent: Option<bool>,
    durationMs: Option<int>)

  /** `new Track(spotifyId, name, artist)`: every other field is null. */
  function NewTrack(spotifyId: string, name: string, artist: string): (t: Track)
    ensures t.spotifyId == spotifyId && t.name == name && t.artist == artist
    ensures t.genre.None? && t.spotifyPopularity.None? && t.durationMs.None?
    ensures t.noveltyScore.None? && t.diversityScore.None? && t.popularityBiasScore.None?
    ensures t.isIndependent.None?
  {
    Track(spotifyId, name, artist, None, None, None, None, None, None, None, None, None,
          None, None, None, None, None, None, None, None, None, None, None, None)
  }

  /** `Track.equals`: two tracks are equal exactly when their Spotify ids are. */
  predicate SameTrack(a: Track, b: Track) {
    a.spotifyId == b.spotifyId
  }

  /** Reduction of an integer to Java's 32-bit two's-complement `int`. */
  function Wrap32(x: int): (r: int)
    ensures -0x8000_0000 <= r < 0x8000_0000
    ensures (r - x) % 0x1_0000_0000 == 0
  {
    (x + 0x8000_0000) % 0x1_0000_0000 - 0x8000_0000
  }

  /** `String.hashCode()`: h = 31·h + c over the characters, in `int`. */
  function StringHash(s: string): int {
    if s == [] then 0 else Wrap32(31 * StringHash(s[..|s| - 1]) + s[|s| - 1] as int)
  }

  /** `Track.hashCode()`, which is `Objects.hash(spotifyId)`. */
  function TrackHash(t: Track): int {
    Wrap32(31 + StringHash(t.spotifyId))
  }

  /** Equal tracks hash alike, as the `equals`/`hashCode` contract demands. */
  lemma HashAgreesWithEquals(a: Track, b: Track)
    requires SameTrack(a, b)
    ensures TrackHash(a) == TrackHash(b)
  {
  }

  /** `SameTrack` is an equivalence relation. */
  lemma SameTrackEquivalence(a: Track, b: Track, c: Track)
    ensures SameTrack(a, a)
    ensures SameTrack(a, b) ==> SameTrack(b, a)
    ensures SameTrack(a, b) && SameTrack(b, c) ==> SameTrack(a, c)
  {
  }

  /** The factors `calculateBiasResistantScore` averages: each score that is
      present, and 0.8 for an independent artist. */
  function BiasFactors(t: Track): seq<real> {
    (if t.popularityBiasScore.Some? then [t.popularityBiasScore.value] else [])
    + (if t.noveltyScore.Some? then [t.noveltyScore.value] else [])
    + (if t.diversityScore.Some? then [t.diversityScore.value] else [])
    + (if t.isIndependent == Some(true) then [0.8] else [])
  }

  /** `calculateBiasResistantScore`: running sum and factor count, then the
      quotient, or 0.0 with no factor. The result is the mean of the present
      factors. */
  function BiasResistantScore(t: Track): (r: real)
    ensures var f := BiasFactors(t);
      r == if |f| == 0 then 0.0 else SumOf(f, IdR) / |f| as real
  {
    var s0, n0 := 0.0, 0;
    var (s1, n1) := if t.popularityBiasScore.Some? then (s0 + t.popularityBiasScore.value, n0 + 1) else (s0, n0);
    var (s2, n2) := if t.noveltyScore.Some? then (s1 + t.noveltyScore.value, n1 + 1) else (s1, n1);
    var (s3, n3) := if t.diversityScore.Some? then (s2 + t.diversityScore.value, n2 + 1) else (s2, n2);
    var (s4, n4) := if t.isIndependent == Some(true) then (s3 + 0.8, n3 + 1) else (s3, n3);
    BiasFactorsSum(t);
    if n4 > 0 then s4 / n4 as real else 0.0
  }

  lemma MeanInUnit(s: real, n: real)
    requires n > 0.0 && 0.0 <= s <= n
    ensures 0.0 <= s / n <= 1.0
  {
  }

  /** The documented range: the score lies in [0,1] whenever every present
      factor does. */
  lemma BiasResistantScoreInUnit(t: Track)
    requires forall x :: x in BiasFactors(t) ==> 0.0 <= x <= 1.0
    ensures 0.0 <= BiasResistantScore(t) <= 1.0
  {
    var f := BiasFactors(t);
    if |f| > 0 {
      SumOfBounds(f, IdR, 0.0, 1.0);
      MeanInUnit(SumOf(f, IdR), |f| as real);
    }
  }

  lemma BiasFactorsSum(t: Track)
    ensures |BiasFactors(t)| ==
      (if t.popularityBiasScore.Some? then 1 else 0) + (if t.noveltyScore.Some? then 1 else 0)
      + (if t.diversityScore.Some? then 1 else 0) + (if t.isIndependent == Some(true) then 1 else 0)
    ensures SumOf(BiasFactors(t), IdR) ==
      (if t.popularityBiasScore.Some? then t.popularityBiasScore.value else 0.0)
      + (if t.noveltyScore.Some? then t.noveltyScore.value else 0.0)
      + (if t.diversityScore.Some? then t.diversityScore.value else 0.0)
      + (if t.isIndependent == Some(true) then 0.8 else 0.0)
  {
    var a := if t.popularityBiasScore.Some? then [t.popularityBiasScore.value] else [];
    var b := if t.noveltyScore.Some? then [t.noveltyScore.value] else [];
    var c := if t.diversityScore.Some? then [t.diversityScore.value] else [];
    var d := if t.isIndependent == Some(true) then [0.8] else [];
    SumOfAppend(a, b, IdR);
    SumOfAppend(a + b, c, IdR);
    SumOfAppend(a + b + c, d, IdR);
  }

  function OrZero(x: Option<real>): real { x.GetOr(0.0) }

  /** `getFeatureVector`: nine entries, null read as 0.0, tempo scaled by
      1/200 and loudness shifted by 60 dB and scaled by 1/60, unclamped. */
  function FeatureVector(t: Track): (v: seq<real>)
    ensures |v| == 9
  {
    [ OrZero(t.acousticness), OrZero(t.danceability), OrZero(t.energy),
      OrZero(t.instrumentalness), OrZero(t.liveness), OrZero(t.speechiness),
      OrZero(t.valence),
      if t.tempo.Some? then t.tempo.value / 200.0 else 0.0,
      if t.loudness.Some? then (t.loudness.value + 60.0) / 60.0 else 0.0 ]
  }

  predicate InUnit(x: Option<real>) { x.None? || 0.0 <= x.value <= 1.0 }

  /** Features inside Spotify's documented ranges (tempo up to 200 BPM,
      loudness between -60 and 0 dB) give a vector inside the unit cube. */
  lemma FeatureVectorInUnitCube(t: Track)
    requires InUnit(t.acousticness) && InUnit(t.danceability) && InUnit(t.energy)
    requires InUnit(t.instrumentalness) && InUnit(t.liveness) && InUnit(t.speechiness)
    requires InUnit(t.valence)
    requires t.tempo.None? || 0.0 <= t.tempo.value <= 200.0
    requires t.loudness.None? || -60.0 <= t.loudness.value <= 0.0
    ensures forall i :: 0 <= i < 9 ==> 0.0 <= FeatureVector(t)[i] <= 1.0
  {
  }

  /** A tempo above 200 BPM leaves the unit cube: the vector is not clamped. */
  lemma FeatureVectorTempoUnclamped(t: Track)
    requires t.tempo == Some(300.0)
    ensures FeatureVector(t)[7] == 1.5
  {
  }
}
