/** The Java `TrackRecommendation`: a track and its recommendation type,
    both fixed at construction, with a score, an explanation and three
    sub-scores that the engines rewrite in place. */
module Recommendation {
  import opened Common
  import opened Text
  import opened TrackModel

  /** `HybridRecommendationSystem.RecommendationType`. */
  datatype RecommendationType = FOR_YOU | NEW_NICHE | EXPERIMENTAL | HYBRID

  /** The phrases `getDetailedExplanation` appends after the explanation. */
  function ExplanationPhrases(diversity: real, novelty: real, bias: real): string {
    (if diversity > 0.5 then " High diversity score. " else "")
    + (if novelty > 0.7 then " Novel discovery. " else "")
    + (if bias > 0.6 then " Bias-resistant selection. " else "")
  }

  /** `getDetailedExplanation`: the explanation, then the phrase of each
      sub-score above its threshold, the whole trimmed. */
  function DetailedExplanationOf(explanation: string, diversity: real, novelty: real, bias: real): string {
    var sb := (if explanation != "" then explanation else "") + ExplanationPhrases(diversity, novelty, bias);
    JavaTrim(sb)
  }

  /** With no sub-score above its threshold the detailed explanation is the
      trimmed explanation. */
  lemma DetailedExplanationNoPhrase(explanation: string, diversity: real, novelty: real, bias: real)
    requires diversity <= 0.5 && novelty <= 0.7 && bias <= 0.6
    ensures DetailedExplanationOf(explanation, diversity, novelty, bias) == JavaTrim(explanation)
  {
    assert explanation + "" == explanation;
  }

  /** An explanation that starts with a visible character is kept whole at
      the front; only the final blank of the last phrase is trimmed away. */
  lemma DetailedExplanationKeepsText(explanation: string, diversity: real, novelty: real, bias: real)
    requires explanation != [] && !IsJavaSpace(explanation[0])
    requires diversity > 0.5 || novelty > 0.7 || bias > 0.6
    ensures var r := DetailedExplanationOf(explanation, diversity, novelty, bias);
      var s := explanation + ExplanationPhrases(diversity, novelty, bias);
      r == s[..|s| - 1] && |r| > |explanation| && r[..|explanation|] == explanation
  {
    PhrasesShape(diversity, novelty, bias);
    TrimKeepsFront(explanation, ExplanationPhrases(diversity, novelty, bias));
  }

  /** Any phrase present makes the appended text open with a blank and end
      in a full stop and a blank. */
  lemma PhrasesShape(diversity: real, novelty: real, bias: real)
    requires diversity > 0.5 || novelty > 0.7 || bias > 0.6
    ensures var p := ExplanationPhrases(diversity, novelty, bias);
      |p| >= 3 && p[0] == ' ' && !IsJavaSpace(p[1]) && p[|p| - 1] == ' ' && !IsJavaSpace(p[|p| - 2])
  {
  }

  /** Trimming `e + p`, where `e` opens with a visible character and `p`
      ends in a visible character and one blank, drops only that blank. */
  lemma TrimKeepsFront(e: string, p: string)
    requires e != [] && !IsJavaSpace(e[0])
    requires |p| >= 2 && p[|p| - 1] == ' ' && !IsJavaSpace(p[|p| - 2])
    ensures var s := e + p;
      var r := JavaTrim((if e != "" then e else "") + p);
      r == s[..|s| - 1] && |r| > |e| && r[..|e|] == e
  {
    var s := e + p;
    assert s[|s| - 1] == p[|p| - 1] && s[|s| - 2] == p[|p| - 2];
    TrimDropsOneSpace(s, IsJavaSpace);
    assert s[..|s| - 1][..|e|] == e;
  }

  /** With an empty explanation and all three sub-scores high, the result is
      the three phrases without their outer blanks, so consecutive phrases
      are joined by two blanks. */
  lemma DetailedExplanationAllPhrases(diversity: real, novelty: real, bias: real)
    requires diversity > 0.5 && novelty > 0.7 && bias > 0.6
    ensures var p := ExplanationPhrases(diversity, novelty, bias);
      DetailedExplanationOf("", diversity, novelty, bias) == p[1..|p| - 1]
  {
    PhrasesShape(diversity, novelty, bias);
    TrimBothBlanks(ExplanationPhrases(diversity, novelty, bias));
    assert "" + ExplanationPhrases(diversity, novelty, bias) == ExplanationPhrases(diversity, novelty, bias);
  }

  /** Trimming a text with exactly one blank at each end drops those two. */
  lemma TrimBothBlanks(p: string)
    requires |p| >= 3 && p[0] == ' ' && !IsJavaSpace(p[1]) && p[|p| - 1] == ' ' && !IsJavaSpace(p[|p| - 2])
    ensures JavaTrim(p) == p[1..|p| - 1]
  {
    assert TrimLeft(p[1..], IsJavaSpace) == p[1..];
    TrimDropsOneSpace(p[1..], IsJavaSpace);
  }

  /** `getOverallScore`: the score plus the three sub-scores. */
  function OverallScoreOf(score: real, diversity: real, novelty: real, bias: real): real {
    score + diversity + novelty + bias
  }

  /** Sub-scores in [0,1] put the overall score between the score and the
      score plus 3. */
  lemma OverallScoreBounds(score: real, diversity: real, novelty: real, bias: real)
    requires 0.0 <= diversity <= 1.0 && 0.0 <= novelty <= 1.0 && 0.0 <= bias <= 1.0
    ensures score <= OverallScoreOf(score, diversity, novelty, bias) <= score + 3.0
  {
  }

  class TrackRecommendation {
    const track: Track
    const kind: RecommendationType
    var score: real
    var explanation: string
    var diversityScore: real
    var noveltyScore: real
    var popularityBiasScore: real

    /** The three-argument constructor: empty explanation, sub-scores 0. */
    constructor (track: Track, score: real, kind: RecommendationType)
      ensures this.track == track && this.score == score && this.kind == kind
      ensures explanation == ""
      ensures diversityScore == 0.0 && noveltyScore == 0.0 && popularityBiasScore == 0.0
    {
      this.track := track;
      this.score := score;
      this.kind := kind;
      explanation := "";
      diversityScore := 0.0;
      noveltyScore := 0.0;
      popularityBiasScore := 0.0;
    }

    /** The four-argument constructor. */
    constructor WithExplanation(track: Track, score: real, kind: RecommendationType, explanation: string)
      ensures this.track == track && this.score == score && this.kind == kind
      ensures this.explanation == explanation
      ensures diversityScore == 0.0 && noveltyScore == 0.0 && popularityBiasScore == 0.0
    {
      this.track := track;
      this.score := score;
      this.kind := kind;
      this.explanation := explanation;
      diversityScore := 0.0;
      noveltyScore := 0.0;
      popularityBiasScore := 0.0;
    }

    method SetScore(s: real)
      modifies this`score
      ensures score == s
    {
      score := s;
    }

    method SetExplanation(e: string)
      modifies this`explanation
      ensures explanation == e
    {
      explanation := e;
    }

    method SetDiversityScore(d: real)
      modifies this`diversityScore
      ensures diversityScore == d
    {
      diversityScore := d;
    }

    method SetNoveltyScore(n: real)
      modifies this`noveltyScore
      ensures noveltyScore == n
    {
      noveltyScore := n;
    }

    method SetPopularityBiasScore(b: real)
      modifies this`popularityBiasScore
      ensures popularityBiasScore == b
    {
      popularityBiasScore := b;
    }

    function OverallScore(): real
      reads this
    {
      OverallScoreOf(score, diversityScore, noveltyScore, popularityBiasScore)
    }

    function DetailedExplanation(): string
      reads this
    {
      DetailedExplanationOf(explanation, diversityScore, noveltyScore, popularityBiasScore)
    }
  }

  /** `equals`: the same track, that is the same Spotify id. */
  predicate SameRecommendation(a: TrackRecommendation, b: TrackRecommendation) {
    SameTrack(a.track, b.track)
  }

  /** `hashCode`, `Objects.hash(track)`. */
  function RecommendationHash(r: TrackRecommendation): int {
    Wrap32(31 + TrackHash(r.track))
  }

  lemma RecommendationHashAgreesWithEquals(a: TrackRecommendation, b: TrackRecommendation)
    requires SameRecommendation(a, b)
    ensures RecommendationHash(a) == RecommendationHash(b)
  {
    HashAgreesWithEquals(a.track, b.track);
  }
}
