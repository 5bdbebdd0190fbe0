/** The Java `ContextEngine`: multiplicative weights for the user's mood,
    activity and time of day, applied in place to a list of recommendations,
    plus the hour-to-time-of-day mapping, a textual description of the
    context and a weighted context-fit score. The clock's hour is a
    parameter. */
module ContextEngine {
  import opened Common
  import opened Text
  import opened TrackModel
  import opened ContextTypes
  import opened Recommendation
  import opened UserModel

  /** A present audio feature strictly above a threshold. */
  predicate Above(x: Option<real>, c: real) { x.Some? && x.value > c }

  /** A present audio feature strictly below a threshold. */
  predicate Below(x: Option<real>, c: real) { x.Some? && x.value < c }

  /** A present audio feature strictly between two thresholds. */
  predicate Within(x: Option<real>, lo: real, hi: real) { x.Some? && lo < x.value && x.value < hi }

  /** `calculateMoodScore`: 1.0 for no mood; NEUTRAL matches no case. */
  function MoodScore(t: Track, mood: Option<Mood>): (r: real)
    ensures 1.0 <= r <= 1.4 * 1.3 * 1.2
    ensures (mood.None? || mood == Some(Mood.NEUTRAL)) ==> r == 1.0
  {
    if mood.None? then 1.0
    else match mood.value
      case HAPPY =>
        var s1 := if Above(t.valence, 0.7) then 1.3 else 1.0;
        var s2 := if Above(t.energy, 0.6) then s1 * 1.2 else s1;
        if Above(t.danceability, 0.7) then s2 * 1.1 else s2
      case SAD =>
        var s1 := if Below(t.valence, 0.4) then 1.3 else 1.0;
        var s2 := if Above(t.acousticness, 0.6) then s1 * 1.2 else s1;
        if Below(t.energy, 0.4) then s2 * 1.1 else s2
      case ENERGETIC =>
        var s1 := if Above(t.energy, 0.8) then 1.4 else 1.0;
        var s2 := if Above(t.tempo, 120.0) then s1 * 1.3 else s1;
        if Above(t.danceability, 0.8) then s2 * 1.2 else s2
      case CALM =>
        var s1 := if Below(t.energy, 0.3) then 1.4 else 1.0;
        var s2 := if Above(t.acousticness, 0.8) then s1 * 1.3 else s1;
        if Above(t.instrumentalness, 0.6) then s2 * 1.2 else s2
      case FOCUSED =>
        var s1 := if Above(t.instrumentalness, 0.7) then 1.4 else 1.0;
        var s2 := if Below(t.speechiness, 0.1) then s1 * 1.3 else s1;
        if Within(t.energy, 0.4, 0.7) then s2 * 1.2 else s2
      case PARTY =>
        var s1 := if Above(t.danceability, 0.8) then 1.4 else 1.0;
        var s2 := if Above(t.energy, 0.8) then s1 * 1.3 else s1;
        if Above(t.valence, 0.7) then s2 * 1.2 else s2
      case ROMANTIC =>
        var s1 := if Within(t.valence, 0.5, 0.8) then 1.3 else 1.0;
        var s2 := if Above(t.acousticness, 0.6) then s1 * 1.2 else s1;
        if Within(t.energy, 0.3, 0.6) then s2 * 1.1 else s2
      case NEUTRAL => 1.0
  }

  /** `calculateActivityScore`: 1.0 for no activity; GENERAL matches no case. */
  function ActivityScore(t: Track, activity: Option<Activity>): (r: real)
    ensures 1.0 <= r <= 1.4 * 1.3 * 1.2
    ensures (activity.None? || activity == Some(GENERAL)) ==> r == 1.0
  {
    if activity.None? then 1.0
    else match activity.value
      case WORKING =>
        var s1 := if Above(t.instrumentalness, 0.8) then 1.4 else 1.0;
        var s2 := if Below(t.speechiness, 0.05) then s1 * 1.3 else s1;
        if Within(t.energy, 0.3, 0.6) then s2 * 1.2 else s2
      case EXERCISING =>
        var s1 := if Above(t.energy, 0.8) then 1.4 else 1.0;
        var s2 := if Above(t.tempo, 120.0) then s1 * 1.3 else s1;
        if Above(t.danceability, 0.7) then s2 * 1.2 else s2
      case STUDYING =>
        var s1 := if Above(t.instrumentalness, 0.9) then 1.4 else 1.0;
        var s2 := if Below(t.speechiness, 0.05) then s1 * 1.3 else s1;
        if Below(t.energy, 0.4) then s2 * 1.2 else s2
      case RELAXING =>
        var s1 := if Below(t.energy, 0.3) then 1.4 else 1.0;
        var s2 := if Above(t.acousticness, 0.8) then s1 * 1.3 else s1;
        if Below(t.tempo, 100.0) then s2 * 1.2 else s2
      case COMMUTING =>
        var s1 := if Above(t.energy, 0.5) then 1.3 else 1.0;
        var s2 := if Above(t.danceability, 0.6) then s1 * 1.2 else s1;
        if Above(t.valence, 0.5) then s2 * 1.1 else s2
      case SOCIALIZING =>
        var s1 := if Above(t.danceability, 0.7) then 1.4 else 1.0;
        var s2 := if Above(t.valence, 0.6) then s1 * 1.3 else s1;
        if Above(t.energy, 0.6) then s2 * 1.2 else s2
      case GENERAL => 1.0
  }

  /** `calculateTimeScore`: 1.0 for no time of day; DAY only ever adds 10%. */
  function TimeScore(t: Track, time: Option<TimeOfDay>): (r: real)
    ensures 1.0 <= r <= 1.3 * 1.2 * 1.1
    ensures time.None? ==> r == 1.0
    ensures time == Some(DAY) ==> r == (if Within(t.energy, 0.4, 0.7) then 1.1 else 1.0)
  {
    if time.None? then 1.0
    else match time.value
      case MORNING =>
        var s1 := if Above(t.energy, 0.6) then 1.3 else 1.0;
        var s2 := if Above(t.valence, 0.6) then s1 * 1.2 else s1;
        if Above(t.tempo, 100.0) then s2 * 1.1 else s2
      case DAY =>
        if Within(t.energy, 0.4, 0.7) then 1.1 else 1.0
      case EVENING =>
        var s1 := if Above(t.valence, 0.5) then 1.2 else 1.0;
        if Above(t.danceability, 0.6) then s1 * 1.1 else s1
      case NIGHT =>
        var s1 := if Below(t.energy, 0.4) then 1.3 else 1.0;
        var s2 := if Above(t.acousticness, 0.6) then s1 * 1.2 else s1;
        if Below(t.tempo, 90.0) then s2 * 1.1 else s2
  }

  /** The product of three factors of at least 1 is at least 1. */
  function Product3(x: real, y: real, z: real): (r: real)
    requires x >= 1.0 && y >= 1.0 && z >= 1.0
    ensures r >= 1.0
    ensures x == 1.0 && y == 1.0 && z == 1.0 ==> r == 1.0
  {
    MulMonotone(1.0, y, x);
    MulMonotone(1.0, z, x * y);
    x * y * z
  }

  /** `calculateContextScore`: 1.0 times the mood, activity and time factors.
      Each factor is at least 1, so their product is too; with no context at
      all, or only the neutral mood and the general activity, it is 1. */
  function ContextScore(t: Track, mood: Option<Mood>, activity: Option<Activity>, time: Option<TimeOfDay>): (r: real)
    ensures r >= 1.0
    ensures ((mood.None? || mood == Some(Mood.NEUTRAL)) && (activity.None? || activity == Some(GENERAL))
      && time.None?) ==> r == 1.0
  {
    Product3(MoodScore(t, mood), ActivityScore(t, activity), TimeScore(t, time))
  }

  /** `score * contextScore`. */
  function Weighted(score: real, c: real): real { score * c }

  /** Multiplying a non-negative score by a factor of at least 1 never
      lowers it, and a factor of 1 leaves it alone. */
  lemma WeightedNeverLower(score: real, c: real)
    requires c >= 1.0
    ensures score >= 0.0 ==> Weighted(score, c) >= score
    ensures c == 1.0 ==> Weighted(score, c) == score
  {
    if score >= 0.0 {
      MulMonotone(1.0, c, score);
    }
  }

  /** A score `after` that is `before` weighted by the context score of `t`. */
  predicate ContextWeighted(before: real, after: real, t: Track, mood: Option<Mood>, activity: Option<Activity>, time: Option<TimeOfDay>) {
    after == Weighted(before, ContextScore(t, mood, activity, time))
  }

  /** Context weighting never lowers a non-negative score, and leaves every
      score alone when there is no context. */
  lemma ContextWeightedNeverLower(before: real, after: real, t: Track, mood: Option<Mood>, activity: Option<Activity>, time: Option<TimeOfDay>)
    requires ContextWeighted(before, after, t, mood, activity, time)
    ensures before >= 0.0 ==> after >= before
    ensures mood.None? && activity.None? && time.None? ==> after == before
  {
    WeightedNeverLower(before, ContextScore(t, mood, activity, time));
  }

  /** `applyContextWeights`: every score is multiplied by its track's context
      score under the user's current mood, activity and time of day; the list
      itself comes back unchanged, so its length and order are kept. An empty
      list is returned as is. */
  method ApplyContextWeights(recs: seq<TrackRecommendation>, user: User) returns (result: seq<TrackRecommendation>)
    requires Distinct(recs)
    modifies (set r | r in recs)`score
    ensures result == recs
    ensures forall k :: 0 <= k < |recs| ==>
      ContextWeighted(old(recs[k].score), recs[k].score, recs[k].track, user.currentMood, user.currentActivity, user.timeOfDay)
  {
    if |recs| == 0 {
      return recs;
    }
    var mood, activity, time := user.currentMood, user.currentActivity, user.timeOfDay;
    var i := 0;
    while i < |recs|
      invariant 0 <= i <= |recs|
      invariant forall k :: 0 <= k < i ==> ContextWeighted(old(recs[k].score), recs[k].score, recs[k].track, mood, activity, time)
      invariant forall k :: i <= k < |recs| ==> recs[k].score == old(recs[k].score)
    {
      var rec := recs[i];
      var contextScore := ContextScore(rec.track, mood, activity, time);
      rec.SetScore(Weighted(rec.score, contextScore));
      i := i + 1;
    }
    return recs;
  }

  /** `getCurrentTimeOfDay` for a given hour of the clock. */
  function TimeOfDayForHour(hour: int): (r: TimeOfDay)
    ensures r == MORNING <==> 5 <= hour < 12
    ensures r == DAY <==> 12 <= hour < 17
    ensures r == EVENING <==> 17 <= hour < 22
    ensures r == NIGHT <==> hour < 5 || hour >= 22
  {
    if hour >= 5 && hour < 12 then MORNING
    else if hour >= 12 && hour < 17 then DAY
    else if hour >= 17 && hour < 22 then EVENING
    else NIGHT
  }

  /** One `text. ` segment, present only when its condition holds. */
  function Segment(cond: bool, text: string): string {
    if cond then text + ". " else ""
  }

  function MoodSegment(mood: Option<Mood>): string {
    if mood.Some? then Segment(true, "Mood: " + MoodName(mood.value)) else ""
  }

  function ActivitySegment(activity: Option<Activity>): string {
    if activity.Some? then Segment(true, "Activity: " + ActivityName(activity.value)) else ""
  }

  function TimeSegment(time: Option<TimeOfDay>): string {
    if time.Some? then Segment(true, "Time: " + TimeName(time.value)) else ""
  }

  /** The audio-feature highlights, each for a value above 0.8. */
  function Highlights(t: Track): string {
    Segment(Above(t.energy, 0.8), "High energy")
    + Segment(Above(t.danceability, 0.8), "Very danceable")
    + Segment(Above(t.acousticness, 0.8), "Acoustic")
    + Segment(Above(t.instrumentalness, 0.8), "Instrumental")
  }

  /** The text `getContextDescription` builds before trimming. */
  function RawContextDescription(t: Track, mood: Option<Mood>, activity: Option<Activity>, time: Option<TimeOfDay>): string {
    MoodSegment(mood) + (ActivitySegment(activity) + (TimeSegment(time) + Highlights(t)))
  }

  /** `getContextDescription`: the segments, trimmed. */
  function ContextDescription(t: Track, mood: Option<Mood>, activity: Option<Activity>, time: Option<TimeOfDay>): string {
    JavaTrim(RawContextDescription(t, mood, activity, time))
  }

  /** Text that is empty or ends in a full stop and a space. */
  predicate EndsDotSpace(s: string) {
    s == [] || (|s| >= 2 && s[|s| - 2] == '.' && s[|s| - 1] == ' ')
  }

  /** Text that is empty or starts with a character trim keeps. */
  predicate StartsSolid(s: string) {
    s == [] || !IsJavaSpace(s[0])
  }

  lemma SegmentShape(cond: bool, text: string)
    requires |text| > 0 && !IsJavaSpace(text[0])
    ensures EndsDotSpace(Segment(cond, text)) && StartsSolid(Segment(cond, text))
  {
  }

  lemma JoinShape(a: string, b: string)
    requires EndsDotSpace(a) && StartsSolid(a) && EndsDotSpace(b) && StartsSolid(b)
    ensures EndsDotSpace(a + b) && StartsSolid(a + b)
  {
    if a == [] {
      assert a + b == b;
    } else if b != [] {
      assert (a + b)[0] == a[0];
    }
  }

  lemma HighlightsShape(t: Track)
    ensures EndsDotSpace(Highlights(t)) && StartsSolid(Highlights(t))
  {
    var p4 := Segment(Above(t.energy, 0.8), "High energy");
    var p5 := Segment(Above(t.danceability, 0.8), "Very danceable");
    var p6 := Segment(Above(t.acousticness, 0.8), "Acoustic");
    var p7 := Segment(Above(t.instrumentalness, 0.8), "Instrumental");
    SegmentShape(Above(t.energy, 0.8), "High energy");
    SegmentShape(Above(t.danceability, 0.8), "Very danceable");
    SegmentShape(Above(t.acousticness, 0.8), "Acoustic");
    SegmentShape(Above(t.instrumentalness, 0.8), "Instrumental");
    JoinShape(p4, p5);
    JoinShape(p4 + p5, p6);
    JoinShape(p4 + p5 + p6, p7);
  }

  lemma RawContextDescriptionShape(t: Track, mood: Option<Mood>, activity: Option<Activity>, time: Option<TimeOfDay>)
    ensures EndsDotSpace(RawContextDescription(t, mood, activity, time))
    ensures StartsSolid(RawContextDescription(t, mood, activity, time))
  {
    if mood.Some? { SegmentShape(true, "Mood: " + MoodName(mood.value)); }
    if activity.Some? { SegmentShape(true, "Activity: " + ActivityName(activity.value)); }
    if time.Some? { SegmentShape(true, "Time: " + TimeName(time.value)); }
    HighlightsShape(t);
    JoinShape(TimeSegment(time), Highlights(t));
    JoinShape(ActivitySegment(activity), TimeSegment(time) + Highlights(t));
    JoinShape(MoodSegment(mood), ActivitySegment(activity) + (TimeSegment(time) + Highlights(t)));
  }

  /** Trimming only removes the final space the last segment leaves: the
      description is the raw segments minus their last character, and empty
      when no segment applies. */
  lemma ContextDescriptionDropsLastSpace(t: Track, mood: Option<Mood>, activity: Option<Activity>, time: Option<TimeOfDay>)
    ensures var raw := RawContextDescription(t, mood, activity, time);
      ContextDescription(t, mood, activity, time) == if raw == [] then [] else raw[..|raw| - 1]
  {
    RawContextDescriptionShape(t, mood, activity, time);
    TrimShaped(RawContextDescription(t, mood, activity, time));
  }

  /** Trimming text made of whole segments drops only its final space. */
  lemma TrimShaped(s: string)
    requires EndsDotSpace(s) && StartsSolid(s)
    ensures JavaTrim(s) == if s == [] then [] else s[..|s| - 1]
  {
    if s != [] {
      TrimDropsOneSpace(s, IsJavaSpace);
    }
  }

  /** With a mood set, the description opens with that mood's segment. */
  lemma ContextDescriptionStartsWithMood(t: Track, m: Mood, activity: Option<Activity>, time: Option<TimeOfDay>)
    ensures var p := "Mood: " + MoodName(m) + ".";
      var d := ContextDescription(t, Some(m), activity, time);
      |d| >= |p| && d[..|p|] == p
  {
    ContextDescriptionDropsLastSpace(t, Some(m), activity, time);
    MoodRawSplit(t, m, activity, time);
  }

  /** The raw text with a mood set is the mood's segment followed by the others. */
  lemma MoodRawSplit(t: Track, m: Mood, activity: Option<Activity>, time: Option<TimeOfDay>)
    requires var raw := RawContextDescription(t, Some(m), activity, time);
      ContextDescription(t, Some(m), activity, time) == if raw == [] then [] else raw[..|raw| - 1]
    ensures var p := "Mood: " + MoodName(m) + ".";
      var d := ContextDescription(t, Some(m), activity, time);
      |d| >= |p| && d[..|p|] == p
  {
    SegmentPrefix(ContextDescription(t, Some(m), activity, time), RawContextDescription(t, Some(m), activity, time),
      "Mood: " + MoodName(m), ActivitySegment(activity) + (TimeSegment(time) + Highlights(t)));
  }

  /** Dropping the last character of a text that opens with the segment
      `x. ` keeps `x.` in front. */
  lemma SegmentPrefix(d: string, raw: string, x: string, rest: string)
    requires raw == (x + ". ") + rest
    requires d == if raw == [] then [] else raw[..|raw| - 1]
    ensures |d| >= |x + "."| && d[..|x + "."|] == x + "."
  {
    assert d[..|x + "."|] == raw[..|x + "."|];
  }

  /** With no context and no highlighted feature the description is empty. */
  lemma ContextDescriptionEmpty(t: Track)
    requires !Above(t.energy, 0.8) && !Above(t.danceability, 0.8)
    requires !Above(t.acousticness, 0.8) && !Above(t.instrumentalness, 0.8)
    ensures ContextDescription(t, None, None, None) == ""
  {
    ContextDescriptionDropsLastSpace(t, None, None, None);
  }

  /** `calculateContextFitScore`: 0.4·mood + 0.4·activity + 0.2·time, so it
      lies between 1 and the largest weighted factor sum. */
  function ContextFitScore(t: Track, mood: Option<Mood>, activity: Option<Activity>, time: Option<TimeOfDay>): (r: real)
    ensures 1.0 <= r <= 0.4 * (1.4 * 1.3 * 1.2) + 0.4 * (1.4 * 1.3 * 1.2) + 0.2 * (1.3 * 1.2 * 1.1)
  {
    MoodScore(t, mood) * 0.4 + ActivityScore(t, activity) * 0.4 + TimeScore(t, time) * 0.2
  }

  /** The fit score is 1 exactly when all three factors are 1. */
  lemma ContextFitScoreOne(t: Track, mood: Option<Mood>, activity: Option<Activity>, time: Option<TimeOfDay>)
    ensures ContextFitScore(t, mood, activity, time) == 1.0 <==>
      MoodScore(t, mood) == 1.0 && ActivityScore(t, activity) == 1.0 && TimeScore(t, time) == 1.0
  {
  }
}
