/** The Java `UserTrackInteraction` entity: what one user did with one track
    (explicit rating, play and skip counters, like status, completion rate
    and timestamps) and the ratings derived from it. Timestamps are abstract
    instants; the moment `LocalDateTime.now()` would read is a parameter. */
module Interaction {
  import opened Common
  import opened TrackModel

  datatype LikeStatus = LIKED | DISLIKED | NEUTRAL

  /** An instant on the application clock. */
  type Instant = int

  /** `getImplicitRating`: up to 3 points for plays, up to 2 off for skips,
      a completion bonus, ±2 for the like status, then clamped into [0,5]. */
  function ImplicitRating(playCount: int, skipCount: int, completionRate: real, like: LikeStatus): (r: real)
    ensures 0.0 <= r <= 5.0
  {
    var r0 := 0.0;
    var r1 := if playCount > 0 then r0 + MinR(playCount as real * 0.5, 3.0) else r0;
    var r2 := if skipCount > 0 then r1 - MinR(skipCount as real * 0.3, 2.0) else r1;
    var r3 := if completionRate > 0.8 then r2 + 1.0 else if completionRate > 0.5 then r2 + 0.5 else r2;
    var r4 := match like
      case LIKED => r3 + 2.0
      case DISLIKED => r3 - 2.0
      case NEUTRAL => r3;
    MaxR(0.0, MinR(5.0, r4))
  }

  /** The unclamped sum of the four terms. */
  function RatingTerms(playCount: int, skipCount: int, completionRate: real, like: LikeStatus): real {
    (if playCount > 0 then MinR(playCount as real * 0.5, 3.0) else 0.0)
    - (if skipCount > 0 then MinR(skipCount as real * 0.3, 2.0) else 0.0)
    + (if completionRate > 0.8 then 1.0 else if completionRate > 0.5 then 0.5 else 0.0)
    + (match like case LIKED => 2.0 case DISLIKED => -2.0 case NEUTRAL => 0.0)
  }

  /** The implicit rating is the term sum clamped into [0,5]; the sum itself
      already lies in [-4,6], so the clamp is reached at both ends. */
  lemma ImplicitRatingIsClampedTerms(p: int, s: int, c: real, like: LikeStatus)
    ensures ImplicitRating(p, s, c, like) == MaxR(0.0, MinR(5.0, RatingTerms(p, s, c, like)))
    ensures -4.0 <= RatingTerms(p, s, c, like) <= 6.0
  {
  }

  /** More plays never lower the implicit rating and more skips never raise it. */
  lemma ImplicitRatingMonotone(p: int, p': int, s: int, s': int, c: real, like: LikeStatus)
    requires p <= p' && s' <= s
    ensures ImplicitRating(p, s, c, like) <= ImplicitRating(p', s', c, like)
  {
  }

  /** A like never lowers the implicit rating below neutral, a dislike never
      raises it above. */
  lemma ImplicitRatingLikeOrder(p: int, s: int, c: real)
    ensures ImplicitRating(p, s, c, DISLIKED) <= ImplicitRating(p, s, c, NEUTRAL)
    ensures ImplicitRating(p, s, c, NEUTRAL) <= ImplicitRating(p, s, c, LIKED)
  {
  }

  /** `getEffectiveRating`: the explicit rating when there is one. */
  function EffectiveRating(rating: Option<int>, implicit: real): real {
    if rating.Some? then rating.value as real else implicit
  }

  predicate IsPositiveRating(effective: real) { effective >= 3.5 }
  predicate IsNegativeRating(effective: real) { effective <= 2.0 }

  /** No interaction is both positive and negative, and an effective rating
      strictly between 2.0 and 3.5 is neither. */
  lemma PositiveNegativeExclusive(e: real)
    ensures !(IsPositiveRating(e) && IsNegativeRating(e))
    ensures 2.0 < e < 3.5 ==> !IsPositiveRating(e) && !IsNegativeRating(e)
  {
  }

  class UserTrackInteraction {
    /** The `spotifyUserId` of the interaction's user. */
    const userId: string
    const track: Track
    var rating: Option<int>
    var playCount: int
    var skipCount: int
    var likeStatus: LikeStatus
    var completionRate: real
    var firstPlayedAt: Option<Instant>
    var lastPlayedAt: Option<Instant>
    var ratedAt: Option<Instant>

    /**
     * `new UserTrackInteraction(user, track)`: the clock is read twice,
     * `firstNow` for the first play time and then `lastNow` for the last.
     */
    constructor (userId: string, track: Track, firstNow: Instant, lastNow: Instant)
      ensures this.userId == userId && this.track == track
      ensures rating.None? && playCount == 0 && skipCount == 0 && likeStatus == NEUTRAL
      ensures completionRate == 0.0 && ratedAt.None?
      ensures firstPlayedAt == Some(firstNow) && lastPlayedAt == Some(lastNow)
    {
      this.userId := userId;
      this.track := track;
      rating := None;
      playCount := 0;
      skipCount := 0;
      likeStatus := NEUTRAL;
      completionRate := 0.0;
      firstPlayedAt := Some(firstNow);
      lastPlayedAt := Some(lastNow);
      ratedAt := None;
    }

    /** `setRating`: a null rating leaves the rating time alone. */
    method SetRating(r: Option<int>, now: Instant)
      modifies this`rating, this`ratedAt
      ensures rating == r
      ensures ratedAt == if r.Some? then Some(now) else old(ratedAt)
    {
      rating := r;
      if r.Some? {
        ratedAt := Some(now);
      }
    }

    method SetLikeStatus(s: LikeStatus)
      modifies this`likeStatus
      ensures likeStatus == s
    {
      likeStatus := s;
    }

    method SetCompletionRate(x: real)
      modifies this`completionRate
      ensures 0.0 <= completionRate <= 1.0
      ensures completionRate == Clamp01(x)
    {
      completionRate := MaxR(0.0, MinR(1.0, x));
    }

    /**
     * `recordPlay`: `lastNow` is the clock read for the last play time and
     * `firstNow` the later read made only when no first play time is set.
     */
    method RecordPlay(lastNow: Instant, firstNow: Instant)
      modifies this`playCount, this`lastPlayedAt, this`firstPlayedAt
      ensures playCount == old(playCount) + 1
      ensures lastPlayedAt == Some(lastNow)
      ensures firstPlayedAt == if old(firstPlayedAt).None? then Some(firstNow) else old(firstPlayedAt)
    {
      playCount := playCount + 1;
      lastPlayedAt := Some(lastNow);
      if firstPlayedAt.None? {
        firstPlayedAt := Some(firstNow);
      }
    }

    method RecordSkip(now: Instant)
      modifies this`skipCount, this`lastPlayedAt
      ensures skipCount == old(skipCount) + 1
      ensures lastPlayedAt == Some(now)
    {
      skipCount := skipCount + 1;
      lastPlayedAt := Some(now);
    }

    function GetImplicitRating(): (r: real)
      reads this
      ensures 0.0 <= r <= 5.0
    {
      ImplicitRating(playCount, skipCount, completionRate, likeStatus)
    }

    function GetEffectiveRating(): (r: real)
      reads this
      ensures rating.Some? ==> r == rating.value as real
      ensures rating.None? ==> 0.0 <= r <= 5.0
    {
      EffectiveRating(rating, GetImplicitRating())
    }

    predicate IsPositive()
      reads this
    {
      IsPositiveRating(GetEffectiveRating())
    }

    predicate IsNegative()
      reads this
    {
      IsNegativeRating(GetEffectiveRating())
    }
  }

  /** `equals`: the same user (by Spotify user id) and the same track. */
  predicate SameInteraction(a: UserTrackInteraction, b: UserTrackInteraction) {
    a.userId == b.userId && SameTrack(a.track, b.track)
  }
}
