/** The Java `User` entity: preference levels clamped into [0,1],
    lower-cased preferred genres and artists, the current listening context,
    discovery counters and the user's track interactions, with the queries
    that select liked, disliked and recently played tracks. */
module UserModel {
  import opened Common
  import opened Text
  import opened TrackModel
  import opened ContextTypes
  import opened Interaction

  function RatingOf(i: UserTrackInteraction): int
    reads i
    requires i.rating.Some?
  {
    i.rating.value
  }

  /** Every interaction carries a rating: the stream filters of
      `getLikedTracks`/`getDislikedTracks` unbox it and throw otherwise. */
  predicate AllRated(xs: seq<UserTrackInteraction>)
    reads set i | i in xs
  {
    forall i :: i in xs ==> i.rating.Some?
  }

  /** `getLikedTracks` keeps ratings of 4 and up, `getDislikedTracks` ratings
      of 2 and below. */
  predicate IsLikedRating(r: int) { r >= 4 }
  predicate IsDislikedRating(r: int) { r <= 2 }

  /** An interaction with the rating the stream reads from it. */
  datatype RatedEntry = RatedEntry(interaction: UserTrackInteraction, rating: int)

  /** The entries whose rating passes `keep`. */
  function Passes(keep: int -> bool): RatedEntry -> bool {
    (e: RatedEntry) => keep(e.rating)
  }

  function EntryInteraction(e: RatedEntry): UserTrackInteraction { e.interaction }
  function EntryTrack(e: RatedEntry): Track { e.interaction.track }

  /** The interactions paired with their ratings, in list order. */
  function Ratings(xs: seq<UserTrackInteraction>): (r: seq<RatedEntry>)
    reads set i | i in xs
    requires AllRated(xs)
    ensures |r| == |xs|
    ensures forall k :: 0 <= k < |xs| ==> r[k] == RatedEntry(xs[k], xs[k].rating.value)
  {
    if xs == [] then [] else Ratings(xs[..|xs| - 1]) + [RatedEntry(xs[|xs| - 1], xs[|xs| - 1].rating.value)]
  }

  /** The stream `filter` on the rating, written by recursion on the head. */
  function Selected(xs: seq<UserTrackInteraction>, keep: int -> bool): (r: seq<UserTrackInteraction>)
    reads set i | i in xs
    requires AllRated(xs)
    ensures forall k :: 0 <= k < |r| ==> r[k] in xs && keep(r[k].rating.value)
    ensures forall k :: 0 <= k < |xs| && keep(xs[k].rating.value) ==> xs[k] in r
  {
    if xs == [] then []
    else (if keep(xs[0].rating.value) then [xs[0]] else []) + Selected(xs[1..], keep)
  }

  /** The recursive selection is the filter over the rating snapshot: same
      interactions, same order, same repeats. */
  lemma {:induction false} SelectedIsFilter(xs: seq<UserTrackInteraction>, keep: int -> bool)
    requires AllRated(xs)
    ensures Selected(xs, keep) == Map(Filter(Ratings(xs), Passes(keep)), EntryInteraction)
  {
    if xs != [] {
      var tail := xs[1..];
      var e := RatedEntry(xs[0], xs[0].rating.value);
      var rest := Filter(Ratings(tail), Passes(keep));
      SelectedIsFilter(tail, keep);
      RatingsCons(xs);
      FilterCons(e, Ratings(tail), Passes(keep));
      if keep(xs[0].rating.value) {
        assert Filter(Ratings(xs), Passes(keep)) == [e] + rest;
        MapCons(e, rest, EntryInteraction);
      } else {
        assert Filter(Ratings(xs), Passes(keep)) == rest;
      }
    }
  }

  lemma RatingsCons(xs: seq<UserTrackInteraction>)
    requires AllRated(xs) && xs != []
    ensures AllRated(xs[1..])
    ensures Ratings(xs) == [RatedEntry(xs[0], xs[0].rating.value)] + Ratings(xs[1..])
  {
    var tail := xs[1..];
    assert forall k :: 0 <= k < |tail| ==> tail[k] == xs[k + 1];
  }

  /** The interactions with rating >= 4: exactly the stream filter, keeping
      list order and repeats. */
  function LikedInteractions(xs: seq<UserTrackInteraction>): (r: seq<UserTrackInteraction>)
    reads set i | i in xs
    requires AllRated(xs)
    ensures r == Map(Filter(Ratings(xs), Passes(IsLikedRating)), EntryInteraction)
    ensures forall k :: 0 <= k < |r| ==> r[k] in xs && r[k].rating.value >= 4
    ensures forall k :: 0 <= k < |xs| && xs[k].rating.value >= 4 ==> xs[k] in r
  {
    SelectedIsFilter(xs, IsLikedRating);
    Selected(xs, IsLikedRating)
  }

  /** The interactions with rating <= 2: exactly the stream filter, keeping
      list order and repeats. */
  function DislikedInteractions(xs: seq<UserTrackInteraction>): (r: seq<UserTrackInteraction>)
    reads set i | i in xs
    requires AllRated(xs)
    ensures r == Map(Filter(Ratings(xs), Passes(IsDislikedRating)), EntryInteraction)
    ensures forall k :: 0 <= k < |r| ==> r[k] in xs && r[k].rating.value <= 2
    ensures forall k :: 0 <= k < |xs| && xs[k].rating.value <= 2 ==> xs[k] in r
  {
    SelectedIsFilter(xs, IsDislikedRating);
    Selected(xs, IsDislikedRating)
  }

  /** The tracks of the selected interactions are the selected entries' tracks. */
  lemma TracksOfSelected(sel: seq<RatedEntry>)
    ensures Map(Map(sel, EntryInteraction), TrackOf) == Map(sel, EntryTrack)
  {
  }

  function TrackOf(i: UserTrackInteraction): Track { i.track }

  /** No interaction is both liked and disliked, and one rated 3 is neither. */
  lemma LikedDislikedDisjoint(xs: seq<UserTrackInteraction>)
    requires AllRated(xs)
    ensures forall k :: 0 <= k < |LikedInteractions(xs)| ==> LikedInteractions(xs)[k] !in DislikedInteractions(xs)
    ensures forall k :: 0 <= k < |xs| && xs[k].rating.value == 3 ==>
      xs[k] !in LikedInteractions(xs) && xs[k] !in DislikedInteractions(xs)
  {
  }

  /** Interaction `k` of `xs` is of track `t` and its rating passes `keep`. */
  ghost predicate RatedTrack(xs: seq<UserTrackInteraction>, k: int, keep: int -> bool, t: Track)
    reads set i | i in xs
    requires AllRated(xs)
  {
    0 <= k < |xs| && keep(xs[k].rating.value) && xs[k].track == t
  }

  /** The tracks of a selection of interactions are exactly the tracks of
      the interactions whose rating lies in [lo, hi]. */
  lemma TracksOfMembers(sel: seq<UserTrackInteraction>, xs: seq<UserTrackInteraction>, keep: int -> bool)
    requires AllRated(xs)
    requires forall k :: 0 <= k < |sel| ==> sel[k] in xs && keep(sel[k].rating.value)
    requires forall k :: 0 <= k < |xs| && keep(xs[k].rating.value) ==> xs[k] in sel
    ensures forall t :: t in Map(sel, TrackOf) <==> exists k :: RatedTrack(xs, k, keep, t)
  {
    var r := Map(sel, TrackOf);
    forall t | t in r ensures exists k :: RatedTrack(xs, k, keep, t) {
      var j :| 0 <= j < |r| && r[j] == t;
      var k :| 0 <= k < |xs| && xs[k] == sel[j];
      assert RatedTrack(xs, k, keep, t);
    }
    forall k | 0 <= k < |xs| && keep(xs[k].rating.value) ensures xs[k].track in r {
      var j :| 0 <= j < |sel| && sel[j] == xs[k];
      assert r[j] == xs[k].track;
    }
  }

  /** A pair (track, when it was last played) that `getRecentlyPlayedTracks`
      sorts on. */
  datatype Played = Played(track: Track, at: Instant)

  function PlayedAt(p: Played): real { p.at as real }

  /** The interactions as sort keys. A missing timestamp only matters when the
      sort has two elements to compare, and then it throws. */
  function PlayedSnapshot(xs: seq<UserTrackInteraction>): (r: seq<Played>)
    reads set i | i in xs
    ensures |r| == |xs|
    ensures forall k :: 0 <= k < |xs| ==> r[k].track == xs[k].track
  {
    if xs == [] then []
    else [Played(xs[0].track, xs[0].lastPlayedAt.GetOr(0))] + PlayedSnapshot(xs[1..])
  }

  predicate AllPlayed(xs: seq<UserTrackInteraction>)
    reads set i | i in xs
  {
    forall i :: i in xs ==> i.lastPlayedAt.Some?
  }

  /** `getRecentlyPlayedTracks(limit)`: stable sort by last-played time, latest
      first, then at most `limit` of them. */
  function RecentlyPlayed(xs: seq<UserTrackInteraction>, limit: nat): (r: seq<Played>)
    reads set i | i in xs
    requires |xs| >= 2 ==> AllPlayed(xs)
    ensures |r| == MinI(limit, |xs|)
    ensures forall a, b :: 0 <= a < b < |r| ==> r[a].at >= r[b].at
    ensures forall p :: p in r ==> p in PlayedSnapshot(xs)
    ensures multiset(r) <= multiset(PlayedSnapshot(xs))
    ensures forall p, q :: p in r && q in PlayedSnapshot(xs) && q !in r ==> q.at <= p.at
  {
    var ps := PlayedSnapshot(xs);
    LatestOf(ps, limit);
    Take(SortDesc(ps, PlayedAt), limit)
  }

  /** The latest `limit` plays, as a fact about snapshots alone. */
  lemma LatestOf(ps: seq<Played>, limit: nat)
    ensures var r := Take(SortDesc(ps, PlayedAt), limit);
      && |r| == MinI(limit, |ps|)
      && (forall a, b :: 0 <= a < b < |r| ==> r[a].at >= r[b].at)
      && (forall p :: p in r ==> p in ps)
      && multiset(r) <= multiset(ps)
      && (forall p, q :: p in r && q in ps && q !in r ==> q.at <= p.at)
  {
    var sorted := SortDesc(ps, PlayedAt);
    var k := MinI(limit, |ps|);
    var r := sorted[..k];
    assert Take(sorted, limit) == r;
    TakeSubMultiset(sorted, limit);
    SortDescElems(ps, PlayedAt);
    PrefixDominates(sorted, PlayedAt, k);
    forall a, b | 0 <= a < b < |r| ensures r[a].at >= r[b].at {
      assert PlayedAt(sorted[a]) >= PlayedAt(sorted[b]);
    }
    forall p, q | p in r && q in ps && q !in r ensures q.at <= p.at {
      assert PlayedAt(p) >= PlayedAt(q);
    }
  }

  class User {
    var spotifyUserId: string
    var explorationLevel: real
    var diversityPreference: real
    var noveltyPreference: real
    var preferredGenres: set<string>
    var preferredArtists: set<string>
    var currentMood: Option<Mood>
    var currentActivity: Option<Activity>
    var timeOfDay: Option<TimeOfDay>
    var trackInteractions: seq<UserTrackInteraction>
    var tracksDiscovered: int
    var newArtistsDiscovered: int
    var diversityScore: real
    var explorationScore: real
    var lastActive: Instant

    /** `new User(spotifyUserId, displayName)` with the field defaults. */
    constructor (spotifyUserId: string, now: Instant)
      ensures this.spotifyUserId == spotifyUserId
      ensures explorationLevel == 0.3 && diversityPreference == 0.5 && noveltyPreference == 0.4
      ensures currentMood == Some(Mood.NEUTRAL) && currentActivity == Some(GENERAL) && timeOfDay == Some(DAY)
      ensures preferredGenres == {} && preferredArtists == {} && trackInteractions == []
      ensures tracksDiscovered == 0 && newArtistsDiscovered == 0
      ensures diversityScore == 0.0 && explorationScore == 0.0
      ensures lastActive == now
    {
      this.spotifyUserId := spotifyUserId;
      explorationLevel := 0.3;
      diversityPreference := 0.5;
      noveltyPreference := 0.4;
      preferredGenres := {};
      preferredArtists := {};
      currentMood := Some(Mood.NEUTRAL);
      currentActivity := Some(GENERAL);
      timeOfDay := Some(DAY);
      trackInteractions := [];
      tracksDiscovered := 0;
      newArtistsDiscovered := 0;
      diversityScore := 0.0;
      explorationScore := 0.0;
      lastActive := now;
    }

    method SetExplorationLevel(x: real)
      modifies this`explorationLevel
      ensures explorationLevel == Clamp01(x)
    {
      explorationLevel := MaxR(0.0, MinR(1.0, x));
    }

    method SetDiversityPreference(x: real)
      modifies this`diversityPreference
      ensures diversityPreference == Clamp01(x)
    {
      diversityPreference := MaxR(0.0, MinR(1.0, x));
    }

    method SetNoveltyPreference(x: real)
      modifies this`noveltyPreference
      ensures noveltyPreference == Clamp01(x)
    {
      noveltyPreference := MaxR(0.0, MinR(1.0, x));
    }

    method SetDiversityScore(x: real)
      modifies this`diversityScore
      ensures diversityScore == Clamp01(x)
    {
      diversityScore := MaxR(0.0, MinR(1.0, x));
    }

    method SetExplorationScore(x: real)
      modifies this`explorationScore
      ensures explorationScore == Clamp01(x)
    {
      explorationScore := MaxR(0.0, MinR(1.0, x));
    }

    method SetContext(mood: Option<Mood>, activity: Option<Activity>, time: Option<TimeOfDay>)
      modifies this`currentMood, this`currentActivity, this`timeOfDay
      ensures currentMood == mood && currentActivity == activity && timeOfDay == time
    {
      currentMood := mood;
      currentActivity := activity;
      timeOfDay := time;
    }

    method SetTrackInteractions(xs: seq<UserTrackInteraction>)
      modifies this`trackInteractions
      ensures trackInteractions == xs
    {
      trackInteractions := xs;
    }

    method AddPreferredGenre(genre: string)
      modifies this`preferredGenres
      ensures preferredGenres == old(preferredGenres) + {Lower(genre)}
    {
      preferredGenres := preferredGenres + {Lower(genre)};
    }

    method AddPreferredArtist(artist: string)
      modifies this`preferredArtists
      ensures preferredArtists == old(preferredArtists) + {Lower(artist)}
    {
      preferredArtists := preferredArtists + {Lower(artist)};
    }

    method RecordDiscovery(track: Track, isNewArtist: bool, now: Instant)
      modifies this`tracksDiscovered, this`newArtistsDiscovered, this`lastActive
      ensures tracksDiscovered == old(tracksDiscovered) + 1
      ensures newArtistsDiscovered == old(newArtistsDiscovered) + (if isNewArtist then 1 else 0)
      ensures lastActive == now
    {
      tracksDiscovered := tracksDiscovered + 1;
      if isNewArtist {
        newArtistsDiscovered := newArtistsDiscovered + 1;
      }
      lastActive := now;
    }

    function GetLikedTracks(): (r: seq<Track>)
      reads this, set i | i in trackInteractions
      requires AllRated(trackInteractions)
      ensures r == Map(Filter(Ratings(trackInteractions), Passes(IsLikedRating)), EntryTrack)
      ensures forall t :: t in r <==> exists k :: RatedTrack(trackInteractions, k, IsLikedRating, t)
    {
      var liked := LikedInteractions(trackInteractions);
      TracksOfMembers(liked, trackInteractions, IsLikedRating);
      TracksOfSelected(Filter(Ratings(trackInteractions), Passes(IsLikedRating)));
      Map(liked, TrackOf)
    }

    function GetDislikedTracks(): (r: seq<Track>)
      reads this, set i | i in trackInteractions
      requires AllRated(trackInteractions)
      ensures r == Map(Filter(Ratings(trackInteractions), Passes(IsDislikedRating)), EntryTrack)
      ensures forall t :: t in r <==> exists k :: RatedTrack(trackInteractions, k, IsDislikedRating, t)
    {
      var disliked := DislikedInteractions(trackInteractions);
      TracksOfMembers(disliked, trackInteractions, IsDislikedRating);
      TracksOfSelected(Filter(Ratings(trackInteractions), Passes(IsDislikedRating)));
      Map(disliked, TrackOf)
    }

    /** A negative `limit` makes `Stream.limit` throw IllegalArgumentException. */
    function GetRecentlyPlayedTracks(limit: int): (r: Result<seq<Track>>)
      reads this, set i | i in trackInteractions
      requires |trackInteractions| >= 2 ==> AllPlayed(trackInteractions)
      ensures r.Err? <==> limit < 0
      ensures r.Ok? ==> |r.value| == MinI(limit, |trackInteractions|)
      ensures r.Ok? ==> forall k :: 0 <= k < |r.value| ==>
        r.value[k] == RecentlyPlayed(trackInteractions, limit)[k].track
    {
      if limit < 0 then Err("IllegalArgumentException")
      else Ok(Map(RecentlyPlayed(trackInteractions, limit), (p: Played) => p.track))
    }
  }

  /** `User.equals`: equal Spotify user ids. */
  predicate SameUser(a: User, b: User)
    reads a, b
  {
    a.spotifyUserId == b.spotifyUserId
  }

  /** `User.hashCode`, `Objects.hash(spotifyUserId)`. */
  function UserHash(u: User): int
    reads u
  {
    Wrap32(31 + StringHash(u.spotifyUserId))
  }

  /** Equal users hash alike, and `SameUser` is an equivalence relation. */
  lemma UserHashAgreesWithEquals(a: User, b: User, c: User)
    ensures SameUser(a, b) ==> UserHash(a) == UserHash(b)
    ensures SameUser(a, a)
    ensures SameUser(a, b) ==> SameUser(b, a)
    ensures SameUser(a, b) && SameUser(b, c) ==> SameUser(a, c)
  {
  }

  /** Adding a name in another letter case adds nothing new: the stored form
      is already lower case. */
  lemma PreferredNameCaseInsensitive(names: set<string>, name: string)
    requires Lower(name) in names
    ensures names + {Lower(Lower(name))} == names
  {
    LowerIdempotent(name);
  }
}
