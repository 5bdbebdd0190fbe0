/** The Java `UserPlaylist` entity: an ordered track list without repeated
    tracks (by Spotify id) and two cached aggregates, the track count and the
    total duration, which the list operations refresh. */
module Playlist {
  import opened Common
  import opened Text
  import opened TrackModel

  datatype PlaylistType =
    USER_CREATED | SYSTEM_RECOMMENDATION | DISCOVERY_PLAYLIST | MOOD_BASED | ACTIVITY_BASED

  /** `isSystemRecommendation`: every type except a user-created playlist. */
  function IsSystemRecommendation(t: PlaylistType): (r: bool)
    ensures r <==> t != USER_CREATED
  {
    t == SYSTEM_RECOMMENDATION || t == DISCOVERY_PLAYLIST || t == MOOD_BASED || t == ACTIVITY_BASED
  }

  /** `List.contains` under `Track.equals`. */
  predicate ContainsTrack(s: seq<Track>, t: Track) {
    exists i :: 0 <= i < |s| && SameTrack(s[i], t)
  }

  /** No two tracks of `s` are equal under `Track.equals`. */
  predicate NoRepeats(s: seq<Track>) {
    forall i, j :: 0 <= i < j < |s| ==> s[i].spotifyId != s[j].spotifyId
  }

  function DurationOrZero(t: Track): int { t.durationMs.GetOr(0) }

  /** `updateTotalDuration`: the sum of the durations, a null one counted as 0. */
  function TotalDuration(s: seq<Track>): int {
    SumIntOf(s, DurationOrZero)
  }

  /** `List.remove(Object)`: drops the first element equal to `t`, if any. */
  function RemoveFirst(s: seq<Track>, t: Track): (r: seq<Track>)
    ensures ContainsTrack(s, t) ==> |r| == |s| - 1
    ensures !ContainsTrack(s, t) ==> r == s
  {
    if s == [] then []
    else if SameTrack(s[0], t) then s[1..]
    else
      assert ContainsTrack(s, t) <==> ContainsTrack(s[1..], t) by {
        if ContainsTrack(s, t) {
          var i :| 0 <= i < |s| && SameTrack(s[i], t);
          assert SameTrack(s[1..][i - 1], t);
        }
        if ContainsTrack(s[1..], t) {
          var i :| 0 <= i < |s[1..]| && SameTrack(s[1..][i], t);
          assert SameTrack(s[i + 1], t);
        }
      }
      [s[0]] + RemoveFirst(s[1..], t)
  }

  /** One step of `addTracks`: append `t` unless an equal track is present. */
  function AddIfAbsent(s: seq<Track>, t: Track): seq<Track> {
    if ContainsTrack(s, t) then s else s + [t]
  }

  /** The list `addTracks(ts)` leaves behind, one argument track at a time. */
  function AddAll(s: seq<Track>, ts: seq<Track>): seq<Track> {
    if ts == [] then s else AddIfAbsent(AddAll(s, ts[..|ts| - 1]), ts[|ts| - 1])
  }

  /** What `addTracks` promises: the old list stays a prefix, every argument
      track is present afterwards, nothing else is added, and a list without
      repeated tracks keeps that property even when the argument repeats one. */
  lemma {:induction false} AddAllSpec(s: seq<Track>, ts: seq<Track>)
    ensures var r := AddAll(s, ts);
      |s| <= |r| <= |s| + |ts| && r[..|s|] == s
      && (forall t :: t in ts ==> ContainsTrack(r, t))
      && (forall x :: x in r ==> x in s || x in ts)
      && (NoRepeats(s) ==> NoRepeats(r))
  {
    if ts != [] {
      var init := ts[..|ts| - 1];
      var last := ts[|ts| - 1];
      AddAllSpec(s, init);
      var p := AddAll(s, init);
      var r := AddIfAbsent(p, last);
      assert r[..|p|] == p;
      assert r[..|s|] == p[..|s|];
      forall t | t in ts ensures ContainsTrack(r, t) {
        if t == last {
          if !ContainsTrack(p, last) { assert SameTrack(r[|p|], t); }
        } else {
          assert t in init;
          var i :| 0 <= i < |p| && SameTrack(p[i], t);
          assert SameTrack(r[i], t);
        }
      }
      forall x | x in r ensures x in s || x in ts {
        if x in p {
          assert x in init ==> x in ts;
        }
      }
      if NoRepeats(s) && !ContainsTrack(p, last) {
        forall i, j | 0 <= i < j < |r| ensures r[i].spotifyId != r[j].spotifyId {
          if j == |p| {
            assert !SameTrack(p[i], last);
          }
        }
      }
    }
  }

  /** What `removeTrack` promises: exactly the first equal track goes, the
      others keep their order. */
  lemma {:induction false} RemoveFirstSpec(s: seq<Track>, t: Track, i: nat)
    requires i < |s| && SameTrack(s[i], t)
    requires forall k :: 0 <= k < i ==> !SameTrack(s[k], t)
    ensures RemoveFirst(s, t) == s[..i] + s[i + 1..]
  {
    if i > 0 {
      RemoveFirstSpec(s[1..], t, i - 1);
      assert s[1..][..i - 1] == s[1..i];
      assert s[..i] == [s[0]] + s[1..i];
      assert s[1..][i..] == s[i + 1..];
    }
  }

  /** Removing keeps a list free of repeated tracks, and afterwards no track
      equal to the removed one is left. */
  lemma {:induction false} RemoveFirstNoRepeats(s: seq<Track>, t: Track)
    requires NoRepeats(s)
    ensures NoRepeats(RemoveFirst(s, t))
    ensures !ContainsTrack(RemoveFirst(s, t), t)
  {
    if s != [] {
      RemoveFirstNoRepeats(s[1..], t);
      if !SameTrack(s[0], t) {
        var r := [s[0]] + RemoveFirst(s[1..], t);
        forall x | x in RemoveFirst(s[1..], t) ensures x.spotifyId != s[0].spotifyId {
          RemoveFirstSubset(s[1..], t, x);
          var k :| 0 <= k < |s[1..]| && s[1..][k] == x;
          assert s[k + 1] == x;
        }
        forall k | 0 < k < |r| ensures r[k].spotifyId != s[0].spotifyId {
          assert r[k] in RemoveFirst(s[1..], t);
        }
        forall k | 0 <= k < |r| ensures !SameTrack(r[k], t) {
          if k > 0 { assert r[k] == RemoveFirst(s[1..], t)[k - 1]; }
        }
      } else {
        forall k | 0 <= k < |s[1..]| ensures !SameTrack(s[1..][k], t) {
          assert s[1..][k] == s[k + 1];
        }
      }
    }
  }

  lemma {:induction false} RemoveFirstSubset(s: seq<Track>, t: Track, x: Track)
    requires x in RemoveFirst(s, t)
    ensures x in s
  {
    if s != [] && !SameTrack(s[0], t) && x != s[0] {
      RemoveFirstSubset(s[1..], t, x);
    }
  }

  function ArtistOf(t: Track): string { t.artist }

  /** The genres of the tracks that have one, in track order. */
  function Genres(s: seq<Track>): (g: seq<string>)
    ensures |g| <= |s|
  {
    if s == [] then [] else (if s[0].genre.Some? then [s[0].genre.value] else []) + Genres(s[1..])
  }

  /** `calculateDiversityScore` on a track list: the mean of the distinct-artist
      ratio and the distinct-genre ratio (0 when no track has a genre). */
  function DiversityScore(s: seq<Track>): real {
    if s == [] then 0.0
    else
      var n := |s| as real;
      var artistDiversity := |Elems(Map(s, ArtistOf))| as real / n;
      var genres := Elems(Genres(s));
      var genreDiversity := if genres == {} then 0.0 else |genres| as real / n;
      (artistDiversity + genreDiversity) / 2.0
  }

  /** The score is 0 for an empty playlist and otherwise lies in (0,1]. */
  lemma DiversityScoreRange(s: seq<Track>)
    ensures s == [] ==> DiversityScore(s) == 0.0
    ensures s != [] ==> 0.0 < DiversityScore(s) <= 1.0
  {
    if s != [] {
      var n := |s| as real;
      ElemsCard(Map(s, ArtistOf));
      ElemsCard(Genres(s));
      var a := |Elems(Map(s, ArtistOf))| as real;
      var g := |Elems(Genres(s))| as real;
      assert 1.0 <= a <= n;
      assert 0.0 <= g <= n;
      RatioBounds(a, n);
      RatioBounds(g, n);
    }
  }

  lemma RatioBounds(a: real, n: real)
    requires 0.0 <= a <= n && n > 0.0
    ensures 0.0 <= a / n <= 1.0
    ensures a >= 1.0 ==> a / n > 0.0
  {
  }

  function NoveltyOrZero(t: Track): real { t.noveltyScore.GetOr(0.0) }

  /** `UserPlaylist.calculateNoveltyScore`: the mean novelty, null read as 0. */
  function PlaylistNovelty(s: seq<Track>): (r: real)
    ensures s == [] ==> r == 0.0
    ensures (forall t :: t in s ==> 0.0 <= NoveltyOrZero(t) <= 1.0) ==> 0.0 <= r <= 1.0
  {
    if s == [] then 0.0
    else
      var total := SumOf(s, NoveltyOrZero);
      assert (forall t :: t in s ==> 0.0 <= NoveltyOrZero(t) <= 1.0) ==> 0.0 <= total <= |s| as real by {
        if forall t :: t in s ==> 0.0 <= NoveltyOrZero(t) <= 1.0 {
          SumOfBounds(s, NoveltyOrZero, 0.0, 1.0);
        }
      }
      RatioBounds(if 0.0 <= total <= |s| as real then total else 0.0, |s| as real);
      total / |s| as real
  }

  /** `getFormattedDuration`: Java's truncating `/` and `%` split the total
      into hours, minutes and seconds, printed as `%d:%02d:%02d` when there is
      at least an hour and as `%d:%02d` otherwise. */
  function FormattedDuration(totalMs: Option<int>): string {
    if totalMs.None? || totalMs.value == 0 then "0:00"
    else
      var totalSeconds := JDiv(totalMs.value, 1000);
      var hours := JDiv(totalSeconds, 3600);
      var minutes := JDiv(JRem(totalSeconds, 3600), 60);
      var seconds := JRem(totalSeconds, 60);
      if hours > 0 then IntToString(hours) + ":" + Pad2(minutes) + ":" + Pad2(seconds)
      else IntToString(minutes) + ":" + Pad2(seconds)
  }

  /** For a positive duration the printed fields are its hours, minutes and
      seconds (each of the last two below 60, always two digits): the
      textbook H:MM:SS or M:SS reading of the whole seconds. */
  lemma FormattedDurationSpec(ms: int)
    requires ms > 0
    ensures var sec := ms / 1000;
      var h, m, s := sec / 3600, (sec % 3600) / 60, sec % 60;
      h * 3600 + m * 60 + s == sec && 0 <= m < 60 && 0 <= s < 60
      && |Pad2(m)| == 2 && |Pad2(s)| == 2
      && FormattedDuration(Some(ms))
         == if h > 0 then IntToString(h) + ":" + Pad2(m) + ":" + Pad2(s)
            else IntToString(m) + ":" + Pad2(s)
  {
    var sec := ms / 1000;
    assert JDiv(ms, 1000) == sec;
    var h, r := sec / 3600, sec % 3600;
    var m, s := r / 60, r % 60;
    assert r == 60 * m + s && 0 <= s < 60 && 0 <= m < 60;
    assert sec == 60 * (60 * h + m) + s;
    DivModUnique(sec, 60, 60 * h + m, s);
    assert JRem(sec, 3600) == r && JRem(sec, 60) == s;
    Pad2Width(m);
    Pad2Width(s);
  }

  lemma Pad2Width(n: int)
    requires 0 <= n < 100
    ensures |Pad2(n)| == 2
  {
    if n >= 10 {
      assert NatToString(n) == NatToString(n / 10) + [DigitChar(n % 10)];
    }
  }

  lemma FormattedDurationZero()
    ensures FormattedDuration(None) == "0:00"
    ensures FormattedDuration(Some(0)) == "0:00"
  {
  }

  class UserPlaylist {
    var id: Option<int>
    var name: string
    var playlistType: PlaylistType
    var tracks: seq<Track>
    var trackCount: Option<int>
    var totalDurationMs: Option<int>

    /** The two caches agree with the list. */
    predicate Valid()
      reads this
    {
      trackCount == Some(|tracks|) && totalDurationMs == Some(TotalDuration(tracks))
    }

    /** `new UserPlaylist(user, name, playlistType)`. */
    constructor (name: string, playlistType: PlaylistType)
      ensures Valid() && this.name == name && this.playlistType == playlistType
      ensures tracks == [] && id.None?
    {
      this.id := None;
      this.name := name;
      this.playlistType := playlistType;
      this.tracks := [];
      this.trackCount := Some(0);
      this.totalDurationMs := Some(0);
    }

    /** `updateTrackCount` followed by `updateTotalDuration`. */
    method RefreshCaches()
      modifies this
      ensures Valid() && tracks == old(tracks)
      ensures id == old(id) && name == old(name) && playlistType == old(playlistType)
    {
      trackCount := Some(|tracks|);
      totalDurationMs := Some(TotalDuration(tracks));
    }

    /** `setTracks`: the list is stored as given, repeats included. */
    method SetTracks(ts: seq<Track>)
      modifies this
      ensures tracks == ts && Valid()
      ensures id == old(id) && name == old(name) && playlistType == old(playlistType)
    {
      tracks := ts;
      RefreshCaches();
    }

    /** `setTrackCount`/`setTotalDurationMs`: plain writes that may leave the
        caches out of step with the list. */
    method SetTrackCount(c: Option<int>)
      modifies this`trackCount
      ensures trackCount == c
    {
      trackCount := c;
    }

    method SetTotalDurationMs(d: Option<int>)
      modifies this`totalDurationMs
      ensures totalDurationMs == d
    {
      totalDurationMs := d;
    }

    method AddTrack(t: Track)
      modifies this
      ensures ContainsTrack(old(tracks), t) ==>
        tracks == old(tracks) && trackCount == old(trackCount) && totalDurationMs == old(totalDurationMs)
      ensures !ContainsTrack(old(tracks), t) ==> tracks == old(tracks) + [t] && Valid()
      ensures id == old(id) && name == old(name) && playlistType == old(playlistType)
    {
      if !ContainsTrack(tracks, t) {
        tracks := tracks + [t];
        RefreshCaches();
      }
    }

    method RemoveTrack(t: Track) returns (removed: bool)
      modifies this
      ensures removed == ContainsTrack(old(tracks), t)
      ensures removed ==> tracks == RemoveFirst(old(tracks), t) && Valid()
      ensures !removed ==>
        tracks == old(tracks) && trackCount == old(trackCount) && totalDurationMs == old(totalDurationMs)
      ensures id == old(id) && name == old(name) && playlistType == old(playlistType)
    {
      removed := ContainsTrack(tracks, t);
      if removed {
        tracks := RemoveFirst(tracks, t);
        RefreshCaches();
      }
    }

    method AddTracks(ts: seq<Track>)
      modifies this
      ensures tracks == AddAll(old(tracks), ts) && Valid()
      ensures id == old(id) && name == old(name) && playlistType == old(playlistType)
    {
      var i := 0;
      while i < |ts|
        invariant 0 <= i <= |ts|
        invariant tracks == AddAll(old(tracks), ts[..i])
        invariant id == old(id) && name == old(name) && playlistType == old(playlistType)
      {
        assert ts[..i + 1][..i] == ts[..i];
        if !ContainsTrack(tracks, ts[i]) {
          tracks := tracks + [ts[i]];
        }
        i := i + 1;
      }
      assert ts[..i] == ts;
      RefreshCaches();
    }

    method ClearTracks()
      modifies this
      ensures tracks == [] && trackCount == Some(0) && totalDurationMs == Some(0) && Valid()
      ensures id == old(id) && name == old(name) && playlistType == old(playlistType)
    {
      tracks := [];
      RefreshCaches();
    }

    function CalculateDiversityScore(): (r: real)
      reads this
      ensures tracks != [] ==> 0.0 < r <= 1.0
    {
      DiversityScoreRange(tracks);
      DiversityScore(tracks)
    }

    function GetFormattedDuration(): string
      reads this
    {
      FormattedDuration(totalDurationMs)
    }
  }

  /** Every list operation keeps a playlist without repeated tracks free of
      them, except `setTracks`, which stores its argument unchecked. */
  lemma ListOperationsKeepNoRepeats(s: seq<Track>, t: Track, ts: seq<Track>)
    requires NoRepeats(s)
    ensures NoRepeats(AddIfAbsent(s, t))
    ensures NoRepeats(RemoveFirst(s, t))
    ensures NoRepeats(AddAll(s, ts))
  {
    AddAllSpec(s, [t]);
    assert [t][..0] == [];
    assert AddAll(s, [t]) == AddIfAbsent(s, t);
    RemoveFirstNoRepeats(s, t);
    AddAllSpec(s, ts);
  }
}
