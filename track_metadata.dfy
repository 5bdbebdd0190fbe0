/** The track-metadata dictionaries the Python recommenders, debiasers and
    evaluator look tracks up in: one record per item id holding the keys
    they read. A key the dictionary lacks is `None` (or absent from
    `features`). */
module TrackMetadata {
  import opened Common

  /** A `release_date` as the Python code sees it: absent, a date whose
      year could be read, or a value that failed to parse. */
  datatype ReleaseDate = NoDate | ReleaseYear(year: int) | Unparseable

  /** The keys read from one track's metadata dict: `popularity`,
      `artist`, `artist_id`, `genres`, `release_date`, and the numeric
      audio features (`danceability`, `energy`, ...) by name. */
  datatype TrackInfo = TrackInfo(popularity: Option<real>, artist: Option<string>,
                                 artistId: Option<string>, genres: seq<string>,
                                 release: ReleaseDate, features: map<string, real>)

  type Metadata = map<string, TrackInfo>

  /** The empty dict `{}`. */
  const NoInfo := TrackInfo(None, None, None, [], NoDate, map[])

  /** `track_metadata.get(item_id, {})`. */
  function InfoOf(meta: Metadata, id: string): (info: TrackInfo)
    ensures id !in meta ==> info == NoInfo
  {
    if id in meta then meta[id] else NoInfo
  }
}
