/** The Python recommenders of `src/ml/models.py`: content-based
    similarity over a precomputed similarity matrix, the popularity
    ranking, the weighted hybrid merge, and the exploration strategies.
    The learned parts (the neural collaborative filter, the similarity
    matrix, the popularity scores) are inputs. */
module Models {
  import opened Common
  import opened RecDicts

  /** An `(item_id, score)` tuple. */
  datatype Pair = Pair(id: string, score: real)

  function PairScore(p: Pair): real { p.score }

  /** No two tuples name the same item. */
  predicate DistinctIds(ps: seq<Pair>) {
    forall i, j :: 0 <= i < j < |ps| ==> ps[i].id != ps[j].id
  }

  /** The items a list of tuples names. */
  function Ids(ps: seq<Pair>): (ids: set<string>)
    ensures forall p :: p in ps ==> p.id in ids
    ensures forall id :: id in ids ==> exists p :: p in ps && p.id == id
  {
    set p | p in ps :: p.id
  }

  /** A tuple's score scaled by a source weight: `score * w`. */
  function Weighted(p: Pair, w: real): real { p.score * w }

  /** The sum of `score * w` over the tuples naming one item: what a loop
      of `d[item_id] = d.get(item_id, 0) + score * w` adds for that item. */
  function Contribution(ps: seq<Pair>, id: string, w: real): real {
    if ps == [] then 0.0
    else Contribution(ps[..|ps| - 1], id, w) + (if ps[|ps| - 1].id == id then Weighted(ps[|ps| - 1], w) else 0.0)
  }

  lemma {:induction false} ContributionAbsent(ps: seq<Pair>, id: string, w: real)
    requires id !in Ids(ps)
    ensures Contribution(ps, id, w) == 0.0
  {
    if ps != [] {
      assert Ids(ps[..|ps| - 1]) <= Ids(ps) by {
        forall q | q in ps[..|ps| - 1] ensures q in ps { }
      }
      ContributionAbsent(ps[..|ps| - 1], id, w);
    }
  }

  // ---------------------------------------------------------------------
  // Score dictionaries
  // ---------------------------------------------------------------------

  /** A Python dict from item_id to a float: its keys in insertion order,
      and the value of each. */
  datatype ScoreDict = ScoreDict(keys: seq<string>, vals: map<string, real>)

  /** Each key is listed once, and the listed keys are the mapped ones. */
  ghost predicate WellFormed(d: ScoreDict) {
    Distinct(d.keys) && forall k :: k in d.vals <==> k in d.keys
  }

  /** `d.get(id, 0)`. */
  function Total(d: ScoreDict, id: string): real {
    Get(d.vals, id, 0.0)
  }

  /** `d[id] = d.get(id, 0) + x`: a new key goes last, an existing key
      keeps its place. */
  function Add(d: ScoreDict, id: string, x: real): (r: ScoreDict)
    requires WellFormed(d)
    ensures WellFormed(r)
    ensures Total(r, id) == Total(d, id) + x
    ensures forall k :: k != id ==> Total(r, k) == Total(d, k)
    ensures d.keys <= r.keys
    ensures id in d.keys ==> r.keys == d.keys
    ensures forall k :: k in r.keys <==> k in d.keys || k == id
  {
    if id in d.vals then ScoreDict(d.keys, d.vals[id := d.vals[id] + x])
    else
      DistinctSnoc(d.keys, id);
      ScoreDict(d.keys + [id], d.vals[id := x])
  }

  /** `d.items()`: the (key, value) tuples in insertion order. */
  function Items(d: ScoreDict): (ps: seq<Pair>)
    ensures |ps| == |d.keys|
    ensures forall k :: 0 <= k < |ps| ==> ps[k] == Pair(d.keys[k], Total(d, d.keys[k]))
    decreases |d.keys|
  {
    if d.keys == [] then []
    else Items(ScoreDict(d.keys[..|d.keys| - 1], d.vals)) + [Pair(d.keys[|d.keys| - 1], Total(d, d.keys[|d.keys| - 1]))]
  }

  /** The tuples of a well-formed dict name distinct items, each once,
      each with its value, and name every key. */
  lemma ItemsOf(d: ScoreDict)
    requires WellFormed(d)
    ensures DistinctIds(Items(d)) && Distinct(Items(d))
    ensures forall p :: p in Items(d) <==> p.id in d.keys && p.score == Total(d, p.id)
  {
    ItemsDistinct(d);
    ItemsMembers(d);
  }

  lemma ItemsDistinct(d: ScoreDict)
    requires WellFormed(d)
    ensures DistinctIds(Items(d)) && Distinct(Items(d))
  {
  }

  lemma ItemsMembers(d: ScoreDict)
    ensures forall p :: p in Items(d) <==> p.id in d.keys && p.score == Total(d, p.id)
  {
    var ps := Items(d);
    forall p: Pair | p.id in d.keys && p.score == Total(d, p.id) ensures p in ps {
      var k :| 0 <= k < |d.keys| && d.keys[k] == p.id;
      assert ps[k] == p;
    }
  }

  /** A loop over tuples doing `d[id] = d.get(id, 0) + score * w`, skipping
      the items listed in `skip`. */
  function AddPairs(d: ScoreDict, ps: seq<Pair>, w: real, skip: seq<string>): (r: ScoreDict)
    requires WellFormed(d)
    ensures WellFormed(r)
  {
    if ps == [] then d
    else
      var p := ps[|ps| - 1];
      var r0 := AddPairs(d, ps[..|ps| - 1], w, skip);
      if p.id in skip then r0 else Add(r0, p.id, Weighted(p, w))
  }

  /** After the loop an item has a key iff it had one before, or some tuple
      names it and it is not skipped. */
  lemma {:induction false} AddPairsKeys(d: ScoreDict, ps: seq<Pair>, w: real, skip: seq<string>, k: string)
    requires WellFormed(d)
    ensures k in AddPairs(d, ps, w, skip).keys <==> k in d.keys || (k in Ids(ps) && k !in skip)
  {
    if ps != [] {
      var p := ps[|ps| - 1];
      assert ps == ps[..|ps| - 1] + [p];
      assert Ids(ps) == Ids(ps[..|ps| - 1]) + {p.id};
      AddPairsKeys(d, ps[..|ps| - 1], w, skip, k);
    }
  }

  /** After the loop an item not skipped holds its old value plus the
      weighted scores the tuples give it; a skipped item is unchanged. */
  lemma {:induction false} AddPairsTotal(d: ScoreDict, ps: seq<Pair>, w: real, skip: seq<string>, k: string)
    requires WellFormed(d)
    ensures Total(AddPairs(d, ps, w, skip), k) == Total(d, k) + (if k in skip then 0.0 else Contribution(ps, k, w))
  {
    if ps != [] {
      AddPairsTotal(d, ps[..|ps| - 1], w, skip, k);
    }
  }

  /** One more tuple: one more step of the loop. */
  lemma AddPairsSnoc(d: ScoreDict, ps: seq<Pair>, w: real, skip: seq<string>, i: nat)
    requires WellFormed(d) && i < |ps|
    ensures var r := AddPairs(d, ps[..i], w, skip);
      AddPairs(d, ps[..i + 1], w, skip) == if ps[i].id in skip then r else Add(r, ps[i].id, Weighted(ps[i], w))
  {
    var s := ps[..i + 1];
    assert s[..|s| - 1] == ps[..i] && s[|s| - 1] == ps[i];
    AddPairsLast(d, s, w, skip);
  }

  lemma AddPairsLast(d: ScoreDict, s: seq<Pair>, w: real, skip: seq<string>)
    requires WellFormed(d) && s != []
    ensures var r := AddPairs(d, s[..|s| - 1], w, skip);
      AddPairs(d, s, w, skip) == if s[|s| - 1].id in skip then r else Add(r, s[|s| - 1].id, Weighted(s[|s| - 1], w))
  {
  }

  /** The loop body `for item_id, score in ps: ...` on its own. */
  method AddAll(d: ScoreDict, ps: seq<Pair>, w: real, skip: seq<string>) returns (r: ScoreDict)
    requires WellFormed(d)
    ensures r == AddPairs(d, ps, w, skip)
  {
    r := d;
    for i := 0 to |ps|
      invariant r == AddPairs(d, ps[..i], w, skip)
    {
      AddPairsSnoc(d, ps, w, skip, i);
      if ps[i].id !in skip {
        r := Add(r, ps[i].id, Weighted(ps[i], w));
      }
    }
    assert ps[..|ps|] == ps;
  }

  /** `sorted(d.items(), key=lambda x: x[1], reverse=True)[:n]`. */
  function TopItems(d: ScoreDict, n: int): seq<Pair> {
    PyTo(SortDesc(Items(d), PairScore), n)
  }

  /** The cut keeps the `n` highest-valued keys (all but the last `-n`
      for a negative `n`), highest first, each with its value. */
  lemma TopItemsSpec(d: ScoreDict, n: int)
    requires WellFormed(d)
    ensures var r := TopItems(d, n);
      && |r| == PyBound(n, |d.keys|)
      && SortedDesc(r, PairScore)
      && DistinctIds(r)
      && (forall p :: p in r ==> p.id in d.keys && p.score == Total(d, p.id))
  {
    var items := Items(d);
    var r := TopItems(d, n);
    ItemsOf(d);
    TopOf(items, PairScore, n);
    forall i, j | 0 <= i < j < |r| ensures r[i].id != r[j].id {
      assert r[i] in items && r[j] in items;
    }
  }

  /** No key left out of the cut has a larger value than a key kept. */
  lemma TopItemsDominate(d: ScoreDict, n: int, p: Pair, k: string)
    requires WellFormed(d)
    requires p in TopItems(d, n) && k in d.keys && k !in Ids(TopItems(d, n))
    ensures Total(d, k) <= p.score
  {
    var items := Items(d);
    var r := TopItems(d, n);
    var q := Pair(k, Total(d, k));
    ItemsOf(d);
    assert q in items;
    assert q !in r;
    TopOf(items, PairScore, n);
    assert PairScore(p) >= PairScore(q);
  }

  /** `get_popular_items(n)`: the `n` most popular items of the fitted
      `item_popularity` dict, most popular first. */
  function GetPopularItems(popularity: ScoreDict, n: int): seq<Pair> {
    TopItems(popularity, n)
  }

  // ---------------------------------------------------------------------
  // Content-based filtering
  // ---------------------------------------------------------------------

  /** A `ContentBasedFiltering` model: the item ids in row order, and the
      similarity matrix once `fit` has computed it. */
  datatype ContentModel = ContentModel(itemIds: seq<string>, similarity: Option<seq<seq<real>>>)

  /** `np.where(item_ids == item_id)[0][0]`: the first row naming the item. */
  function IndexOf(ids: seq<string>, id: string): (r: Option<nat>)
    ensures r.None? <==> id !in ids
    ensures r.Some? ==> r.value < |ids| && ids[r.value] == id
    ensures r.Some? ==> forall j :: 0 <= j < r.value ==> ids[j] != id
  {
    if ids == [] then None
    else if ids[0] == id then Some(0)
    else match IndexOf(ids[1..], id)
      case None => None
      case Some(i) => Some(i + 1)
  }

  /** The column indices `0 .. n-1`. */
  function Columns(n: nat): (cs: seq<int>)
    ensures |cs| == n
    ensures forall k :: 0 <= k < n ==> cs[k] == k
  {
    seq(n, k => k)
  }

  /** A row of similarities as a key on column indices. */
  function RowKey(row: seq<real>): int -> real {
    j => if 0 <= j < |row| then row[j] else 0.0
  }

  /** `np.argsort(row)[::-1]`: the columns, most similar first. */
  function Ranking(row: seq<real>): (r: seq<int>)
    ensures |r| == |row|
    ensures multiset(r) == multiset(Columns(|row|))
    ensures SortedDesc(r, RowKey(row))
  {
    SortDesc(Columns(|row|), RowKey(row))
  }

  /** Every picked column indexes both the item ids and the row. */
  predicate InRange(picked: seq<int>, ids: nat, cols: nat) {
    forall k :: 0 <= k < |picked| ==> 0 <= picked[k] < ids && picked[k] < cols
  }

  /** The `(item_ids[j], row[j])` tuple of each picked column. */
  function PairsAt(ids: seq<string>, row: seq<real>, picked: seq<int>): (r: seq<Pair>)
    requires InRange(picked, |ids|, |row|)
    ensures |r| == |picked|
    ensures forall k :: 0 <= k < |r| ==> r[k] == Pair(ids[picked[k]], row[picked[k]])
  {
    if picked == [] then []
    else
      var j := picked[|picked| - 1];
      PairsAt(ids, row, picked[..|picked| - 1]) + [Pair(ids[j], row[j])]
  }

  /** `get_similar_items(item_id, n)`. An unfitted model raises, and the
      handler returns []; so does an unknown id. A row or an item index
      past the end raises IndexError, also turned into []. Otherwise the
      tuples of columns 1 .. n of the ranking: the top-ranked column, the
      item itself when its self-similarity is highest, is skipped. */
  function GetSimilarItems(m: ContentModel, id: string, n: int): seq<Pair> {
    match m.similarity
    case None => []
    case Some(matrix) =>
      match IndexOf(m.itemIds, id)
      case None => []
      case Some(i) =>
        if i >= |matrix| then []
        else
          var row := matrix[i];
          var picked := PySlice(Ranking(row), 1, n + 1);
          if InRange(picked, |m.itemIds|, |row|) then PairsAt(m.itemIds, row, picked)
          else []
  }

  /** A contiguous slice of a descending sequence is descending. */
  lemma SliceSorted<T>(s: seq<T>, key: T -> real, lo: nat, hi: nat)
    requires SortedDesc(s, key) && lo <= hi <= |s|
    ensures SortedDesc(s[lo..hi], key)
  {
  }

  /** `get_similar_items` returns [] for an unfitted model or an unknown
      id, never more than `n` tuples, only known items, and those in
      descending order of similarity. */
  lemma GetSimilarItemsSpec(m: ContentModel, id: string, n: int)
    ensures var r := GetSimilarItems(m, id, n);
      && (m.similarity.None? || id !in m.itemIds ==> r == [])
      && (n >= 0 ==> |r| <= n)
      && SortedDesc(r, PairScore)
      && (forall p :: p in r ==> p.id in m.itemIds)
  {
    if m.similarity.Some? && IndexOf(m.itemIds, id).Some? {
      var matrix := m.similarity.value;
      var i := IndexOf(m.itemIds, id).value;
      if i < |matrix| && InRange(PySlice(Ranking(matrix[i]), 1, n + 1), |m.itemIds|, |matrix[i]|) {
        SimilarFromRow(m.itemIds, matrix[i], n);
      }
    }
  }

  /** The tuples picked from one row: at most `n`, most similar first,
      each naming a known item. */
  lemma SimilarFromRow(ids: seq<string>, row: seq<real>, n: int)
    requires InRange(PySlice(Ranking(row), 1, n + 1), |ids|, |row|)
    ensures var r := PairsAt(ids, row, PySlice(Ranking(row), 1, n + 1));
      && (n >= 0 ==> |r| <= n)
      && SortedDesc(r, PairScore)
      && (forall p :: p in r ==> p.id in ids)
  {
    var rank := Ranking(row);
    var picked := PySlice(rank, 1, n + 1);
    var r := PairsAt(ids, row, picked);
    var lo := PyBound(1, |rank|);
    var hi := PyBound(n + 1, |rank|);
    if lo <= hi {
      assert picked == rank[lo..hi];
      SliceSorted(rank, RowKey(row), lo, hi);
      forall a, b | 0 <= a < b < |r| ensures r[a].score >= r[b].score {
        assert RowKey(row)(picked[a]) >= RowKey(row)(picked[b]);
      }
    }
    forall p | p in r ensures p.id in ids {
      var k :| 0 <= k < |r| && r[k] == p;
    }
  }

  /** For a known item whose row is no longer than the item list: the
      result holds `min(n, |row| - 1)` tuples, each a column other than the
      top-ranked one with its similarity, and no column left out (other
      than the top-ranked one) is more similar than one returned. */
  lemma GetSimilarItemsTop(m: ContentModel, id: string, n: int, i: nat)
    requires m.similarity.Some? && IndexOf(m.itemIds, id) == Some(i)
    requires i < |m.similarity.value| && 0 < |m.similarity.value[i]| <= |m.itemIds|
    requires n >= 0
    ensures var row := m.similarity.value[i];
      var rank := Ranking(row);
      var r := GetSimilarItems(m, id, n);
      && |r| == MinI(n, |row| - 1)
      && (forall p :: p in r ==> exists j :: 0 <= j < |row| && j != rank[0] && p == Pair(m.itemIds[j], row[j]))
      && (forall p, j :: p in r && 0 <= j < |row| && j != rank[0] && j !in PySlice(rank, 1, n + 1) ==> row[j] <= p.score)
  {
    var row := m.similarity.value[i];
    PickedInRange(m.itemIds, row, n);
    PickedMembers(m.itemIds, row, n);
    PickedDominate(m.itemIds, row, n);
  }

  /** Columns 1 .. n of the ranking, all valid indices. */
  lemma PickedInRange(ids: seq<string>, row: seq<real>, n: int)
    requires n >= 0 && 0 < |row| <= |ids|
    ensures var rank := Ranking(row);
      && PySlice(rank, 1, n + 1) == rank[1..MinI(n + 1, |row|)]
      && InRange(PySlice(rank, 1, n + 1), |ids|, |row|)
  {
    var rank := Ranking(row);
    var picked := PySlice(rank, 1, n + 1);
    assert picked == rank[1..MinI(n + 1, |row|)];
    RankingColumns(row);
    forall k | 0 <= k < |picked| ensures 0 <= picked[k] < |row| {
      assert picked[k] == rank[k + 1];
      assert rank[k + 1] in rank;
    }
  }

  lemma PickedMembers(ids: seq<string>, row: seq<real>, n: int)
    requires n >= 0 && 0 < |row| <= |ids|
    ensures var rank := Ranking(row);
      var picked := PySlice(rank, 1, n + 1);
      InRange(picked, |ids|, |row|) &&
      forall p :: p in PairsAt(ids, row, picked) ==> exists j :: 0 <= j < |row| && j != rank[0] && p == Pair(ids[j], row[j])
  {
    var rank := Ranking(row);
    var picked := PySlice(rank, 1, n + 1);
    PickedInRange(ids, row, n);
    var r := PairsAt(ids, row, picked);
    forall p | p in r ensures exists j :: 0 <= j < |row| && j != rank[0] && p == Pair(ids[j], row[j]) {
      var k :| 0 <= k < |r| && r[k] == p;
      assert picked[k] == rank[k + 1];
      RankingDistinct(row, 0, k + 1);
    }
  }

  lemma PickedDominate(ids: seq<string>, row: seq<real>, n: int)
    requires n >= 0 && 0 < |row| <= |ids|
    ensures var rank := Ranking(row);
      var picked := PySlice(rank, 1, n + 1);
      InRange(picked, |ids|, |row|) &&
      forall p, j :: p in PairsAt(ids, row, picked) && 0 <= j < |row| && j != rank[0] && j !in picked ==> row[j] <= p.score
  {
    var rank := Ranking(row);
    var picked := PySlice(rank, 1, n + 1);
    var hi := MinI(n + 1, |row|);
    PickedInRange(ids, row, n);
    RankingColumns(row);
    var r := PairsAt(ids, row, picked);
    forall p, j | p in r && 0 <= j < |row| && j != rank[0] && j !in picked ensures row[j] <= p.score {
      var k :| 0 <= k < |r| && r[k] == p;
      assert picked[k] == rank[k + 1];
      assert j in rank;
      var q :| 0 <= q < |rank| && rank[q] == j;
      assert forall t :: 1 <= t < hi ==> rank[t] == picked[t - 1];
      assert q >= hi;
      assert RowKey(row)(rank[k + 1]) >= RowKey(row)(rank[q]);
    }
  }

  /** The ranking lists every column exactly once. */
  lemma RankingColumns(row: seq<real>)
    ensures forall j :: j in Ranking(row) <==> 0 <= j < |row|
  {
    var rank := Ranking(row);
    forall j ensures j in rank <==> 0 <= j < |row| {
      assert j in rank <==> j in multiset(rank);
      assert j in Columns(|row|) <==> j in multiset(Columns(|row|));
      if 0 <= j < |row| { assert Columns(|row|)[j] == j; }
    }
  }

  lemma RankingDistinct(row: seq<real>, a: nat, b: nat)
    requires a < b < |row|
    ensures Ranking(row)[a] != Ranking(row)[b]
  {
    assert Distinct(Columns(|row|));
    DistinctPermutation(Columns(|row|), Ranking(row));
  }

  /** The dict `all_recommendations` of `recommend_for_user` once the
      liked items `ls` (a prefix of `liked`) have been processed: each
      adds the similarities `get_similar_items(item, 2n)` lists, skipping
      liked items. The loop's `+= similarity` is `Weighted(p, 1.0)`. */
  function Accumulated(m: ContentModel, ls: seq<string>, liked: seq<string>, n: int): (d: ScoreDict)
    ensures WellFormed(d)
  {
    if ls == [] then ScoreDict([], map[])
    else AddPairs(Accumulated(m, ls[..|ls| - 1], liked, n), GetSimilarItems(m, ls[|ls| - 1], n * 2), 1.0, liked)
  }

  /** `recommend_for_user(liked, n)`, as a value: [] for no liked items,
      otherwise the top `n` of the accumulated dict. */
  function ForUser(m: ContentModel, liked: seq<string>, n: int): seq<Pair> {
    if liked == [] then [] else TopItems(Accumulated(m, liked, liked, n), n)
  }

  /** `recommend_for_user`: the nested loops filling the dict, then the
      sort and cut. */
  method RecommendForUser(m: ContentModel, liked: seq<string>, n: int) returns (r: seq<Pair>)
    ensures r == ForUser(m, liked, n)
  {
    if liked == [] {
      return [];
    }
    var all := ScoreDict([], map[]);
    for i := 0 to |liked|
      invariant all == Accumulated(m, liked[..i], liked, n)
    {
      AccumulatedSnoc(m, liked, n, i);
      var similar := GetSimilarItems(m, liked[i], n * 2);
      all := AddAll(all, similar, 1.0, liked);
    }
    assert liked[..|liked|] == liked;
    r := TopItems(all, n);
  }

  lemma AccumulatedSnoc(m: ContentModel, liked: seq<string>, n: int, i: nat)
    requires i < |liked|
    ensures Accumulated(m, liked[..i + 1], liked, n)
      == AddPairs(Accumulated(m, liked[..i], liked, n), GetSimilarItems(m, liked[i], n * 2), 1.0, liked)
  {
    var s := liked[..i + 1];
    assert s[..|s| - 1] == liked[..i] && s[|s| - 1] == liked[i];
  }

  /** The similarity the lists of `ls` give one item in total. */
  function LikedScore(m: ContentModel, ls: seq<string>, k: int, id: string): real {
    if ls == [] then 0.0
    else LikedScore(m, ls[..|ls| - 1], k, id) + Contribution(GetSimilarItems(m, ls[|ls| - 1], k), id, 1.0)
  }

  /** Whether some list of `ls` names the item. */
  predicate Listed(m: ContentModel, ls: seq<string>, k: int, id: string) {
    ls != [] && (Listed(m, ls[..|ls| - 1], k, id) || id in Ids(GetSimilarItems(m, ls[|ls| - 1], k)))
  }

  /** After the liked items `ls`, an item has a key iff it is not liked and
      some list names it. */
  lemma {:induction false} AccumulatedKeys(m: ContentModel, ls: seq<string>, liked: seq<string>, n: int, id: string)
    ensures id in Accumulated(m, ls, liked, n).keys <==> id !in liked && Listed(m, ls, n * 2, id)
  {
    if ls != [] {
      var init := ls[..|ls| - 1];
      var l := ls[|ls| - 1];
      var ps := GetSimilarItems(m, l, n * 2);
      AccumulatedKeys(m, init, liked, n, id);
      AddPairsKeys(Accumulated(m, init, liked, n), ps, 1.0, liked, id);
    }
  }

  /** After the liked items `ls`, an item not liked holds its summed
      similarity. */
  lemma {:induction false} AccumulatedTotal(m: ContentModel, ls: seq<string>, liked: seq<string>, n: int, id: string)
    requires id !in liked
    ensures Total(Accumulated(m, ls, liked, n), id) == LikedScore(m, ls, n * 2, id)
  {
    if ls != [] {
      var init := ls[..|ls| - 1];
      AccumulatedTotal(m, init, liked, n, id);
      AddPairsTotal(Accumulated(m, init, liked, n), GetSimilarItems(m, ls[|ls| - 1], n * 2), 1.0, liked, id);
    }
  }

  /** `recommend_for_user` returns [] for no liked items, never a liked
      item, at most `n` tuples (all but the last `-n` for a negative `n`),
      distinct items in descending order of score, each scored with the
      sum of the similarities the liked items' lists give it. */
  lemma ForUserSpec(m: ContentModel, liked: seq<string>, n: int)
    ensures var r := ForUser(m, liked, n);
      && (liked == [] ==> r == [])
      && (n >= 0 ==> |r| <= n)
      && SortedDesc(r, PairScore)
      && DistinctIds(r)
      && (forall p :: p in r ==> p.id !in liked && Listed(m, liked, n * 2, p.id))
      && (forall p :: p in r ==> p.score == LikedScore(m, liked, n * 2, p.id))
  {
    if liked != [] {
      var d := Accumulated(m, liked, liked, n);
      TopItemsSpec(d, n);
      forall p | p in TopItems(d, n)
        ensures p.id !in liked && Listed(m, liked, n * 2, p.id)
        ensures p.score == LikedScore(m, liked, n * 2, p.id)
      {
        AccumulatedKeys(m, liked, liked, n, p.id);
        AccumulatedTotal(m, liked, liked, n, p.id);
      }
    }
  }

  /** No candidate left out of `recommend_for_user` scores higher than one
      returned. */
  lemma ForUserDominates(m: ContentModel, liked: seq<string>, n: int, p: Pair, id: string)
    requires p in ForUser(m, liked, n)
    requires id !in liked && Listed(m, liked, n * 2, id) && id !in Ids(ForUser(m, liked, n))
    ensures LikedScore(m, liked, n * 2, id) <= p.score
  {
    var d := Accumulated(m, liked, liked, n);
    AccumulatedKeys(m, liked, liked, n, id);
    AccumulatedTotal(m, liked, liked, n, id);
    TopItemsDominate(d, n, p, id);
  }

  // ---------------------------------------------------------------------
  // The hybrid system
  // ---------------------------------------------------------------------

  /** The weights a `HybridRecommendationSystem` gets when none are given. */
  const DEFAULT_WEIGHTS: map<string, real> :=
    map["collaborative" := 0.4, "content" := 0.3, "popularity" := 0.1, "diversity" := 0.2]

  /** The parts of a fitted hybrid system that `recommend` reads: its
      weights, the content model, the popularity model's `item_popularity`
      dict, and the scores its diversity injector would give (None when no
      injector is set). */
  datatype Hybrid = Hybrid(
    weights: map<string, real>,
    content: ContentModel,
    popularity: ScoreDict,
    diversityScores: Option<map<string, real>>)

  /** `HybridRecommendationSystem(weights)`, before `fit`: no injector. */
  function NewHybrid(weights: Option<map<string, real>>, content: ContentModel, popularity: ScoreDict): (h: Hybrid)
    ensures weights.None? ==> h.weights == DEFAULT_WEIGHTS
    ensures weights.Some? ==> h.weights == weights.value
    ensures h.diversityScores.None?
  {
    Hybrid(if weights.None? then DEFAULT_WEIGHTS else weights.value, content, popularity, None)
  }

  /** One output dict of `recommend`. */
  datatype Scored = Scored(itemId: string, score: real, timestamp: string)

  function ScoredScore(v: Scored): real { v.score }

  /** `_get_collaborative_scores(user_id, k)`: the neural model's
      predictions for every known item (an input), sorted by score and cut
      to `k`. A failed prediction gives an empty array, hence []. */
  function CollaborativeScores(predictions: seq<Pair>, k: int): seq<Pair> {
    PyTo(SortDesc(predictions, PairScore), k)
  }

  /** The collaborative source holds the `k` best-predicted items (all but
      the last `-k` for a negative `k`), best first, each a prediction, and
      no prediction left out scores higher than one kept. */
  lemma CollaborativeScoresSpec(predictions: seq<Pair>, k: int)
    ensures var r := CollaborativeScores(predictions, k);
      && |r| == PyBound(k, |predictions|)
      && SortedDesc(r, PairScore)
      && (forall p :: p in r ==> p in predictions)
      && (forall p, q :: p in r && q in predictions && q !in r ==> q.score <= p.score)
  {
    var r := PyTo(SortDesc(predictions, PairScore), k);
    TopOf(predictions, PairScore, k);
    assert CollaborativeScores(predictions, k) == r;
    forall p, q | p in r && q in predictions && q !in r
      ensures q.score <= p.score
    {
      assert PairScore(p) >= PairScore(q);
    }
  }

  /** The three sources of `recommend(user, liked, n)`: the collaborative
      scores (used only when the neural model is set and knows the user,
      i.e. when `predictions` is given), the content-based scores and the
      popularity scores, each asked for `2n` items. */
  function CfSource(predictions: Option<seq<Pair>>, n: int): seq<Pair> {
    if predictions.Some? then CollaborativeScores(predictions.value, n * 2) else []
  }

  function CbSource(h: Hybrid, liked: seq<string>, n: int): seq<Pair> {
    ForUser(h.content, liked, n * 2)
  }

  function PopSource(h: Hybrid, n: int): seq<Pair> {
    GetPopularItems(h.popularity, n * 2)
  }

  /** A loop `for item_id, score in ps: all_scores[item_id] =
      all_scores.get(item_id, 0) + score * weights[key]`: the lookup of a
      missing weight raises KeyError at the first tuple (None), and is
      never made for an empty list. */
  function AddSource(d: Option<ScoreDict>, ps: seq<Pair>, weights: map<string, real>, key: string): (r: Option<ScoreDict>)
    requires d.Some? ==> WellFormed(d.value)
    ensures r.Some? ==> WellFormed(r.value)
  {
    match d
    case None => None
    case Some(d) =>
      if ps == [] then Some(d)
      else if key !in weights then None
      else Some(AddPairs(d, ps, weights[key], []))
  }

  /** The lists the three source loops of `recommend` walk, in order. */
  datatype Sources = Sources(cf: seq<Pair>, cb: seq<Pair>, pop: seq<Pair>)

  function SourcesOf(h: Hybrid, predictions: Option<seq<Pair>>, liked: seq<string>, n: int): Sources {
    Sources(CfSource(predictions, n), CbSource(h, liked, n), PopSource(h, n))
  }

  /** The dict `all_scores` after the three source loops, or None when one
      of them raised. */
  function Merged(weights: map<string, real>, src: Sources): (r: Option<ScoreDict>)
    ensures r.Some? ==> WellFormed(r.value)
  {
    var d1 := AddSource(Some(ScoreDict([], map[])), src.cf, weights, "collaborative");
    var d2 := AddSource(d1, src.cb, weights, "content");
    AddSource(d2, src.pop, weights, "popularity")
  }

  /** `score * diversity_boost`. */
  function Boosted(x: real, boost: real): real { x * boost }

  /** The diversity loop of `recommend`: each key the injector scored gets
      `div_score * diversity_boost` added. The source iterates over the
      injector's dict and skips items without a score; iterating over the
      score keys instead adds the same amounts to the same keys. */
  function Boost(d: ScoreDict, ks: seq<string>, div: map<string, real>, boost: real): (r: ScoreDict)
    requires WellFormed(d)
    ensures WellFormed(r)
  {
    if ks == [] then d
    else
      var r0 := Boost(d, ks[..|ks| - 1], div, boost);
      var k := ks[|ks| - 1];
      if k in div then Add(r0, k, Boosted(div[k], boost)) else r0
  }

  /** Boosting existing keys adds no key and moves none. */
  lemma {:induction false} BoostKeys(d: ScoreDict, ks: seq<string>, div: map<string, real>, boost: real)
    requires WellFormed(d) && forall k :: k in ks ==> k in d.keys
    ensures Boost(d, ks, div, boost).keys == d.keys
  {
    if ks != [] {
      BoostKeys(d, ks[..|ks| - 1], div, boost);
    }
  }

  /** Each listed key the injector scored gains its boosted score once;
      every other key keeps its value. */
  lemma {:induction false} BoostTotal(d: ScoreDict, ks: seq<string>, div: map<string, real>, boost: real, k: string)
    requires WellFormed(d) && Distinct(ks)
    ensures Total(Boost(d, ks, div, boost), k)
      == Total(d, k) + (if k in ks && k in div then Boosted(div[k], boost) else 0.0)
  {
    if ks != [] {
      var init := ks[..|ks| - 1];
      assert ks == init + [ks[|ks| - 1]];
      assert Distinct(init);
      assert ks[|ks| - 1] !in init;
      BoostTotal(d, init, div, boost, k);
    }
  }

  lemma BoostSnoc(d: ScoreDict, ks: seq<string>, div: map<string, real>, boost: real, i: nat)
    requires WellFormed(d) && i < |ks|
    ensures var r := Boost(d, ks[..i], div, boost);
      Boost(d, ks[..i + 1], div, boost) == if ks[i] in div then Add(r, ks[i], Boosted(div[ks[i]], boost)) else r
  {
    var s := ks[..i + 1];
    assert s[..|s| - 1] == ks[..i] && s[|s| - 1] == ks[i];
  }

  /** The diversity loop, as written: a loop over the keys. */
  method BoostAll(d: ScoreDict, div: map<string, real>, boost: real) returns (r: ScoreDict)
    requires WellFormed(d)
    ensures r == Boost(d, d.keys, div, boost)
  {
    r := d;
    for i := 0 to |d.keys|
      invariant r == Boost(d, d.keys[..i], div, boost)
    {
      BoostSnoc(d, d.keys, div, boost, i);
      if d.keys[i] in div {
        r := Add(r, d.keys[i], Boosted(div[d.keys[i]], boost));
      }
    }
    assert d.keys[..|d.keys|] == d.keys;
  }

  /** The scores after the diversity step, which runs only for a positive
      boost and a set injector. */
  function Diversified(h: Hybrid, d: ScoreDict, boost: real): (r: ScoreDict)
    requires WellFormed(d)
    ensures WellFormed(r)
  {
    if boost > 0.0 && h.diversityScores.Some? then Boost(d, d.keys, h.diversityScores.value, boost) else d
  }

  /** The output dicts of the `(item_id, score)` tuples, the one at
      position `i` stamped with the `i`-th read of the clock. */
  function Stamped(top: seq<Pair>, clock: nat -> string): (r: seq<Scored>)
    ensures |r| == |top|
    ensures forall i :: 0 <= i < |r| ==> r[i] == Scored(top[i].id, top[i].score, clock(i))
  {
    seq(|top|, i requires 0 <= i < |top| => Scored(top[i].id, top[i].score, clock(i)))
  }

  /** The dict `all_scores` when `recommend` sorts it, or None when a source
      loop raised. */
  function Final(h: Hybrid, src: Sources, boost: real): (r: Option<ScoreDict>)
    ensures r.Some? ==> WellFormed(r.value)
  {
    match Merged(h.weights, src)
    case None => None
    case Some(d) => Some(Diversified(h, d, boost))
  }

  /** Stamping one more tuple appends its dict, stamped with the next read. */
  lemma StampedSnoc(top: seq<Pair>, clock: nat -> string, i: nat)
    requires i < |top|
    ensures Stamped(top[..i + 1], clock) == Stamped(top[..i], clock) + [Scored(top[i].id, top[i].score, clock(i))]
  {
    var a, b := Stamped(top[..i + 1], clock), Stamped(top[..i], clock) + [Scored(top[i].id, top[i].score, clock(i))];
    assert |a| == |b|;
    forall k | 0 <= k < |a| ensures a[k] == b[k] {
      assert top[..i + 1][k] == top[k];
    }
  }

  /** What `recommend` returns for the given source lists: [] when an
      exception was raised, else the top `n` entries as output dicts. */
  function RecommendedFrom(h: Hybrid, src: Sources, n: int, boost: real, clock: nat -> string): seq<Scored> {
    match Final(h, src, boost)
    case None => []
    case Some(d) => Stamped(TopItems(d, n), clock)
  }

  /** `recommend(user, liked, n, diversity_boost)` as a value, with
      the successive results of `datetime.now().isoformat()`, one per
      output dict, given as `clock`. */
  function Recommended(h: Hybrid, predictions: Option<seq<Pair>>, liked: seq<string>, n: int, boost: real,
                       clock: nat -> string): seq<Scored> {
    RecommendedFrom(h, SourcesOf(h, predictions, liked, n), n, boost, clock)
  }

  /** One source loop of `recommend`, as written: a missing weight raises
      at the first tuple. */
  method AddSourceAll(d: Option<ScoreDict>, ps: seq<Pair>, weights: map<string, real>, key: string)
    returns (r: Option<ScoreDict>)
    requires d.Some? ==> WellFormed(d.value)
    ensures r == AddSource(d, ps, weights, key)
  {
    if d.None? {
      return None;
    }
    if ps != [] && key !in weights {
      return None;
    }
    if ps == [] {
      return d;
    }
    var all := AddAll(d.value, ps, weights[key], []);
    return Some(all);
  }

  /** The three source loops of `recommend`. */
  method MergeSources(h: Hybrid, predictions: Option<seq<Pair>>, liked: seq<string>, n: int)
    returns (all: Option<ScoreDict>)
    ensures all == Merged(h.weights, SourcesOf(h, predictions, liked, n))
  {
    all := AddSourceAll(Some(ScoreDict([], map[])), CfSource(predictions, n), h.weights, "collaborative");
    var cb := RecommendForUser(h.content, liked, n * 2);
    all := AddSourceAll(all, cb, h.weights, "content");
    var pop := GetPopularItems(h.popularity, n * 2);
    all := AddSourceAll(all, pop, h.weights, "popularity");
  }

  /** `recommend`: the source loops filling `all_scores`, the diversity
      loop, the sort and cut, and the loop building the output dicts. */
  method Recommend(h: Hybrid, predictions: Option<seq<Pair>>, liked: seq<string>, n: int, boost: real,
                   clock: nat -> string)
    returns (out: seq<Scored>)
    ensures out == Recommended(h, predictions, liked, n, boost, clock)
  {
    var merged := MergeSources(h, predictions, liked, n);
    if merged.None? {
      return [];
    }
    var all := merged.value;
    if boost > 0.0 && h.diversityScores.Some? {
      all := BoostAll(all, h.diversityScores.value, boost);
    }
    assert Final(h, SourcesOf(h, predictions, liked, n), boost) == Some(all);
    var top := TopItems(all, n);
    out := [];
    for i := 0 to |top|
      invariant out == Stamped(top[..i], clock)
    {
      StampedSnoc(top, clock, i);
      out := out + [Scored(top[i].id, top[i].score, clock(i))];
    }
    assert top[..|top|] == top;
  }

  /** Some source loop that runs needs a weight the dict lacks. */
  predicate MissingWeight(weights: map<string, real>, src: Sources) {
    || (src.cf != [] && "collaborative" !in weights)
    || (src.cb != [] && "content" !in weights)
    || (src.pop != [] && "popularity" !in weights)
  }

  /** Some source names the item. */
  predicate Named(src: Sources, id: string) {
    id in Ids(src.cf) || id in Ids(src.cb) || id in Ids(src.pop)
  }

  /** The weighted sum of the item's source scores. */
  function SourceScore(weights: map<string, real>, src: Sources, id: string): real {
    Contribution(src.cf, id, Get(weights, "collaborative", 0.0))
    + Contribution(src.cb, id, Get(weights, "content", 0.0))
    + Contribution(src.pop, id, Get(weights, "popularity", 0.0))
  }

  /** The score `recommend` gives an item: its source score, plus
      `div_score * diversity_boost` when the diversity step runs and the
      injector scored the item. */
  function HybridScore(h: Hybrid, src: Sources, boost: real, id: string): real {
    SourceScore(h.weights, src, id)
    + (if boost > 0.0 && h.diversityScores.Some? && id in h.diversityScores.value
       then Boosted(h.diversityScores.value[id], boost) else 0.0)
  }

  /** A source loop adds the weighted scores of its tuples, and a key for
      each item they name. */
  lemma AddSourceSpec(d: ScoreDict, ps: seq<Pair>, weights: map<string, real>, key: string, id: string)
    requires WellFormed(d) && AddSource(Some(d), ps, weights, key).Some?
    ensures var r := AddSource(Some(d), ps, weights, key).value;
      && (id in r.keys <==> id in d.keys || id in Ids(ps))
      && Total(r, id) == Total(d, id) + Contribution(ps, id, Get(weights, key, 0.0))
  {
    if ps != [] {
      AddPairsKeys(d, ps, weights[key], [], id);
      AddPairsTotal(d, ps, weights[key], [], id);
    }
  }

  /** `recommend` fails exactly when a source loop that runs needs a
      missing weight. */
  lemma MergedNone(weights: map<string, real>, src: Sources)
    ensures Merged(weights, src).None? <==> MissingWeight(weights, src)
  {
  }

  /** After the source loops, an item has a key iff some source names it,
      and holds the weighted sum of its source scores. */
  lemma MergedSpec(weights: map<string, real>, src: Sources, id: string)
    requires Merged(weights, src).Some?
    ensures var d := Merged(weights, src).value;
      && (id in d.keys <==> Named(src, id))
      && Total(d, id) == SourceScore(weights, src, id)
  {
    var d0 := ScoreDict([], map[]);
    var d1 := AddSource(Some(d0), src.cf, weights, "collaborative");
    var d2 := AddSource(d1, src.cb, weights, "content");
    AddSourceSpec(d0, src.cf, weights, "collaborative", id);
    AddSourceSpec(d1.value, src.cb, weights, "content", id);
    AddSourceSpec(d2.value, src.pop, weights, "popularity", id);
  }

  /** The diversity step keeps the keys and adds the boosted injector
      score to each scored key. */
  lemma DiversifiedSpec(h: Hybrid, d: ScoreDict, boost: real, id: string)
    requires WellFormed(d)
    ensures Diversified(h, d, boost).keys == d.keys
    ensures Total(Diversified(h, d, boost), id) == Total(d, id)
      + (if boost > 0.0 && h.diversityScores.Some? && id in d.keys && id in h.diversityScores.value
         then Boosted(h.diversityScores.value[id], boost) else 0.0)
  {
    if boost > 0.0 && h.diversityScores.Some? {
      BoostKeys(d, d.keys, h.diversityScores.value, boost);
      BoostTotal(d, d.keys, h.diversityScores.value, boost, id);
    }
  }

  /** The dict `recommend` sorts exists iff no needed weight is missing;
      an item has a key in it iff some source names it, and then holds its
      hybrid score. */
  lemma FinalSpec(h: Hybrid, src: Sources, boost: real, id: string)
    ensures Final(h, src, boost).None? <==> MissingWeight(h.weights, src)
    ensures var f := Final(h, src, boost);
      f.Some? ==>
        && (id in f.value.keys <==> Named(src, id))
        && (id in f.value.keys ==> Total(f.value, id) == HybridScore(h, src, boost, id))
  {
    MergedNone(h.weights, src);
    var merged := Merged(h.weights, src);
    if merged.Some? {
      MergedSpec(h.weights, src, id);
      DiversifiedSpec(h, merged.value, boost, id);
    }
  }

  /** The list `recommend` returns: [] when a weight it needs is missing;
      otherwise at most `n` dicts with distinct item ids, in descending
      order of score. */
  lemma RecommendShape(h: Hybrid, src: Sources, n: int, boost: real, clock: nat -> string)
    ensures var r := RecommendedFrom(h, src, n, boost, clock);
      && (MissingWeight(h.weights, src) ==> r == [])
      && (forall i :: 0 <= i < |r| ==> r[i].timestamp == clock(i))
      && (n >= 0 ==> |r| <= n)
      && SortedDesc(r, ScoredScore)
      && (forall i, j :: 0 <= i < j < |r| ==> r[i].itemId != r[j].itemId)
  {
    var f := Final(h, src, boost);
    FinalSpec(h, src, boost, "");
    if f.Some? {
      var top := TopItems(f.value, n);
      var r := RecommendedFrom(h, src, n, boost, clock);
      TopItemsSpec(f.value, n);
      forall i, j | 0 <= i < j < |r| ensures r[i].score >= r[j].score {
        assert PairScore(top[i]) >= PairScore(top[j]);
      }
    }
  }

  /** Each dict `recommend` returns is stamped with the clock read made
      for its position and names an item some source named, scored with
      its hybrid score. */
  lemma RecommendMember(h: Hybrid, src: Sources, n: int, boost: real, clock: nat -> string, v: Scored)
    requires v in RecommendedFrom(h, src, n, boost, clock)
    ensures exists k :: 0 <= k < |RecommendedFrom(h, src, n, boost, clock)| && v.timestamp == clock(k)
    ensures Named(src, v.itemId)
    ensures v.score == HybridScore(h, src, boost, v.itemId)
  {
    var f := Final(h, src, boost).value;
    var top := TopItems(f, n);
    var r := RecommendedFrom(h, src, n, boost, clock);
    var k :| 0 <= k < |r| && r[k] == v;
    assert v.timestamp == clock(k);
    TopItemsSpec(f, n);
    assert top[k] in top;
    FinalSpec(h, src, boost, v.itemId);
  }

  /** No item a source named that `recommend` leaves out has a higher
      hybrid score than one it returns. */
  lemma RecommendDominates(h: Hybrid, src: Sources, n: int, boost: real, clock: nat -> string, v: Scored,
                           id: string)
    requires v in RecommendedFrom(h, src, n, boost, clock)
    requires Named(src, id)
    requires forall u :: u in RecommendedFrom(h, src, n, boost, clock) ==> u.itemId != id
    ensures HybridScore(h, src, boost, id) <= v.score
  {
    var f := Final(h, src, boost).value;
    var top := TopItems(f, n);
    var r := RecommendedFrom(h, src, n, boost, clock);
    var k :| 0 <= k < |r| && r[k] == v;
    assert top[k] in top;
    assert id !in Ids(top) by {
      forall p | p in top ensures p.id != id {
        var j :| 0 <= j < |top| && top[j] == p;
        assert r[j] in r;
      }
    }
    FinalSpec(h, src, boost, id);
    TopItemsDominate(f, n, top[k], id);
  }
}
