/** The recommendation dicts the Python recommenders and debiasers pass
    around (`{'item_id': ..., 'score': ..., ...}`), and the Python lists
    holding them. A dict is an object: the code copies some with
    `rec.copy()` and writes keys into others in place, and a list may be
    sorted in place under its caller. */
module RecDicts {
  import opened Common

  /** The contents of one dict at one moment: `item_id`, `score`, the
      other numeric keys (`popularity`, `diversity_score`,
      `combined_score`, `original_score`, `popularity_penalty`), and the
      flag keys that have been set to True. */
  datatype Rec = Rec(itemId: string, score: real, fields: map<string, real>, flags: set<string>)

  /** `d.get(key, default)` on a numeric key. */
  function Get(fields: map<string, real>, key: string, default: real): (r: real)
    ensures key in fields ==> r == fields[key]
    ensures key !in fields ==> r == default
  {
    if key in fields then fields[key] else default
  }

  /** `key=lambda x: x['score']`. */
  function ScoreKey(v: Rec): real { v.score }

  /** The ascending sort `sort(key=lambda x: x['score'])`, as a descending
      sort on the negated score. */
  function AscScoreKey(v: Rec): real { -v.score }

  /** A recommendation dict. Its `item_id` is never rewritten. */
  class RecDict {
    const itemId: string
    var score: real
    var fields: map<string, real>
    var flags: set<string>

    /** A dict with the given contents: a literal or `rec.copy()`. */
    constructor (v: Rec)
      ensures Value() == v
    {
      itemId := v.itemId;
      score := v.score;
      fields := v.fields;
      flags := v.flags;
    }

    function Value(): Rec
      reads this
    {
      Rec(itemId, score, fields, flags)
    }
  }

  /** The contents of the dicts of a list, in list order. */
  function Values(rs: seq<RecDict>): (vs: seq<Rec>)
    reads rs
    ensures |vs| == |rs|
    ensures forall k :: 0 <= k < |rs| ==> vs[k] == rs[k].Value()
  {
    if rs == [] then [] else [rs[0].Value()] + Values(rs[1..])
  }

  /** One new dict per value, in order: a loop of `rec.copy()` or of
      dict literals appended to a fresh list. */
  method NewDicts(vs: seq<Rec>) returns (rs: seq<RecDict>)
    ensures Values(rs) == vs
    ensures forall r :: r in rs ==> fresh(r)
  {
    rs := [];
    for i := 0 to |vs|
      invariant |rs| == i
      invariant forall r :: r in rs ==> fresh(r)
      invariant forall k :: 0 <= k < i ==> rs[k].Value() == vs[k]
    {
      var r := new RecDict(vs[i]);
      rs := rs + [r];
    }
  }

  /** The scores of a list of dicts, in list order. Reads nothing but the
      `score` keys, so writing other keys leaves it unchanged. */
  function Scores(rs: seq<RecDict>): (ss: seq<real>)
    reads rs`score
    ensures |ss| == |rs|
    ensures forall k :: 0 <= k < |rs| ==> ss[k] == rs[k].score
  {
    if rs == [] then [] else [rs[0].score] + Scores(rs[1..])
  }

  /** A list of scores in ascending order. */
  predicate Ascending(ss: seq<real>) {
    forall i, j :: 0 <= i < j < |ss| ==> ss[i] <= ss[j]
  }

  /** The `item_id`s of a list of dicts. */
  function ItemIds(rs: seq<RecDict>): (ids: set<string>)
    ensures forall r :: r in rs ==> r.itemId in ids
    ensures forall id :: id in ids ==> exists r :: r in rs && r.itemId == id
  {
    set r | r in rs :: r.itemId
  }

  function RecIds(vs: seq<Rec>): (ids: set<string>)
    ensures forall v :: v in vs ==> v.itemId in ids
    ensures forall id :: id in ids ==> exists v :: v in vs && v.itemId == id
  {
    set v | v in vs :: v.itemId
  }

  lemma ValuesIds(rs: seq<RecDict>)
    ensures RecIds(Values(rs)) == ItemIds(rs)
  {
    var vs := Values(rs);
    forall id | id in ItemIds(rs) ensures id in RecIds(vs) {
      var r :| r in rs && r.itemId == id;
      var k :| 0 <= k < |rs| && rs[k] == r;
      assert vs[k].itemId == id;
    }
    forall id | id in RecIds(vs) ensures id in ItemIds(rs) {
      var v :| v in vs && v.itemId == id;
      var k :| 0 <= k < |vs| && vs[k] == v;
      assert rs[k].itemId == id;
    }
  }

  /** A dict paired with its contents at the moment of sorting. */
  datatype Entry = Entry(ref: RecDict, value: Rec)

  function RefOf(e: Entry): RecDict { e.ref }
  function ValueOfEntry(e: Entry): Rec { e.value }

  function Entries(rs: seq<RecDict>): (es: seq<Entry>)
    reads rs
    ensures |es| == |rs|
    ensures forall k :: 0 <= k < |rs| ==> es[k] == Entry(rs[k], rs[k].Value())
  {
    if rs == [] then [] else [Entry(rs[0], rs[0].Value())] + Entries(rs[1..])
  }

  /** Every entry still holds its dict's current contents. */
  ghost predicate Current(es: seq<Entry>)
    reads set e | e in es :: e.ref
  {
    forall e :: e in es ==> e.value == e.ref.Value()
  }

  /** The entries of a list are current, and hold its dicts and contents. */
  lemma EntriesCurrent(rs: seq<RecDict>)
    ensures Current(Entries(rs))
    ensures Map(Entries(rs), RefOf) == rs
    ensures Map(Entries(rs), ValueOfEntry) == Values(rs)
  {
    var es := Entries(rs);
    forall e | e in es ensures e.value == e.ref.Value() {
      var k :| 0 <= k < |es| && es[k] == e;
    }
  }

  /** A rearrangement of current entries lists its dicts' contents. */
  lemma CurrentValues(es: seq<Entry>, s: seq<Entry>)
    requires Current(es)
    requires forall e :: e in s ==> e in es
    ensures Values(Map(s, RefOf)) == Map(s, ValueOfEntry)
  {
    forall k | 0 <= k < |s| ensures Values(Map(s, RefOf))[k] == Map(s, ValueOfEntry)[k] {
      assert s[k] in es;
    }
  }

  /** `rs.sort(key=key, reverse=True)` (or `sorted`): Python's stable sort
      of the dicts, largest key first. The dicts themselves are untouched;
      the list holds the same dicts, and their contents appear in the
      stable descending order of their keys. */
  function SortRecs(rs: seq<RecDict>, key: Rec -> real): (sorted: seq<RecDict>)
    reads rs
    ensures multiset(sorted) == multiset(rs)
    ensures Values(sorted) == SortDesc(Values(rs), key)
  {
    SortedEntries(rs, key);
    Map(SortDesc(Entries(rs), EntryKey(key)), RefOf)
  }

  /** A key on dicts as a key on entries. */
  function EntryKey(key: Rec -> real): Entry -> real {
    (e: Entry) => key(e.value)
  }

  lemma SortedEntries(rs: seq<RecDict>, key: Rec -> real)
    ensures var sorted := Map(SortDesc(Entries(rs), EntryKey(key)), RefOf);
      && multiset(sorted) == multiset(rs)
      && Values(sorted) == SortDesc(Values(rs), key)
  {
    var es := Entries(rs);
    var ekey := EntryKey(key);
    var s := SortDesc(es, ekey);
    EntriesCurrent(rs);
    assert multiset(Map(s, RefOf)) == multiset(rs) by {
      SortDescMap(es, ekey, RefOf);
    }
    assert Values(Map(s, RefOf)) == SortDesc(Values(rs), key) by {
      SortDescMapCommute(es, ekey, ValueOfEntry, key);
      SortDescElems(es, ekey);
      CurrentValues(es, s);
    }
  }
}
