/** Shared vocabulary of the model: nullable values, error results, clamping,
    sums and counts over sequences, Python's slicing and `int()` truncation,
    Java's truncating integer division, and the stable descending sort that
    both `List.sort(Comparator.reversed())` in Java and
    `sorted(..., reverse=True)` in Python perform. */
module Common {

  /** A Java reference or Python value that may be `null`/`None`. */
  datatype Option<T> = None | Some(value: T) {
    function GetOr(default: T): T {
      match this
      case Some(v) => v
      case None => default
    }
  }

  /** An operation that either produces a value or raises/throws. */
  datatype Result<T> = Ok(value: T) | Err(error: string)

  /** `Math.max(0.0, Math.min(1.0, x))` and `max(0.0, min(1.0, x))`. */
  function Clamp01(x: real): (r: real)
    ensures 0.0 <= r <= 1.0
    ensures 0.0 <= x <= 1.0 ==> r == x
    ensures x < 0.0 ==> r == 0.0
    ensures x > 1.0 ==> r == 1.0
  {
    if x < 0.0 then 0.0 else if x > 1.0 then 1.0 else x
  }

  function MinR(a: real, b: real): real { if a <= b then a else b }
  function MaxR(a: real, b: real): real { if a >= b then a else b }
  function MinI(a: int, b: int): int { if a <= b then a else b }
  function MaxI(a: int, b: int): int { if a >= b then a else b }
  function AbsR(x: real): real { if x < 0.0 then -x else x }
  function AbsI(x: int): int { if x < 0 then -x else x }

  lemma MulMonotone(a: real, b: real, c: real)
    requires c >= 0.0
    ensures a <= b ==> a * c <= b * c
    ensures a > b && c > 0.0 ==> a * c > b * c
  {
    if a <= b {
      assert b * c - a * c == (b - a) * c;
    } else if c > 0.0 {
      assert a * c - b * c == (a - b) * c;
    }
  }

  /** Scaling by a factor in [0,1] keeps a non-negative value between 0 and itself. */
  lemma ScaleUnit(x: real, c: real)
    requires 0.0 <= x <= 1.0 && c >= 0.0
    ensures 0.0 <= x * c <= c
  {
    assert c - x * c == (1.0 - x) * c;
  }

  lemma AddBounds(a: real, b: real, v: real, w: real)
    requires 0.0 <= a <= v && 0.0 <= b <= w
    ensures 0.0 <= a + b <= v + w
  {
  }

  /** The identity on reals, for sums of plain values. */
  function IdR(x: real): real { x }

  /** Sum of `f` over `s`, accumulated left to right. */
  function SumOf<T>(s: seq<T>, f: T -> real): real {
    if s == [] then 0.0 else SumOf(s[..|s| - 1], f) + f(s[|s| - 1])
  }

  function SumIntOf<T>(s: seq<T>, f: T -> int): int {
    if s == [] then 0 else SumIntOf(s[..|s| - 1], f) + f(s[|s| - 1])
  }

  /** Number of elements of `s` satisfying `p`. */
  function CountOf<T>(s: seq<T>, p: T -> bool): (n: nat)
    ensures n <= |s|
  {
    if s == [] then 0 else CountOf(s[..|s| - 1], p) + (if p(s[|s| - 1]) then 1 else 0)
  }

  function Filter<T>(s: seq<T>, p: T -> bool): (r: seq<T>)
    ensures |r| == CountOf(s, p)
    ensures forall x :: x in r ==> x in s && p(x)
    ensures forall x :: x in s && p(x) ==> x in r
  {
    if s == [] then [] else Filter(s[..|s| - 1], p) + (if p(s[|s| - 1]) then [s[|s| - 1]] else [])
  }

  function Map<T, U>(s: seq<T>, f: T -> U): (r: seq<U>)
    ensures |r| == |s|
    ensures forall i :: 0 <= i < |s| ==> r[i] == f(s[i])
  {
    if s == [] then [] else Map(s[..|s| - 1], f) + [f(s[|s| - 1])]
  }

  lemma {:induction false} SumOfAppend<T>(a: seq<T>, b: seq<T>, f: T -> real)
    ensures SumOf(a + b, f) == SumOf(a, f) + SumOf(b, f)
  {
    if b == [] {
      assert a + b == a;
    } else {
      assert (a + b)[..|a + b| - 1] == a + b[..|b| - 1];
      SumOfAppend(a, b[..|b| - 1], f);
    }
  }

  lemma {:induction false} SumOfBounds<T>(s: seq<T>, f: T -> real, lo: real, hi: real)
    requires forall x :: x in s ==> lo <= f(x) <= hi
    ensures |s| as real * lo <= SumOf(s, f) <= |s| as real * hi
  {
    if s != [] {
      SumOfBounds(s[..|s| - 1], f, lo, hi);
    }
  }

  lemma {:induction false} SumOfAtMost<T>(s: seq<T>, f: T -> real, hi: real)
    requires forall x :: x in s ==> f(x) <= hi
    ensures SumOf(s, f) <= |s| as real * hi
  {
    if s != [] {
      SumOfAtMost(s[..|s| - 1], f, hi);
    }
  }

  lemma {:induction false} SumOfNonNeg<T>(s: seq<T>, f: T -> real)
    requires forall x :: x in s ==> f(x) >= 0.0
    ensures SumOf(s, f) >= 0.0
  {
    if s != [] {
      SumOfNonNeg(s[..|s| - 1], f);
    }
  }

  lemma {:induction false} CountOfAppend<T>(a: seq<T>, b: seq<T>, p: T -> bool)
    ensures CountOf(a + b, p) == CountOf(a, p) + CountOf(b, p)
  {
    if b == [] {
      assert a + b == a;
    } else {
      assert (a + b)[..|a + b| - 1] == a + b[..|b| - 1];
      CountOfAppend(a, b[..|b| - 1], p);
    }
  }

  /** Counts under two predicates that never hold together add up to at most |s|. */
  lemma {:induction false} CountOfDisjoint<T>(s: seq<T>, p: T -> bool, q: T -> bool)
    requires forall x :: x in s ==> !(p(x) && q(x))
    ensures CountOf(s, p) + CountOf(s, q) <= |s|
  {
    if s != [] {
      CountOfDisjoint(s[..|s| - 1], p, q);
    }
  }

  /** The set of distinct elements of `s`: Java's `Collectors.toSet()`,
      Python's `set(...)`. */
  function Elems<T>(s: seq<T>): set<T> {
    set x | x in s
  }

  lemma {:induction false} ElemsCard<T>(s: seq<T>)
    ensures |Elems(s)| <= |s|
    ensures s != [] ==> |Elems(s)| >= 1
  {
    if s != [] {
      var t := s[..|s| - 1];
      ElemsCard(t);
      assert Elems(s) == Elems(t) + {s[|s| - 1]} by {
        forall x ensures x in Elems(s) <==> x in Elems(t) + {s[|s| - 1]} {
          if x in s {
            var i :| 0 <= i < |s| && s[i] == x;
            if i < |s| - 1 { assert t[i] == x; }
          }
        }
      }
      assert s[|s| - 1] in Elems(s);
    }
  }

  /** A subset is no larger than its superset. */
  lemma {:induction false} SubsetCard<T>(a: set<T>, b: set<T>)
    requires a <= b
    ensures |a| <= |b|
    decreases a
  {
    if a != {} {
      var x :| x in a;
      SubsetCard(a - {x}, b - {x});
    }
  }

  /** A sequence whose elements are pairwise distinct. */
  predicate Distinct<T(==)>(s: seq<T>) {
    forall i, j :: 0 <= i < j < |s| ==> s[i] != s[j]
  }

  /** Appending a new element keeps a sequence without repeats. */
  lemma DistinctSnoc<T>(s: seq<T>, x: T)
    requires Distinct(s) && x !in s
    ensures Distinct(s + [x])
  {
    var t := s + [x];
    forall i, j | 0 <= i < j < |t| ensures t[i] != t[j] {
      if j == |s| {
        assert t[i] == s[i];
      }
    }
  }

  /** Filtering a sequence without repeats keeps it without repeats. */
  lemma {:induction false} FilterDistinct<T>(s: seq<T>, p: T -> bool)
    requires Distinct(s)
    ensures Distinct(Filter(s, p))
  {
    if s != [] {
      var init := s[..|s| - 1];
      var last := s[|s| - 1];
      assert Distinct(init);
      FilterDistinct(init, p);
      if p(last) {
        assert last !in init;
        DistinctSnoc(Filter(init, p), last);
      }
    }
  }

  /** Filtering by a predicate every element already meets is the identity. */
  lemma {:induction false} FilterAll<T>(s: seq<T>, p: T -> bool)
    requires forall i :: 0 <= i < |s| ==> p(s[i])
    ensures Filter(s, p) == s
  {
    if s != [] {
      var init := s[..|s| - 1];
      assert forall i :: 0 <= i < |init| ==> p(init[i]) by {
        forall i | 0 <= i < |init| ensures p(init[i]) {
          assert init[i] == s[i];
        }
      }
      FilterAll(init, p);
      SnocSplit(s);
    }
  }

  /** A non-empty sequence is its front followed by its last element. */
  lemma SnocSplit<T>(s: seq<T>)
    requires s != []
    ensures s[..|s| - 1] + [s[|s| - 1]] == s
  {
  }

  /** Each element occurs at most once in a sequence without repeats. */
  lemma {:induction false} DistinctOccursOnce<T>(s: seq<T>, x: T)
    requires Distinct(s)
    ensures multiset(s)[x] <= 1
  {
    if s != [] {
      var t := s[..|s| - 1];
      assert s == t + [s[|s| - 1]];
      DistinctOccursOnce(t, x);
      if x == s[|s| - 1] {
        assert x !in t;
      }
    }
  }

  /** A repeated element occurs at least twice. */
  lemma RepeatOccursTwice<T>(s: seq<T>, i: nat, j: nat)
    requires i < j < |s| && s[i] == s[j]
    ensures multiset(s)[s[i]] >= 2
  {
    assert s == s[..j] + [s[j]] + s[j + 1..];
    assert s[i] in s[..j];
  }

  /** A permutation of a sequence without repeats has none either. */
  lemma DistinctPermutation<T>(a: seq<T>, b: seq<T>)
    requires multiset(a) == multiset(b) && Distinct(a)
    ensures Distinct(b)
  {
    forall i, j | 0 <= i < j < |b| ensures b[i] != b[j] {
      if b[i] == b[j] {
        RepeatOccursTwice(b, i, j);
        DistinctOccursOnce(a, b[i]);
      }
    }
  }

  /** A sequence has as many distinct elements as positions exactly when
      no element repeats. */
  lemma {:induction false} DistinctIffElemsCard<T>(s: seq<T>)
    ensures Distinct(s) <==> |Elems(s)| == |s|
  {
    if s != [] {
      var t := s[..|s| - 1];
      var last := s[|s| - 1];
      DistinctIffElemsCard(t);
      ElemsCard(t);
      assert Elems(s) == Elems(t) + {last} by {
        forall x ensures x in Elems(s) <==> x in Elems(t) + {last} {
          if x in s {
            var i :| 0 <= i < |s| && s[i] == x;
            if i < |s| - 1 { assert t[i] == x; }
          }
        }
      }
      if last in t {
        var j :| 0 <= j < |t| && t[j] == last;
        assert s[j] == s[|s| - 1];
        assert Elems(s) == Elems(t);
      } else {
        assert Distinct(s) <==> Distinct(t) by {
          if Distinct(t) {
            forall i, j | 0 <= i < j < |s| ensures s[i] != s[j] {
              if j == |s| - 1 { assert s[i] == t[i]; } else { assert s[i] == t[i] && s[j] == t[j]; }
            }
          }
          if Distinct(s) {
            forall i, j | 0 <= i < j < |t| ensures t[i] != t[j] {
              assert s[i] == t[i] && s[j] == t[j];
            }
          }
        }
      }
    }
  }

  /** Python's normalisation of a slice bound against a length. */
  function PyBound(i: int, len: nat): (r: nat)
    ensures r <= len
    ensures 0 <= i <= len ==> r == i
  {
    if i < 0 then (if len + i < 0 then 0 else len + i) else if i > len then len else i
  }

  /** Python's `s[lo:hi]` for any integers `lo` and `hi`. */
  function PySlice<T>(s: seq<T>, lo: int, hi: int): (r: seq<T>)
    ensures |r| <= |s|
    ensures 0 <= lo <= hi <= |s| ==> r == s[lo..hi]
  {
    var a := PyBound(lo, |s|);
    var b := PyBound(hi, |s|);
    if a <= b then s[a..b] else []
  }

  /** Python's `s[lo:]`. */
  function PyFrom<T>(s: seq<T>, lo: int): (r: seq<T>)
    ensures |r| <= |s|
  {
    PySlice(s, lo, |s|)
  }

  /** Python's `s[:hi]`. */
  function PyTo<T>(s: seq<T>, hi: int): (r: seq<T>)
    ensures |r| <= |s|
  {
    PySlice(s, 0, hi)
  }

  lemma PyToPrefix<T>(s: seq<T>, hi: int)
    requires hi >= 0
    ensures PyTo(s, hi) == s[..MinI(hi, |s|)]
  {
  }

  lemma PyFromSuffix<T>(s: seq<T>, lo: int)
    requires lo >= 0
    ensures PyFrom(s, lo) == s[MinI(lo, |s|)..]
  {
  }

  /** `s[lo:]` is always a suffix of `s`. */
  lemma PyFromIsSuffix<T>(s: seq<T>, lo: int)
    ensures PyFrom(s, lo) == s[PyBound(lo, |s|)..]
  {
  }

  /** `s[:hi]` is always a prefix of `s`. */
  lemma PyToIsPrefix<T>(s: seq<T>, hi: int)
    ensures PyTo(s, hi) == s[..PyBound(hi, |s|)]
  {
  }

  /** The first `n` elements, or all of them: Java's `stream().limit(n)`. */
  function Take<T>(s: seq<T>, n: nat): (r: seq<T>)
    ensures |r| == MinI(n, |s|)
    ensures forall i :: 0 <= i < |r| ==> r[i] == s[i]
  {
    if n <= |s| then s[..n] else s
  }

  /** Python's `int(x)` on a float: truncation toward zero. */
  function Trunc(x: real): (r: int)
    ensures x >= 0.0 ==> 0 <= r && r as real <= x < r as real + 1.0
    ensures x < 0.0 ==> r <= 0 && r as real - 1.0 < x <= r as real
  {
    if x >= 0.0 then x.Floor else -((-x).Floor)
  }

  /** Java's `a / b` on `long`/`int`: the quotient truncated toward zero. */
  function JDiv(a: int, b: int): int
    requires b > 0
  {
    if a >= 0 then a / b else -((-a) / b)
  }

  /** Java's `a % b`: the remainder takes the sign of `a`. */
  function JRem(a: int, b: int): (r: int)
    requires b > 0
    ensures a == b * JDiv(a, b) + r
    ensures a >= 0 ==> 0 <= r < b
    ensures a < 0 ==> -b < r <= 0
  {
    a - b * JDiv(a, b)
  }

  /** Euclidean division is determined by quotient and remainder. */
  lemma DivModUnique(a: int, b: int, q: int, r: int)
    requires b > 0 && a == b * q + r && 0 <= r < b
    ensures a / b == q && a % b == r
  {
    var q', r' := a / b, a % b;
    assert a == b * q' + r' && 0 <= r' < b;
    var d := q - q';
    assert b * d == r' - r;
    if d >= 1 { MulAtLeast(b, d); }
    if d <= -1 { MulAtLeast(b, -d); }
  }

  lemma MulAtLeast(b: int, d: int)
    requires b > 0 && d >= 1
    ensures b * d >= b
  {
  }

  // ---------------------------------------------------------------------
  // Stable descending sort
  // ---------------------------------------------------------------------

  predicate SortedDesc<T>(s: seq<T>, key: T -> real) {
    forall i, j :: 0 <= i < j < |s| ==> key(s[i]) >= key(s[j])
  }

  /** Inserts `x` into a descending sequence in front of the first element
      whose key is not larger than its own. */
  function InsertDesc<T>(x: T, s: seq<T>, key: T -> real): (r: seq<T>)
    requires SortedDesc(s, key)
    ensures |r| == |s| + 1
    ensures r[0] == x || (s != [] && r[0] == s[0])
    ensures SortedDesc(r, key)
  {
    if s == [] || key(x) >= key(s[0]) then
      [x] + s
    else
      var rest := InsertDesc(x, s[1..], key);
      var r := [s[0]] + rest;
      assert SortedDesc(r, key) by {
        forall i, j | 0 <= i < j < |r| ensures key(r[i]) >= key(r[j]) {
          if i == 0 {
            assert r[j] == rest[j - 1];
            assert key(rest[0]) >= key(rest[j - 1]) || j - 1 == 0;
          } else {
            assert r[i] == rest[i - 1] && r[j] == rest[j - 1];
          }
        }
      }
      r
  }

  lemma InsertDescPerm<T>(x: T, s: seq<T>, key: T -> real)
    requires SortedDesc(s, key)
    ensures multiset(InsertDesc(x, s, key)) == multiset(s) + multiset{x}
  {
    if s != [] && key(x) < key(s[0]) {
      InsertDescPerm(x, s[1..], key);
      assert s == [s[0]] + s[1..];
    }
  }

  /** Stable sort by `key`, largest first: `sorted(s, key=key, reverse=True)`
      and `s.sort(Comparator.comparing(key).reversed())`. */
  function SortDesc<T>(s: seq<T>, key: T -> real): (r: seq<T>)
    ensures |r| == |s|
    ensures multiset(r) == multiset(s)
    ensures SortedDesc(r, key)
  {
    if s == [] then []
    else
      assert s == [s[0]] + s[1..];
      var rest := SortDesc(s[1..], key);
      InsertDescPerm(s[0], rest, key);
      InsertDesc(s[0], rest, key)
  }

  /** The elements of `s` whose key equals `v`, in their order in `s`. */
  function WithKey<T>(s: seq<T>, key: T -> real, v: real): seq<T> {
    if s == [] then [] else (if key(s[0]) == v then [s[0]] else []) + WithKey(s[1..], key, v)
  }

  lemma {:induction false} InsertDescStable<T>(x: T, s: seq<T>, key: T -> real, v: real)
    requires SortedDesc(s, key)
    ensures WithKey(InsertDesc(x, s, key), key, v)
         == (if key(x) == v then [x] else []) + WithKey(s, key, v)
  {
    if s == [] || key(x) >= key(s[0]) {
      assert ([x] + s)[1..] == s;
    } else {
      var rest := InsertDesc(x, s[1..], key);
      assert ([s[0]] + rest)[1..] == rest;
      InsertDescStable(x, s[1..], key, v);
      var fx := if key(x) == v then [x] else [];
      var fs := if key(s[0]) == v then [s[0]] else [];
      assert fs + fx == fx + fs;
      assert fs + (fx + WithKey(s[1..], key, v)) == fx + (fs + WithKey(s[1..], key, v));
    }
  }

  /** Stability: among elements with equal keys, the sorted sequence keeps
      the order they had in `s`. */
  lemma {:induction false} SortDescStable<T>(s: seq<T>, key: T -> real, v: real)
    ensures WithKey(SortDesc(s, key), key, v) == WithKey(s, key, v)
  {
    if s != [] {
      SortDescStable(s[1..], key, v);
      InsertDescStable(s[0], SortDesc(s[1..], key), key, v);
    }
  }

  lemma SortDescElems<T>(s: seq<T>, key: T -> real)
    ensures forall x :: x in SortDesc(s, key) <==> x in s
  {
    var r := SortDesc(s, key);
    forall x ensures x in r <==> x in s {
      assert x in r <==> x in multiset(r);
      assert x in s <==> x in multiset(s);
    }
  }

  /** Two sequences that are permutations of each other hold the same
      elements. */
  lemma SameMembers<T>(a: seq<T>, b: seq<T>)
    requires multiset(a) == multiset(b)
    ensures forall x :: x in a <==> x in b
  {
    forall x ensures x in a <==> x in b {
      assert x in a <==> x in multiset(a);
      assert x in b <==> x in multiset(b);
    }
  }

  /** A prefix of a descending sequence is descending. */
  lemma TakeSorted<T>(s: seq<T>, n: nat, key: T -> real)
    requires SortedDesc(s, key)
    ensures SortedDesc(Take(s, n), key)
  {
  }

  /** Python's `sorted(s, key=key, reverse=True)[:n]`: at most `n`
      elements of `s`, best first, and none of `s` left out has a larger
      key than one kept; without repeats in `s` there are none in the
      result. */
  lemma TopOf<T>(s: seq<T>, key: T -> real, n: int)
    ensures var r := PyTo(SortDesc(s, key), n);
      && |r| == PyBound(n, |s|)
      && SortedDesc(r, key)
      && (forall x :: x in r ==> x in s)
      && (forall x, y :: x in r && y in s && y !in r ==> key(x) >= key(y))
      && (Distinct(s) ==> Distinct(r))
  {
    var sorted := SortDesc(s, key);
    var k := PyBound(n, |s|);
    var r := sorted[..k];
    assert PyTo(sorted, n) == r;
    PrefixSorted(sorted, key, k);
    SortDescElems(s, key);
    PrefixDominates(sorted, key, k);
    if Distinct(s) {
      DistinctPermutation(s, sorted);
      assert Distinct(r);
    }
  }

  lemma PrefixSorted<T>(s: seq<T>, key: T -> real, k: nat)
    requires SortedDesc(s, key) && k <= |s|
    ensures SortedDesc(s[..k], key)
  {
  }

  /** In a descending sequence, every element of a prefix has a key at
      least that of every element outside it. */
  lemma PrefixDominates<T>(sorted: seq<T>, key: T -> real, k: nat)
    requires SortedDesc(sorted, key) && k <= |sorted|
    ensures forall x, y :: x in sorted[..k] && y in sorted && y !in sorted[..k] ==> key(x) >= key(y)
  {
    forall x, y | x in sorted[..k] && y in sorted && y !in sorted[..k] ensures key(x) >= key(y) {
      var p :| 0 <= p < |sorted| && sorted[p] == y;
      var q :| 0 <= q < k && sorted[..k][q] == x;
      assert p >= k;
    }
  }

  /** One more element, one more mapped element at the end. */
  lemma MapSnoc<T, U>(s: seq<T>, f: T -> U, i: nat)
    requires i < |s|
    ensures Map(s[..i + 1], f) == Map(s[..i], f) + [f(s[i])]
  {
    assert s[..i + 1][..i] == s[..i];
  }

  lemma MapCons<T, U>(x: T, s: seq<T>, f: T -> U)
    ensures Map([x] + s, f) == [f(x)] + Map(s, f)
  {
  }

  /** `Filter` peeled from the front. */
  lemma {:induction false} FilterCons<T>(x: T, s: seq<T>, p: T -> bool)
    ensures Filter([x] + s, p) == (if p(x) then [x] else []) + Filter(s, p)
  {
    if s != [] {
      var xs := [x] + s;
      var init, last := s[..|s| - 1], s[|s| - 1];
      var head := if p(x) then [x] else [];
      var tail := if p(last) then [last] else [];
      assert xs[..|xs| - 1] == [x] + init && xs[|xs| - 1] == last;
      assert Filter(xs, p) == Filter([x] + init, p) + tail;
      assert Filter(s, p) == Filter(init, p) + tail;
      FilterCons(x, init, p);
      AppendAssoc(head, Filter(init, p), tail);
    }
  }

  lemma AppendAssoc<T>(a: seq<T>, b: seq<T>, c: seq<T>)
    ensures (a + b) + c == a + (b + c)
  {
  }

  lemma MapAppend<T, U>(a: seq<T>, b: seq<T>, f: T -> U)
    ensures Map(a + b, f) == Map(a, f) + Map(b, f)
  {
  }

  /** A prefix holds each element at most as often as the whole. */
  lemma TakeSubMultiset<T>(s: seq<T>, n: nat)
    ensures multiset(Take(s, n)) <= multiset(s)
  {
    if n <= |s| {
      assert s == s[..n] + s[n..];
    }
  }

  lemma {:induction false} InsertDescMap<T, U>(x: T, s: seq<T>, key: T -> real, f: T -> U)
    requires SortedDesc(s, key)
    ensures multiset(Map(InsertDesc(x, s, key), f)) == multiset(Map(s, f)) + multiset{f(x)}
  {
    if s == [] || key(x) >= key(s[0]) {
      assert InsertDesc(x, s, key) == [x] + s;
      MapCons(x, s, f);
    } else {
      SortedTail(s, key);
      var rest := InsertDesc(x, s[1..], key);
      InsertDescMap(x, s[1..], key, f);
      assert InsertDesc(x, s, key) == [s[0]] + rest;
      MapCons(s[0], rest, f);
      MapHeadTail(s, f);
    }
  }

  lemma SortedTail<T>(s: seq<T>, key: T -> real)
    requires s != [] && SortedDesc(s, key)
    ensures SortedDesc(s[1..], key)
  {
  }

  /** Sorting permutes the images of the elements under any function too. */
  lemma {:induction false} SortDescMap<T, U>(s: seq<T>, key: T -> real, f: T -> U)
    ensures multiset(Map(SortDesc(s, key), f)) == multiset(Map(s, f))
  {
    if s != [] {
      var rest := SortDesc(s[1..], key);
      SortDescMap(s[1..], key, f);
      InsertDescMap(s[0], rest, key, f);
      assert SortDesc(s, key) == InsertDesc(s[0], rest, key);
      MapHeadTail(s, f);
    }
  }

  lemma MapHeadTail<T, U>(s: seq<T>, f: T -> U)
    requires s != []
    ensures Map(s, f) == [f(s[0])] + Map(s[1..], f)
  {
    assert s == [s[0]] + s[1..];
    MapCons(s[0], s[1..], f);
  }

  /** Sorting commutes with a map `f` whenever the key factors through `f`. */
  lemma {:induction false} InsertDescMapCommute<T, U>(x: T, s: seq<T>, k1: T -> real, f: T -> U, k2: U -> real)
    requires SortedDesc(s, k1)
    requires forall y :: k1(y) == k2(f(y))
    ensures SortedDesc(Map(s, f), k2)
    ensures Map(InsertDesc(x, s, k1), f) == InsertDesc(f(x), Map(s, f), k2)
  {
    var ms := Map(s, f);
    assert SortedDesc(ms, k2) by {
      forall i, j | 0 <= i < j < |ms| ensures k2(ms[i]) >= k2(ms[j]) {
        assert k1(s[i]) >= k1(s[j]);
      }
    }
    if s == [] || k1(x) >= k1(s[0]) {
      assert InsertDesc(x, s, k1) == [x] + s;
      MapCons(x, s, f);
      assert s != [] ==> ms[0] == f(s[0]);
      assert InsertDesc(f(x), ms, k2) == [f(x)] + ms;
    } else {
      SortedTail(s, k1);
      var rest := InsertDesc(x, s[1..], k1);
      InsertDescMapCommute(x, s[1..], k1, f, k2);
      assert InsertDesc(x, s, k1) == [s[0]] + rest;
      MapCons(s[0], rest, f);
      MapHeadTail(s, f);
      assert k2(f(x)) < k2(ms[0]);
      assert InsertDesc(f(x), ms, k2) == [ms[0]] + InsertDesc(f(x), ms[1..], k2);
    }
  }

  lemma {:induction false} SortDescMapCommute<T, U>(s: seq<T>, k1: T -> real, f: T -> U, k2: U -> real)
    requires forall y :: k1(y) == k2(f(y))
    ensures Map(SortDesc(s, k1), f) == SortDesc(Map(s, f), k2)
  {
    if s != [] {
      var ms := Map(s, f);
      SortDescMapCommute(s[1..], k1, f, k2);
      InsertDescMapCommute(s[0], SortDesc(s[1..], k1), k1, f, k2);
      assert ms[0] == f(s[0]) && ms[1..] == Map(s[1..], f);
      assert SortDesc(s, k1) == InsertDesc(s[0], SortDesc(s[1..], k1), k1);
      assert SortDesc(ms, k2) == InsertDesc(f(s[0]), SortDesc(Map(s[1..], f), k2), k2);
    }
  }

  /** `np.mean(xs)` of a non-empty list. */
  function Mean(xs: seq<real>): real
    requires xs != []
  {
    SumOf(xs, IdR) / |xs| as real
  }

  /** `np.mean(xs) if xs else 0`. */
  function MeanOrZero(xs: seq<real>): real {
    if xs == [] then 0.0 else Mean(xs)
  }

  /** A mean lies within any bounds of the values averaged. */
  lemma MeanBetween(xs: seq<real>, lo: real, hi: real)
    requires xs != []
    requires forall x :: x in xs ==> lo <= x <= hi
    ensures lo <= Mean(xs) <= hi
  {
    SumOfBounds(xs, IdR, lo, hi);
    AverageArith(|xs| as real, SumOf(xs, IdR), lo, hi);
  }

  lemma AverageArith(n: real, total: real, lo: real, hi: real)
    requires n >= 1.0 && n * lo <= total <= n * hi
    ensures lo <= total / n <= hi
  {
    var q := total / n;
    assert q * n == total;
    if q > hi {
      MulMonotone(q, hi, n);
    }
    if q < lo {
      MulMonotone(lo, q, n);
    }
  }

  /** The two facts about a quotient the NDCG lemmas use. */
  lemma Quotient(a: real, b: real)
    requires b > 0.0
    ensures a >= 0.0 ==> a / b >= 0.0
    ensures a == b ==> a / b == 1.0
  {
    var q := a / b;
    assert q * b == a;
    if a >= 0.0 && q < 0.0 {
      MulMonotone(0.0, q, b);
    }
  }

  lemma DivExact(x: real, y: real, t: real)
    requires t != 0.0 && x == y * t
    ensures x / t == y
  {
  }

  lemma DivAdd(x: real, y: real, t: real)
    requires t != 0.0
    ensures x / t + y / t == (x + y) / t
  {
    var p := x / t;
    var q := y / t;
    assert p * t == x && q * t == y;
    assert (p + q) * t == p * t + q * t;
    DivExact(x + y, p + q, t);
  }

  /** `unique / total` is in [0,1] and is 1 exactly when they are equal. */
  lemma RatioOfCounts(u: nat, n: nat)
    requires 0 < n && u <= n
    ensures 0.0 <= u as real / n as real <= 1.0
    ensures u as real / n as real == 1.0 <==> u == n
  {
    var q := u as real / n as real;
    assert q * n as real == u as real;
    AverageArith(n as real, u as real, 0.0, 1.0);
    if q == 1.0 {
      assert u as real == n as real;
    }
  }

  /** `count / len(xs)` of two disjoint counts over the same list. */
  lemma RatioPair(a: nat, b: nat, n: nat)
    requires n > 0 && a + b <= n
    ensures 0.0 <= a as real / n as real && 0.0 <= b as real / n as real
    ensures a as real / n as real + b as real / n as real <= 1.0
  {
    var N := n as real;
    var x := a as real / N;
    var y := b as real / N;
    assert x * N == a as real && y * N == b as real;
    if x < 0.0 {
      MulMonotone(0.0, x, N);
    }
    if y < 0.0 {
      MulMonotone(0.0, y, N);
    }
    assert (x + y) * N == (a + b) as real;
    if x + y > 1.0 {
      MulMonotone(x + y, 1.0, N);
    }
  }
}
