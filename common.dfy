/** Values and sequence operations shared by every part of the model:
    optional values, JSON documents, JavaScript's truthiness of optional
    strings, `Array.prototype.filter`, `Array.prototype.slice`, a stable sort
    by descending key, `Math.ceil` of a page count and decimal rendering. */
module Common {

  datatype Option<T> = None | Some(value: T)

  /** A value or the error that replaces it. */
  datatype Result<T, E> = Ok(value: T) | Err(error: E)

  /** Wall-clock instants, in milliseconds (`Date.now()`). */
  type Time = int

  /** Document identifiers as they travel through tokens and queries. */
  type ObjectId = string

  /** A request field as JavaScript sees it after `await req.json()`: absent
      (or null) is `None`. `Given` is its truthiness: `!field` holds exactly
      when the field is absent or the empty string. */
  predicate Given(o: Option<string>) {
    o.Some? && o.value != ""
  }

  /** JSON values as they appear in response bodies. Numbers are integers here:
      the core only ever puts counts, pages, ratings and millisecond times in
      a body. */
  datatype Json =
    | JNull
    | JBool(b: bool)
    | JNum(n: int)
    | JStr(s: string)
    | JArr(items: seq<Json>)
    | JObj(fields: map<string, Json>)

  function OptStr(o: Option<string>): Json {
    match o
    case None => JNull
    case Some(s) => JStr(s)
  }

  function StrList(s: seq<string>): (r: Json)
    ensures r.JArr? && |r.items| == |s|
    ensures forall i :: 0 <= i < |s| ==> r.items[i] == JStr(s[i])
  {
    JArr(seq(|s|, i requires 0 <= i < |s| => JStr(s[i])))
  }

  // ---------------------------------------------------------------------------
  // Subsequences and filtering

  /** `r` can be obtained from `s` by deleting elements, keeping the order. */
  predicate IsSubsequence<T(==)>(r: seq<T>, s: seq<T>)
    decreases |s|
  {
    if r == [] then true
    else if s == [] then false
    else (r[0] == s[0] && IsSubsequence(r[1..], s[1..])) || IsSubsequence(r, s[1..])
  }

  /** `Array.prototype.filter`: the elements of `s` satisfying `p`, in order. */
  function Filter<T(==,!new)>(s: seq<T>, p: T -> bool): (r: seq<T>)
    ensures |r| <= |s|
    ensures forall x :: x in r <==> x in s && p(x)
    ensures forall x {:trigger multiset(r)[x]} :: multiset(r)[x] == if p(x) then multiset(s)[x] else 0
    ensures IsSubsequence(r, s)
  {
    if s == [] then []
    else
      var rest := Filter(s[1..], p);
      assert s == [s[0]] + s[1..];
      assert multiset(s) == multiset{s[0]} + multiset(s[1..]);
      if p(s[0]) then [s[0]] + rest else rest
  }

  /** A filter whose predicate holds of every element keeps everything. */
  lemma {:induction false} FilterKeepsAll<T(!new)>(s: seq<T>, p: T -> bool)
    requires forall x :: x in s ==> p(x)
    ensures Filter(s, p) == s
  {
    if s != [] {
      FilterKeepsAll(s[1..], p);
    }
  }

  /** Filtering twice is filtering once by the conjunction. */
  lemma {:induction false} FilterTwice<T(!new)>(s: seq<T>, p: T -> bool, q: T -> bool, pq: T -> bool)
    requires forall x :: pq(x) == (p(x) && q(x))
    ensures Filter(Filter(s, p), q) == Filter(s, pq)
  {
    if s != [] {
      FilterTwice(s[1..], p, q, pq);
    }
  }

  /** Filters by predicates that agree on the elements of `s` agree. */
  lemma {:induction false} FilterCongruent<T(!new)>(s: seq<T>, p: T -> bool, q: T -> bool)
    requires forall x :: x in s ==> p(x) == q(x)
    ensures Filter(s, p) == Filter(s, q)
  {
    if s != [] {
      FilterCongruent(s[1..], p, q);
    }
  }

  /** A walk along `s` that takes the elements satisfying `p` until it has
      `n` of them. */
  function FirstMatching<T>(s: seq<T>, p: T -> bool, n: nat): seq<T> {
    if n == 0 || s == [] then []
    else if p(s[0]) then [s[0]] + FirstMatching(s[1..], p, n - 1)
    else FirstMatching(s[1..], p, n)
  }

  /** The walk takes a prefix of the filter. */
  lemma {:induction false} FirstMatchingPrefix<T(!new)>(s: seq<T>, p: T -> bool, n: nat)
    ensures var f := Filter(s, p);
      FirstMatching(s, p, n) == f[..if n <= |f| then n else |f|]
  {
    if n > 0 && s != [] {
      var f := Filter(s, p);
      var rest := Filter(s[1..], p);
      if p(s[0]) {
        FirstMatchingPrefix(s[1..], p, n - 1);
        assert f == [s[0]] + rest;
        var k := if n - 1 <= |rest| then n - 1 else |rest|;
        assert f[..k + 1] == [s[0]] + rest[..k];
      } else {
        FirstMatchingPrefix(s[1..], p, n);
        assert f == rest;
      }
    }
  }

  /** Every prefix of a sequence is a subsequence of it. */
  lemma {:induction false} PrefixIsSubsequence<T>(s: seq<T>, n: nat)
    requires n <= |s|
    ensures IsSubsequence(s[..n], s)
  {
    if n > 0 {
      PrefixIsSubsequence(s[1..], n - 1);
      assert s[..n][1..] == s[1..][..n - 1];
    }
  }

  /** A subsequence of a subsequence is a subsequence. */
  lemma {:induction false} SubsequenceTransitive<T>(a: seq<T>, b: seq<T>, c: seq<T>)
    requires IsSubsequence(a, b) && IsSubsequence(b, c)
    ensures IsSubsequence(a, c)
    decreases |c|
  {
    if a != [] {
      if IsSubsequence(b, c[1..]) {
        SubsequenceTransitive(a, b, c[1..]);
      } else if a[0] == b[0] && IsSubsequence(a[1..], b[1..]) {
        SubsequenceTransitive(a[1..], b[1..], c[1..]);
      } else {
        SubsequenceTransitive(a, b[1..], c[1..]);
      }
    }
  }

  /** The elements of a subsequence are elements of the whole. */
  lemma {:induction false} SubsequenceMembers<T>(r: seq<T>, s: seq<T>)
    requires IsSubsequence(r, s)
    ensures forall x :: x in r ==> x in s
    decreases |s|
  {
    if r != [] {
      if r[0] == s[0] && IsSubsequence(r[1..], s[1..]) {
        SubsequenceMembers(r[1..], s[1..]);
        assert forall x :: x in r ==> x == r[0] || x in r[1..];
      } else {
        SubsequenceMembers(r, s[1..]);
      }
    }
  }

  // ---------------------------------------------------------------------------
  // Array.prototype.slice

  /** How `slice` normalises one of its arguments for a sequence of length `len`:
      a negative index counts from the end, and both ends are clamped. */
  function SliceIndex(len: nat, i: int): (r: nat)
    ensures r <= len
    ensures 0 <= i ==> r == if i <= len then i else len
  {
    if i < 0 then (if len + i < 0 then 0 else len + i)
    else if i > len then len
    else i
  }

  /** `s.slice(start, end)`. */
  function JsSlice<T>(s: seq<T>, start: int, end: int): seq<T> {
    var a := SliceIndex(|s|, start);
    var b := SliceIndex(|s|, end);
    if a < b then s[a..b] else []
  }

  /** `s.slice(0, n)` with `n >= 0` keeps the first `min(n, |s|)` elements. */
  lemma JsSlicePrefix<T>(s: seq<T>, n: int)
    requires 0 <= n
    ensures JsSlice(s, 0, n) == s[..if n <= |s| then n else |s|]
  {
  }

  /** `s.slice(0, end)` is a prefix of `s`, whatever `end` is. */
  lemma JsSliceFromStart<T>(s: seq<T>, end: int)
    ensures JsSlice(s, 0, end) == s[..SliceIndex(|s|, end)]
  {
  }

  /** A prefix holds no more of any element than the whole. */
  lemma PrefixMultiset<T>(s: seq<T>, n: nat)
    requires n <= |s|
    ensures multiset(s[..n]) <= multiset(s)
  {
    assert s == s[..n] + s[n..];
  }

  /** The elements of a sub-multiset are elements of the whole. */
  lemma MultisetSubsetMembers<T>(a: seq<T>, b: seq<T>)
    requires multiset(a) <= multiset(b)
    ensures forall x :: x in a ==> x in b
  {
    forall x | x in a ensures x in b {
      assert x in multiset(a);
    }
  }

  // ---------------------------------------------------------------------------
  // Stable sort by a total order

  /** `geq` puts any two values one way round or the other. */
  ghost predicate Total<T(!new)>(geq: (T, T) -> bool) {
    forall a, b :: geq(a, b) || geq(b, a)
  }

  ghost predicate Transitive<T(!new)>(geq: (T, T) -> bool) {
    forall a, b, c :: geq(a, b) && geq(b, c) ==> geq(a, c)
  }

  /** Every element may come before every later one. */
  ghost predicate SortedBy<T>(s: seq<T>, geq: (T, T) -> bool) {
    forall i, j :: 0 <= i < j < |s| ==> geq(s[i], s[j])
  }

  /** Inserts `x` before the first element it may come before. */
  function InsertBy<T>(x: T, s: seq<T>, geq: (T, T) -> bool): (r: seq<T>)
    ensures multiset(r) == multiset(s) + multiset{x}
    ensures |r| == |s| + 1
  {
    if s == [] || geq(x, s[0]) then [x] + s
    else
      assert s == [s[0]] + s[1..];
      [s[0]] + InsertBy(x, s[1..], geq)
  }

  /** Every element of an insertion result is the inserted one or was there. */
  lemma {:induction false} InsertByElements<T>(x: T, s: seq<T>, geq: (T, T) -> bool, y: T)
    requires y in InsertBy(x, s, geq)
    ensures y == x || y in s
  {
    assert y in multiset(InsertBy(x, s, geq));
    if y != x {
      assert y in multiset(s);
    }
  }

  /** Putting an element in front of a sorted sequence, every element of
      which it may come before, keeps the sequence sorted. */
  lemma {:induction false} ConsSorted<T>(x: T, s: seq<T>, geq: (T, T) -> bool)
    requires SortedBy(s, geq)
    requires forall y :: y in s ==> geq(x, y)
    ensures SortedBy([x] + s, geq)
  {
    var r := [x] + s;
    forall i, j | 0 <= i < j < |r| ensures geq(r[i], r[j]) {
      assert r[j] == s[j - 1];
      if i == 0 {
        assert s[j - 1] in s;
      } else {
        assert r[i] == s[i - 1];
      }
    }
  }

  lemma {:induction false} InsertBySorted<T(!new)>(x: T, s: seq<T>, geq: (T, T) -> bool)
    requires Total(geq) && Transitive(geq)
    requires SortedBy(s, geq)
    ensures SortedBy(InsertBy(x, s, geq), geq)
  {
    if s == [] || geq(x, s[0]) {
      forall y | y in s ensures geq(x, y) {
        var k :| 0 <= k < |s| && s[k] == y;
        if k > 0 {
          assert geq(s[0], s[k]);
        }
      }
      ConsSorted(x, s, geq);
    } else {
      var rest := InsertBy(x, s[1..], geq);
      InsertBySorted(x, s[1..], geq);
      assert geq(s[0], x);
      forall y | y in rest ensures geq(s[0], y) {
        InsertByElements(x, s[1..], geq, y);
        if y != x {
          var k :| 0 <= k < |s[1..]| && s[1..][k] == y;
          assert s[k + 1] == y;
        }
      }
      ConsSorted(s[0], rest, geq);
    }
  }

  /** Insertion sort: the elements of `s` ordered by `geq`; among elements
      that may come either way round the original order is kept
      (JavaScript's `sort` is stable). */
  function SortBy<T(!new)>(s: seq<T>, geq: (T, T) -> bool): (r: seq<T>)
    requires Total(geq) && Transitive(geq)
    ensures multiset(r) == multiset(s)
    ensures |r| == |s|
    ensures SortedBy(r, geq)
  {
    if s == [] then []
    else
      var rest := SortBy(s[1..], geq);
      assert s == [s[0]] + s[1..];
      InsertBySorted(s[0], rest, geq);
      InsertBy(s[0], rest, geq)
  }

  /** The order of a descending integer key. */
  function KeyGeq<T>(key: T -> int): (T, T) -> bool {
    (a: T, b: T) => key(a) >= key(b)
  }

  ghost predicate SortedDesc<T>(s: seq<T>, key: T -> int) {
    forall i, j :: 0 <= i < j < |s| ==> key(s[i]) >= key(s[j])
  }

  /** The sort by a descending integer key. */
  function SortDesc<T(!new)>(s: seq<T>, key: T -> int): (r: seq<T>)
    ensures multiset(r) == multiset(s)
    ensures |r| == |s|
    ensures SortedDesc(r, key)
  {
    var r := SortBy(s, KeyGeq(key));
    assert forall i, j :: 0 <= i < j < |r| ==> KeyGeq(key)(r[i], r[j]);
    r
  }

  /** In a sequence sorted by a descending key, no element left out of a
      prefix has a greater key than an element in it. */
  lemma {:induction false} SortedPrefixFirst<T>(s: seq<T>, key: T -> int, n: nat)
    requires SortedDesc(s, key) && n <= |s|
    ensures forall x, y :: x in s[..n] && y in multiset(s) - multiset(s[..n]) ==> key(x) >= key(y)
  {
    assert s == s[..n] + s[n..];
    assert multiset(s) - multiset(s[..n]) == multiset(s[n..]);
    forall x, y | x in s[..n] && y in multiset(s) - multiset(s[..n]) ensures key(x) >= key(y) {
      assert y in s[n..];
      var i :| 0 <= i < n && s[..n][i] == x;
      var j :| 0 <= j < |s| - n && s[n..][j] == y;
      assert s[i] == x && s[n + j] == y;
    }
  }

  // ---------------------------------------------------------------------------
  // Page arithmetic

  /** `Math.ceil(a / b)` for a positive divisor. */
  function CeilDiv(a: nat, b: nat): (r: nat)
    requires b > 0
    ensures a <= r * b
    ensures r > 0 ==> (r - 1) * b < a
  {
    var q := (a + b - 1) / b;
    var m := (a + b - 1) % b;
    assert a + b - 1 == q * b + m && 0 <= m < b;
    assert q * b == a + b - 1 - m;
    assert (q - 1) * b == a - 1 - m;
    q
  }

  // ---------------------------------------------------------------------------
  // Decimal rendering of naturals (`${n}` in a template literal)

  function DigitChar(d: nat): (c: char)
    requires d < 10
    ensures '0' <= c <= '9'
  {
    "0123456789"[d]
  }

  function Decimal(n: nat): (r: string)
    ensures 1 <= |r|
    ensures n >= 10 ==> 2 <= |r|
    ensures forall i :: 0 <= i < |r| ==> '0' <= r[i] <= '9'
  {
    if n < 10 then [DigitChar(n)] else Decimal(n / 10) + [DigitChar(n % 10)]
  }

  /** Different numbers have different renderings. */
  lemma {:induction false} DecimalInjective(a: nat, b: nat)
    requires Decimal(a) == Decimal(b)
    ensures a == b
  {
    if a < 10 && b < 10 {
      assert Decimal(a)[0] == DigitChar(a);
    } else if a >= 10 && b >= 10 {
      var da, db := Decimal(a), Decimal(b);
      assert da[|da| - 1] == DigitChar(a % 10);
      assert db[|db| - 1] == DigitChar(b % 10);
      assert da[..|da| - 1] == Decimal(a / 10);
      assert db[..|db| - 1] == Decimal(b / 10);
      DecimalInjective(a / 10, b / 10);
    }
  }
}
