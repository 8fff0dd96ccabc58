/** Helpers shared by every module of the model: optional values, Python's
    string operations (strip, rsplit, join, comparison), sums over sequences
    and the stable sort behind Python's `sorted`/`list.sort`. */
module Common {

  datatype Option<+T> = None | Some(value: T) {
    function GetOr(default: T): T {
      match this
      case Some(v) => v
      case None => default
    }
  }

  /** Python's truthiness of a string-valued dictionary lookup: a missing key
      (or JSON null) and the empty string are both false. */
  predicate Truthy(o: Option<string>) {
    o.Some? && o.value != ""
  }

  /** `a or b` for string-valued lookups, as in `entry.get('x') or entry.get('y')`. */
  function OrElse(a: Option<string>, b: Option<string>): (r: Option<string>)
    ensures Truthy(a) ==> r == a
    ensures !Truthy(a) ==> r == b
  {
    if Truthy(a) then a else b
  }

  /** The outcome of an operation that the source lets raise an exception. */
  datatype Result<+T> = Ok(value: T) | Err(error: string)

  // ---------------------------------------------------------------------------
  // Python dictionaries: association lists in insertion order
  // ---------------------------------------------------------------------------

  function Keys<K, V>(d: seq<(K, V)>): (r: seq<K>)
    ensures |r| == |d|
  {
    if d == [] then [] else [d[0].0] + Keys(d[1..])
  }

  /** The i-th key is the key of the i-th item. */
  lemma {:induction false} KeysAt<K, V>(d: seq<(K, V)>)
    ensures forall i :: 0 <= i < |d| ==> Keys(d)[i] == d[i].0
  {
    if d != [] {
      KeysAt(d[1..]);
    }
  }

  /** Every item's key is among the keys. */
  lemma KeysMembers<K, V>(d: seq<(K, V)>)
    ensures forall x :: x in d ==> x.0 in Keys(d)
  {
    KeysAt(d);
    forall x | x in d ensures x.0 in Keys(d) {
      var i :| 0 <= i < |d| && d[i] == x;
      assert Keys(d)[i] == x.0;
    }
  }

  /** `d.get(k)`: the value stored under the first entry with key k. */
  function Lookup<K(==), V>(d: seq<(K, V)>, k: K): (r: Option<V>)
  {
    if d == [] then None
    else if d[0].0 == k then Some(d[0].1)
    else Lookup(d[1..], k)
  }

  /** A key is found exactly when it is one of the keys. */
  lemma {:induction false} LookupKeys<K, V>(d: seq<(K, V)>, k: K)
    ensures Lookup(d, k).None? <==> k !in Keys(d)
  {
    if d != [] {
      assert Keys(d) == [d[0].0] + Keys(d[1..]);
      LookupKeys(d[1..], k);
    }
  }

  /** A value found under k is stored in d under k. */
  lemma {:induction false} LookupFound<K, V>(d: seq<(K, V)>, k: K)
    requires Lookup(d, k).Some?
    ensures (k, Lookup(d, k).value) in d
  {
    if d[0].0 != k {
      LookupFound(d[1..], k);
    }
  }

  /** `d[k] = v`: an existing key keeps its place and takes the new value, a
      new key goes last. */
  function Put<K(==), V>(d: seq<(K, V)>, k: K, v: V): (r: seq<(K, V)>)
    ensures k in Keys(d) ==> Keys(r) == Keys(d)
    ensures k !in Keys(d) ==> Keys(r) == Keys(d) + [k]
  {
    if d == [] then [(k, v)]
    else if d[0].0 == k then [(k, v)] + d[1..]
    else
      assert Keys(d) == [d[0].0] + Keys(d[1..]);
      assert Keys([d[0]] + Put(d[1..], k, v)) == [d[0].0] + Keys(Put(d[1..], k, v));
      [d[0]] + Put(d[1..], k, v)
  }

  /** Reading a key just written gives the value written. */
  lemma {:induction false} LookupPut<K, V>(d: seq<(K, V)>, k: K, v: V)
    ensures Lookup(Put(d, k, v), k) == Some(v)
  {
    if d != [] && d[0].0 != k {
      LookupPut(d[1..], k, v);
    }
  }

  /** Writing one key leaves every other key's value as it was. */
  lemma {:induction false} LookupPutOther<K, V>(d: seq<(K, V)>, k: K, v: V, k2: K)
    requires k2 != k
    ensures Lookup(Put(d, k, v), k2) == Lookup(d, k2)
  {
    if d != [] && d[0].0 != k && d[0].0 != k2 {
      LookupPutOther(d[1..], k, v, k2);
    }
  }

  /** Every entry of a dictionary after `d[k] = v` is the new entry or an old one. */
  lemma {:induction false} PutMembers<K, V>(d: seq<(K, V)>, k: K, v: V)
    ensures forall x :: x in Put(d, k, v) ==> x == (k, v) || x in d
  {
    if d != [] && d[0].0 != k {
      PutMembers(d[1..], k, v);
    }
  }

  /** With each key once, the only entry for k after `d[k] = v` is the new one. */
  lemma {:induction false} PutReplaces<K, V>(d: seq<(K, V)>, k: K, v: V)
    requires NoDup(Keys(d))
    ensures forall x :: x in Put(d, k, v) && x.0 == k ==> x == (k, v)
  {
    if d != [] {
      KeysAt(d);
      assert forall i :: 0 <= i < |d| - 1 ==> Keys(d[1..])[i] == Keys(d)[i + 1];
      if d[0].0 == k {
        forall x | x in d[1..] ensures x.0 != k {
          var i :| 0 <= i < |d[1..]| && d[1..][i] == x;
          assert Keys(d)[i + 1] == x.0 && Keys(d)[0] == k;
        }
      } else {
        PutReplaces(d[1..], k, v);
      }
    }
  }

  /** Writing a key keeps each key once. */
  lemma PutNoDup<K, V>(d: seq<(K, V)>, k: K, v: V)
    requires NoDup(Keys(d))
    ensures NoDup(Keys(Put(d, k, v)))
  {
    var r := Put(d, k, v);
    if k !in Keys(d) {
      assert Keys(r) == Keys(d) + [k];
      forall i, j | 0 <= i < j < |Keys(r)| ensures Keys(r)[i] != Keys(r)[j] {
        if j == |Keys(d)| {
          assert Keys(r)[i] == Keys(d)[i];
        }
      }
    }
  }

  /** `list(s)` of a set: every element once, in some order. */
  method SetToSeq<T>(s: set<T>) returns (r: seq<T>)
    ensures NoDup(r)
    ensures forall x :: x in r <==> x in s
  {
    r := [];
    var remaining := s;
    while remaining != {}
      invariant remaining <= s
      invariant NoDup(r)
      invariant forall x :: x in r <==> x in s && x !in remaining
      decreases |remaining|
    {
      var x :| x in remaining;
      r := r + [x];
      remaining := remaining - {x};
    }
  }

  /** The index of the first element satisfying p, if any. */
  function FindFirst<T>(s: seq<T>, p: T -> bool): (r: Option<nat>)
    ensures r.Some? ==> r.value < |s| && p(s[r.value]) && forall j :: 0 <= j < r.value ==> !p(s[j])
    ensures r.None? ==> forall j :: 0 <= j < |s| ==> !p(s[j])
  {
    if s == [] then None
    else if p(s[0]) then Some(0)
    else
      match FindFirst(s[1..], p)
      case None => None
      case Some(i) => Some(i + 1)
  }

  // ---------------------------------------------------------------------------
  // Whitespace and str.strip()
  // ---------------------------------------------------------------------------

  /** The characters for which Python's str.isspace() holds. */
  predicate IsSpace(c: char) {
    c == ' ' || ('\t' <= c <= '\r') || ('\U{1c}' <= c <= '\U{1f}')
    || c == '\U{85}' || c == '\U{a0}' || c == '\U{1680}'
    || ('\U{2000}' <= c <= '\U{200a}') || c == '\U{2028}' || c == '\U{2029}'
    || c == '\U{202f}' || c == '\U{205f}' || c == '\U{3000}'
  }

  function LStrip(s: string): (r: string)
    ensures |r| <= |s| && r == s[|s| - |r|..]
    ensures r != [] ==> !IsSpace(r[0])
  {
    if s != [] && IsSpace(s[0]) then LStrip(s[1..]) else s
  }

  function RStrip(s: string): (r: string)
    ensures |r| <= |s| && r == s[..|r|]
    ensures r != [] ==> !IsSpace(r[|r| - 1])
  {
    if s != [] && IsSpace(s[|s| - 1]) then RStrip(s[..|s| - 1]) else s
  }

  /** str.strip(): drops leading and trailing whitespace. */
  function Strip(s: string): (r: string)
  {
    RStrip(LStrip(s))
  }

  /** The stripped text has no whitespace at either end. */
  lemma StripEnds(s: string)
    ensures Strip(s) != [] ==> !IsSpace(Strip(s)[0]) && !IsSpace(Strip(s)[|Strip(s)| - 1])
  {
    var l := LStrip(s);
    var r := RStrip(l);
    if r != [] {
      assert r[0] == l[0];
    }
  }

  /** lstrip and rstrip remove whitespace only. */
  lemma {:induction false} LStripDropsSpace(s: string)
    ensures forall i :: 0 <= i < |s| - |LStrip(s)| ==> IsSpace(s[i])
  {
    if s != [] && IsSpace(s[0]) {
      LStripDropsSpace(s[1..]);
    }
  }

  lemma {:induction false} RStripDropsSpace(s: string)
    ensures forall i :: |RStrip(s)| <= i < |s| ==> IsSpace(s[i])
  {
    if s != [] && IsSpace(s[|s| - 1]) {
      RStripDropsSpace(s[..|s| - 1]);
    }
  }

  /** Text strips to nothing exactly when it is all whitespace. */
  lemma StripEmptyIffBlank(s: string)
    ensures Strip(s) == "" <==> forall i :: 0 <= i < |s| ==> IsSpace(s[i])
  {
    LStripDropsSpace(s);
    RStripDropsSpace(LStrip(s));
    var l := LStrip(s);
    if Strip(s) != "" {
      var r := Strip(s);
      assert r[0] == s[|s| - |l|];
    }
  }

  /** Stripping twice is stripping once. */
  lemma StripIdempotent(s: string)
    ensures Strip(Strip(s)) == Strip(s)
  {
    StripEnds(s);
    var r := Strip(s);
    assert LStrip(r) == r;
    assert RStrip(r) == r;
  }

  // ---------------------------------------------------------------------------
  // String comparison, search, split and join
  // ---------------------------------------------------------------------------

  /** Python's `a < b` on str: lexicographic by code point. */
  predicate LexLess(a: string, b: string) {
    if a == [] then b != []
    else if b == [] then false
    else if a[0] != b[0] then a[0] < b[0]
    else LexLess(a[1..], b[1..])
  }

  lemma {:induction false} LexLessIrreflexive(a: string)
    ensures !LexLess(a, a)
  {
    if a != [] { LexLessIrreflexive(a[1..]); }
  }

  lemma {:induction false} LexLessTransitive(a: string, b: string, c: string)
    requires LexLess(a, b) && LexLess(b, c)
    ensures LexLess(a, c)
  {
    if a != [] && b != [] && c != [] && a[0] == b[0] && b[0] == c[0] {
      LexLessTransitive(a[1..], b[1..], c[1..]);
    }
  }

  lemma {:induction false} LexLessTotal(a: string, b: string)
    ensures a == b || LexLess(a, b) || LexLess(b, a)
  {
    if a != [] && b != [] && a[0] == b[0] {
      LexLessTotal(a[1..], b[1..]);
      if a[1..] == b[1..] {
        assert a == [a[0]] + a[1..] && b == [b[0]] + b[1..];
      }
    }
  }

  lemma {:induction false} LexLessAsymmetric(a: string, b: string)
    requires LexLess(a, b)
    ensures !LexLess(b, a)
  {
    if a != [] && b != [] && a[0] == b[0] {
      LexLessAsymmetric(a[1..], b[1..]);
    }
  }

  predicate StartsWith(s: string, prefix: string) {
    |prefix| <= |s| && s[..|prefix|] == prefix
  }

  /** Python's `sub in s` on str. */
  predicate Contains(s: string, sub: string) {
    StartsWith(s, sub) || (s != [] && Contains(s[1..], sub))
  }

  /** Index of the last occurrence of c in s. */
  function LastIndexOf(s: string, c: char): (r: Option<nat>)
    ensures r.Some? ==> (r.value < |s| && s[r.value] == c
      && forall i :: r.value < i < |s| ==> s[i] != c)
    ensures r.None? ==> forall i :: 0 <= i < |s| ==> s[i] != c
  {
    if s == [] then None
    else if s[|s| - 1] == c then Some(|s| - 1)
    else LastIndexOf(s[..|s| - 1], c)
  }

  /** The text after the last occurrence of c, or all of s when c does not
      occur: Python's `s.split(c)[-1]`. */
  function AfterLast(s: string, c: char): (r: string)
    ensures c !in r
    ensures |r| <= |s| && r == s[|s| - |r|..]
  {
    match LastIndexOf(s, c)
    case Some(i) => s[i + 1..]
    case None => s
  }

  /** Python's `s.rsplit(c, 1)` when it yields two parts: head and tail of
      the split at the last c; None when c does not occur. */
  function SplitLast(s: string, c: char): (r: Option<(string, string)>)
    ensures r.Some? ==> s == r.value.0 + [c] + r.value.1 && c !in r.value.1
    ensures r.None? <==> c !in s
  {
    match LastIndexOf(s, c)
    case Some(i) =>
      assert s == s[..i] + [c] + s[i + 1..];
      Some((s[..i], s[i + 1..]))
    case None => None
  }

  /** Splitting `head + [c] + tail` at its last c gives back head and tail
      whenever tail does not contain c (head may contain c). */
  lemma SplitLastOfJoined(head: string, c: char, tail: string)
    requires c !in tail
    ensures SplitLast(head + [c] + tail, c) == Some((head, tail))
  {
    var s := head + [c] + tail;
    var r := LastIndexOf(s, c);
    assert s[|head|] == c;
    assert r.Some?;
    var i := r.value;
    assert i >= |head|;
    assert i == |head| by {
      assert forall j :: |head| < j < |s| ==> s[j] == tail[j - |head| - 1];
    }
    assert s[..i] == head;
    assert s[i + 1..] == tail;
  }

  /** Python's `s.rstrip(c)` for a single character c: removes every trailing c. */
  function RStripChar(s: string, c: char): (r: string)
    ensures |r| <= |s| && r == s[..|r|]
    ensures r != [] ==> r[|r| - 1] != c
    ensures forall i :: |r| <= i < |s| ==> s[i] == c
  {
    if s != [] && s[|s| - 1] == c then RStripChar(s[..|s| - 1], c) else s
  }

  /** Python's `sep.join(parts)`. */
  function Join(parts: seq<string>, sep: string): (r: string)
    ensures parts == [] ==> r == ""
  {
    if parts == [] then ""
    else if |parts| == 1 then parts[0]
    else parts[0] + sep + Join(parts[1..], sep)
  }

  /** Joining strings that are not all empty never yields the empty string. */
  lemma {:induction false} JoinNonEmpty(parts: seq<string>, sep: string)
    requires parts != [] && parts[0] != ""
    ensures Join(parts, sep) != ""
  {
  }

  // ---------------------------------------------------------------------------
  // Sequences: duplicates, sums, filters
  // ---------------------------------------------------------------------------

  predicate NoDup<T(==)>(s: seq<T>) {
    forall i, j :: 0 <= i < j < |s| ==> s[i] != s[j]
  }

  /** A subset has no more elements than its superset. */
  lemma SubsetCard<T>(a: set<T>, b: set<T>)
    requires a <= b
    ensures |a| <= |b|
    decreases b
  {
    if a != {} {
      var x :| x in a;
      SubsetCard(a - {x}, b - {x});
    }
  }

  /** Sum of f over s, accumulated from the front as Python's `+=` loops do. */
  function SumOf<T>(s: seq<T>, f: T -> int): int
  {
    if s == [] then 0 else SumOf(s[..|s| - 1], f) + f(s[|s| - 1])
  }

  lemma {:induction false} SumOfAppend<T>(a: seq<T>, b: seq<T>, f: T -> int)
    ensures SumOf(a + b, f) == SumOf(a, f) + SumOf(b, f)
  {
    if b != [] {
      var ab := a + b;
      assert ab[..|ab| - 1] == a + b[..|b| - 1];
      assert ab[|ab| - 1] == b[|b| - 1];
      SumOfAppend(a, b[..|b| - 1], f);
      assert SumOf(ab, f) == SumOf(ab[..|ab| - 1], f) + f(ab[|ab| - 1]);
      assert SumOf(b, f) == SumOf(b[..|b| - 1], f) + f(b[|b| - 1]);
    } else {
      assert a + b == a;
    }
  }

  lemma SumOfSingle<T>(x: T, f: T -> int)
    ensures SumOf([x], f) == f(x)
  {
    assert [x][..0] == [];
  }

  lemma {:induction false} SumOfCons<T>(x: T, s: seq<T>, f: T -> int)
    ensures SumOf([x] + s, f) == f(x) + SumOf(s, f)
  {
    SumOfAppend([x], s, f);
    SumOfSingle(x, f);
  }

  /** The value of a dictionary item. */
  function Second<K>(x: (K, int)): int {
    x.1
  }

  /** `d[k] = v` changes the sum of the values by v minus the value replaced. */
  lemma {:induction false} SumOfPut<K>(d: seq<(K, int)>, k: K, v: int)
    ensures SumOf(Put(d, k, v), Second<K>) == SumOf(d, Second<K>) - Lookup(d, k).GetOr(0) + v
  {
    if d == [] {
      SumOfSingle((k, v), Second<K>);
    } else {
      assert d == [d[0]] + d[1..];
      SumOfCons(d[0], d[1..], Second<K>);
      if d[0].0 == k {
        SumOfCons((k, v), d[1..], Second<K>);
      } else {
        SumOfPut(d[1..], k, v);
        SumOfCons(d[0], Put(d[1..], k, v), Second<K>);
      }
    }
  }

  /** The elements of s that satisfy p, in their original order (a Python
      list comprehension with an `if`). */
  function Filter<T>(s: seq<T>, p: T -> bool): (r: seq<T>)
    ensures |r| <= |s|
    ensures forall x :: x in r ==> x in s && p(x)
  {
    if s == [] then [] else (if p(s[0]) then [s[0]] else []) + Filter(s[1..], p)
  }

  lemma {:induction false} FilterMembership<T>(s: seq<T>, p: T -> bool, x: T)
    ensures x in Filter(s, p) <==> x in s && p(x)
  {
    if s != [] {
      FilterMembership(s[1..], p, x);
      assert s == [s[0]] + s[1..];
    }
  }

  /** a is obtained from b by deleting elements: relative order is kept. */
  predicate SubsequenceOf<T(==)>(a: seq<T>, b: seq<T>) {
    if a == [] then true
    else if b == [] then false
    else if a[0] == b[0] then SubsequenceOf(a[1..], b[1..])
    else SubsequenceOf(a, b[1..])
  }

  lemma {:induction false} FilterIsSubsequence<T>(s: seq<T>, p: T -> bool)
    ensures SubsequenceOf(Filter(s, p), s)
  {
    if s != [] {
      FilterIsSubsequence(s[1..], p);
      var rest := Filter(s[1..], p);
      if p(s[0]) {
        assert Filter(s, p) == [s[0]] + rest;
        assert Filter(s, p)[1..] == rest;
      } else {
        assert Filter(s, p) == rest;
        SubsequenceDropHead(rest, s);
      }
    }
  }

  lemma {:induction false} SubsequenceDropHead<T>(a: seq<T>, b: seq<T>)
    requires b != [] && SubsequenceOf(a, b[1..])
    ensures SubsequenceOf(a, b)
  {
    if a != [] && a[0] == b[0] {
      assert SubsequenceOf(a[1..], b[1..]) by {
        SubsequenceTail(a, b[1..]);
      }
    }
  }

  lemma {:induction false} SubsequenceTail<T>(a: seq<T>, b: seq<T>)
    requires a != [] && SubsequenceOf(a, b)
    ensures SubsequenceOf(a[1..], b)
  {
    if b != [] {
      if a[0] == b[0] {
        SubsequenceDropHead(a[1..], b);
      } else {
        SubsequenceTail(a, b[1..]);
        SubsequenceDropHead(a[1..], b);
      }
    }
  }

  /** Keeping the elements that satisfy p and those that do not splits s into
      two parts whose multisets add up to s. */
  lemma {:induction false} FilterSplit<T>(s: seq<T>, p: T -> bool, q: T -> bool)
    requires forall x :: q(x) == !p(x)
    ensures multiset(Filter(s, p)) + multiset(Filter(s, q)) == multiset(s)
  {
    if s != [] {
      var x, t := s[0], s[1..];
      FilterSplit(t, p, q);
      assert s == [x] + t;
      assert multiset(s) == multiset{x} + multiset(t);
      assert q(x) == !p(x);
    }
  }

  // ---------------------------------------------------------------------------
  // Stable sort (Python's list.sort / sorted, both stable)
  // ---------------------------------------------------------------------------

  /** `le(a, b)` says that a may come before b. */
  ghost predicate TotalPreorder<T(!new)>(le: (T, T) -> bool) {
    (forall a, b :: le(a, b) || le(b, a))
    && (forall a, b, c :: le(a, b) && le(b, c) ==> le(a, c))
  }

  ghost predicate SortedBy<T>(s: seq<T>, le: (T, T) -> bool) {
    forall i, j :: 0 <= i < j < |s| ==> le(s[i], s[j])
  }

  /** Insert x in front of the first element it may precede. */
  function Insert<T>(x: T, s: seq<T>, le: (T, T) -> bool): (r: seq<T>)
    ensures multiset(r) == multiset(s) + multiset{x}
    ensures |r| == |s| + 1
  {
    if s == [] || le(x, s[0]) then [x] + s
    else
      assert s == [s[0]] + s[1..];
      [s[0]] + Insert(x, s[1..], le)
  }

  /** Insertion sort from the back: an element goes before every later
      element it may precede, so elements with equal keys keep their
      original order, as Python's stable sort does (also with reverse=True). */
  function SortBy<T>(s: seq<T>, le: (T, T) -> bool): (r: seq<T>)
    ensures multiset(r) == multiset(s)
    ensures |r| == |s|
  {
    if s == [] then []
    else
      assert s == [s[0]] + s[1..];
      Insert(s[0], SortBy(s[1..], le), le)
  }

  lemma {:induction false} InsertSorted<T(!new)>(x: T, s: seq<T>, le: (T, T) -> bool)
    requires TotalPreorder(le) && SortedBy(s, le)
    ensures SortedBy(Insert(x, s, le), le)
  {
    if s != [] && !le(x, s[0]) {
      InsertSorted(x, s[1..], le);
      var r := Insert(x, s, le);
      var t := Insert(x, s[1..], le);
      assert r == [s[0]] + t;
      assert le(s[0], x);
      forall k | 0 <= k < |t| ensures le(s[0], t[k]) {
        assert t[k] in multiset(s[1..]) + multiset{x};
        if t[k] != x || t[k] in multiset(s[1..]) {
          if t[k] in multiset(s[1..]) {
            var m :| 0 <= m < |s[1..]| && s[1..][m] == t[k];
            assert s[m + 1] == t[k];
          }
        }
      }
    }
  }

  /** SortBy yields a sorted permutation of its input. */
  lemma {:induction false} SortBySorted<T(!new)>(s: seq<T>, le: (T, T) -> bool)
    requires TotalPreorder(le)
    ensures SortedBy(SortBy(s, le), le)
    ensures multiset(SortBy(s, le)) == multiset(s)
  {
    if s != [] {
      SortBySorted(s[1..], le);
      InsertSorted(s[0], SortBy(s[1..], le), le);
    }
  }

  lemma {:induction false} SumOfInsert<T>(x: T, s: seq<T>, le: (T, T) -> bool, f: T -> int)
    ensures SumOf(Insert(x, s, le), f) == f(x) + SumOf(s, f)
  {
    if s == [] || le(x, s[0]) {
      SumOfCons(x, s, f);
    } else {
      SumOfInsert(x, s[1..], le, f);
      SumOfCons(s[0], Insert(x, s[1..], le), f);
      SumOfCons(s[0], s[1..], f);
      assert s == [s[0]] + s[1..];
    }
  }

  /** Sorting does not change a sum over the elements. */
  lemma {:induction false} SumOfSortBy<T>(s: seq<T>, le: (T, T) -> bool, f: T -> int)
    ensures SumOf(SortBy(s, le), f) == SumOf(s, f)
  {
    if s != [] {
      var x, t := s[0], s[1..];
      assert SortBy(s, le) == Insert(x, SortBy(t, le), le);
      SumOfSortBy(t, le, f);
      SumOfInsert(x, SortBy(t, le), le, f);
      SumOfCons(x, t, f);
      assert s == [x] + t;
    }
  }
}
