/** Shared vocabulary for the dashboard model: optional values, JavaScript
    truthiness, ASCII case mapping, substring search, and the array
    combinators (`filter`, `find`, `sort`, `slice`) the pages chain together. */
module Common {

  datatype Option<T> = None | Some(value: T)

  /** JavaScript truthiness of a nullable string: `null` and `""` are falsy. */
  predicate Truthy(s: Option<string>) {
    s.Some? && s.value != ""
  }

  /** `a || b` on nullable strings. */
  function OrElse(a: Option<string>, b: Option<string>): (r: Option<string>)
    ensures Truthy(a) ==> r == a
    ensures !Truthy(a) ==> r == b
  {
    if Truthy(a) then a else b
  }

  /** `s || fallback` where the fallback is a plain string. */
  function OrDefault(s: Option<string>, fallback: string): (r: string)
    ensures Truthy(s) ==> r == s.value
    ensures !Truthy(s) ==> r == fallback
  {
    if Truthy(s) then s.value else fallback
  }

  // ---------------------------------------------------------------------------
  // Case mapping (ASCII letters only)

  predicate IsUpperAscii(c: char) { 'A' <= c <= 'Z' }
  predicate IsLowerAscii(c: char) { 'a' <= c <= 'z' }
  predicate IsDigitAscii(c: char) { '0' <= c <= '9' }

  function LowerChar(c: char): (r: char)
    ensures !IsUpperAscii(r)
    ensures !IsUpperAscii(c) ==> r == c
  {
    if IsUpperAscii(c) then (c as int + 32) as char else c
  }

  function UpperChar(c: char): (r: char)
    ensures !IsLowerAscii(r)
    ensures !IsLowerAscii(c) ==> r == c
  {
    if IsLowerAscii(c) then (c as int - 32) as char else c
  }

  /** `String.prototype.toLowerCase`, restricted to ASCII letters. */
  function Lower(s: string): (r: string)
    ensures |r| == |s|
    ensures forall i :: 0 <= i < |s| ==> r[i] == LowerChar(s[i])
  {
    seq(|s|, i requires 0 <= i < |s| => LowerChar(s[i]))
  }

  lemma {:induction false} LowerIdempotent(s: string)
    ensures Lower(Lower(s)) == Lower(s)
  {
    var l := Lower(s);
    assert Lower(l) == l by {
      forall i | 0 <= i < |l| ensures Lower(l)[i] == l[i] {
        assert !IsUpperAscii(l[i]);
      }
    }
  }

  /** A string without upper-case letters is its own lower-case form. */
  lemma LowerOfLowercase(s: string)
    requires forall i :: 0 <= i < |s| ==> !IsUpperAscii(s[i])
    ensures Lower(s) == s
  {
    assert forall i :: 0 <= i < |s| ==> Lower(s)[i] == s[i];
  }

  lemma LowerSlice(s: string, i: int, j: int)
    requires 0 <= i <= j <= |s|
    ensures Lower(s)[i..j] == Lower(s[i..j])
  {
    var l, t := Lower(s), s[i..j];
    var b := Lower(t);
    assert |l[i..j]| == |b| == j - i;
    forall k | 0 <= k < j - i ensures l[i..j][k] == b[k] {
      assert l[i..j][k] == l[i + k] == LowerChar(s[i + k]);
      assert b[k] == LowerChar(t[k]) && t[k] == s[i + k];
    }
  }

  /** `charAt(0).toUpperCase() + slice(1)`. */
  function Capitalize(s: string): (r: string)
    ensures |r| == |s|
    ensures s != [] ==> r[0] == UpperChar(s[0]) && r[1..] == s[1..]
  {
    if s == [] then [] else [UpperChar(s[0])] + s[1..]
  }

  /** `String.prototype.length`: UTF-16 code units, so a character outside
      the Basic Multilingual Plane counts twice. */
  function Utf16Length(s: string): (n: nat)
    ensures |s| <= n <= 2 * |s|
    ensures (forall i :: 0 <= i < |s| ==> s[i] as int <= 0xFFFF) ==> n == |s|
  {
    if s == [] then 0 else (if s[0] as int > 0xFFFF then 2 else 1) + Utf16Length(s[1..])
  }

  // ---------------------------------------------------------------------------
  // Substring search: `String.prototype.includes`

  predicate OccursAt(s: string, q: string, i: int) {
    0 <= i && i + |q| <= |s| && s[i..i + |q|] == q
  }

  predicate Contains(s: string, q: string) {
    exists i | 0 <= i <= |s| - |q| :: OccursAt(s, q, i)
  }

  lemma ContainsEmpty(s: string)
    ensures Contains(s, "")
  {
    assert OccursAt(s, "", 0);
  }

  lemma ContainsSelf(s: string)
    ensures Contains(s, s)
  {
    assert OccursAt(s, s, 0);
  }

  /** Containment is transitive: a substring of a substring is a substring. */
  lemma ContainsTransitive(s: string, q2: string, q1: string)
    requires Contains(s, q2) && Contains(q2, q1)
    ensures Contains(s, q1)
  {
    var i :| 0 <= i <= |s| - |q2| && OccursAt(s, q2, i);
    var j :| 0 <= j <= |q2| - |q1| && OccursAt(q2, q1, j);
    forall k | 0 <= k < |q1| ensures s[i + j + k] == q1[k] {
      assert q1[k] == q2[j + k] == s[i + j + k];
    }
    assert s[i + j..i + j + |q1|] == q1;
    assert OccursAt(s, q1, i + j);
  }

  /** Lower-casing both sides preserves an occurrence. */
  lemma LowerPreservesContains(s: string, q: string)
    requires Contains(s, q)
    ensures Contains(Lower(s), Lower(q))
  {
    var i :| 0 <= i <= |s| - |q| && OccursAt(s, q, i);
    LowerSlice(s, i, i + |q|);
    assert OccursAt(Lower(s), Lower(q), i);
  }

  /** `target.toLowerCase().includes(query.toLowerCase())`, the search test
      every list page uses. */
  predicate Matches(target: string, query: string) {
    Contains(Lower(target), Lower(query))
  }

  lemma MatchesEmpty(target: string)
    ensures Matches(target, "")
  {
    ContainsEmpty(Lower(target));
  }

  /** A longer query matches less: if q1 occurs in q2, whatever matches q2
      also matches q1. */
  lemma MatchesMonotone(target: string, q1: string, q2: string)
    requires Contains(q2, q1) && Matches(target, q2)
    ensures Matches(target, q1)
  {
    LowerPreservesContains(q2, q1);
    ContainsTransitive(Lower(target), Lower(q2), Lower(q1));
  }

  // ---------------------------------------------------------------------------
  // Subsequences and Array.prototype.filter

  /** r can be obtained from s by deleting elements, keeping the order. */
  predicate IsSubsequence<T(==)>(r: seq<T>, s: seq<T>)
    decreases |s|
  {
    r == [] || (s != [] && ((r[0] == s[0] && IsSubsequence(r[1..], s[1..])) || IsSubsequence(r, s[1..])))
  }

  lemma {:induction false} SubsequenceRefl<T>(s: seq<T>)
    ensures IsSubsequence(s, s)
    decreases |s|
  {
    if s != [] {
      SubsequenceRefl(s[1..]);
    }
  }

  /** Every element of a subsequence is an element of the whole. */
  lemma {:induction false} SubsequenceMembers<T>(r: seq<T>, s: seq<T>)
    requires IsSubsequence(r, s)
    ensures forall x :: x in r ==> x in s
    decreases |s|
  {
    if r != [] {
      if r[0] == s[0] && IsSubsequence(r[1..], s[1..]) {
        SubsequenceMembers(r[1..], s[1..]);
        assert r == [r[0]] + r[1..];
      } else {
        SubsequenceMembers(r, s[1..]);
      }
      assert s == [s[0]] + s[1..];
    }
  }

  lemma {:induction false} SubsequenceTransitive<T>(a: seq<T>, b: seq<T>, c: seq<T>)
    requires IsSubsequence(a, b) && IsSubsequence(b, c)
    ensures IsSubsequence(a, c)
    decreases |c|
  {
    if a == [] {
    } else if IsSubsequence(b, c[1..]) {
      SubsequenceTransitive(a, b, c[1..]);
    } else {
      assert b[0] == c[0] && IsSubsequence(b[1..], c[1..]);
      if a[0] == b[0] && IsSubsequence(a[1..], b[1..]) {
        SubsequenceTransitive(a[1..], b[1..], c[1..]);
      } else {
        SubsequenceTransitive(a, b[1..], c[1..]);
      }
    }
  }

  /** `s.filter(p)`: the elements satisfying p, in their original order and
      with their original multiplicities. */
  function Filter<T(!new)>(s: seq<T>, p: T -> bool): (r: seq<T>)
    ensures |r| <= |s|
    ensures forall x :: x in r <==> x in s && p(x)
    ensures forall x :: multiset(r)[x] == if p(x) then multiset(s)[x] else 0
    ensures IsSubsequence(r, s)
  {
    if s == [] then []
    else
      var rest := Filter(s[1..], p);
      assert s == [s[0]] + s[1..];
      if p(s[0]) then [s[0]] + rest else rest
  }

  lemma FilterAll<T(!new)>(s: seq<T>, p: T -> bool)
    ensures |Filter(s, p)| == |s| <==> forall x :: x in s ==> p(x)
  {
    if forall x :: x in s ==> p(x) {
      FilterKeepsAll(s, p);
    } else {
      var x :| x in s && !p(x);
      var i :| 0 <= i < |s| && s[i] == x;
      FilterDrops(s, p, i);
    }
  }

  /** An element the predicate rejects makes the filtered list shorter. */
  lemma {:induction false} FilterDrops<T(!new)>(s: seq<T>, p: T -> bool, i: int)
    requires 0 <= i < |s| && !p(s[i])
    ensures |Filter(s, p)| < |s|
  {
    if i == 0 {
      assert Filter(s, p) == Filter(s[1..], p);
    } else {
      FilterDrops(s[1..], p, i - 1);
    }
  }

  /** Filtering with a predicate every element satisfies returns the input. */
  lemma {:induction false} FilterKeepsAll<T(!new)>(s: seq<T>, p: T -> bool)
    requires forall x :: x in s ==> p(x)
    ensures Filter(s, p) == s
  {
    if s != [] {
      assert forall x :: x in s[1..] ==> x in s;
      FilterKeepsAll(s[1..], p);
      assert s[0] in s;
      assert Filter(s, p) == [s[0]] + Filter(s[1..], p);
      assert s == [s[0]] + s[1..];
    }
  }

  /** Filters by predicates that agree on the elements give the same list. */
  lemma {:induction false} FilterExtensional<T(!new)>(s: seq<T>, p: T -> bool, q: T -> bool)
    requires forall x :: x in s ==> p(x) == q(x)
    ensures Filter(s, p) == Filter(s, q)
  {
    if s != [] {
      assert forall x :: x in s[1..] ==> x in s;
      FilterExtensional(s[1..], p, q);
    }
  }

  /** Filtering distributes over concatenation. */
  lemma {:induction false} FilterAppend<T(!new)>(a: seq<T>, b: seq<T>, p: T -> bool)
    ensures Filter(a + b, p) == Filter(a, p) + Filter(b, p)
  {
    if a == [] {
      assert a + b == b;
    } else {
      assert (a + b)[0] == a[0];
      assert (a + b)[1..] == a[1..] + b;
      FilterAppend(a[1..], b, p);
    }
  }

  /** Filtering twice by the same predicate filters once. */
  lemma FilterIdempotent<T(!new)>(s: seq<T>, p: T -> bool)
    ensures Filter(Filter(s, p), p) == Filter(s, p)
  {
    FilterKeepsAll(Filter(s, p), p);
  }

  lemma FilterNonEmpty<T(!new)>(s: seq<T>, p: T -> bool)
    ensures |Filter(s, p)| > 0 <==> exists x :: x in s && p(x)
  {
    var r := Filter(s, p);
    if |r| > 0 {
      assert r[0] in r;
    }
  }

  /** Three predicates that never hold together count at most |s| elements;
      exactly |s| when every element satisfies one of them. */
  lemma {:induction false} FilterThreeWay<T(!new)>(s: seq<T>, p: T -> bool, q: T -> bool, t: T -> bool)
    requires forall x :: x in s ==> !(p(x) && q(x)) && !(p(x) && t(x)) && !(q(x) && t(x))
    ensures |Filter(s, p)| + |Filter(s, q)| + |Filter(s, t)| <= |s|
    ensures (forall x :: x in s ==> p(x) || q(x) || t(x)) ==>
              |Filter(s, p)| + |Filter(s, q)| + |Filter(s, t)| == |s|
  {
    if s != [] {
      assert forall x :: x in s[1..] ==> x in s;
      FilterThreeWay(s[1..], p, q, t);
    }
  }

  /** Filtering by the disjunction of two predicates that never hold together
      keeps as many elements as the two filters apart. */
  lemma {:induction false} FilterDisjointUnion<T(!new)>(s: seq<T>, p: T -> bool, q: T -> bool, pq: T -> bool)
    requires forall x :: x in s ==> (pq(x) <==> p(x) || q(x)) && !(p(x) && q(x))
    ensures |Filter(s, pq)| == |Filter(s, p)| + |Filter(s, q)|
  {
    if s != [] {
      assert forall x :: x in s[1..] ==> x in s;
      FilterDisjointUnion(s[1..], p, q, pq);
    }
  }

  // ---------------------------------------------------------------------------
  // Array.prototype.find

  /** i is the position of the first element of s satisfying p. */
  predicate IsFirstMatch<T>(s: seq<T>, p: T -> bool, i: int) {
    0 <= i < |s| && p(s[i]) && forall j :: 0 <= j < i ==> !p(s[j])
  }

  function FindIndex<T>(s: seq<T>, p: T -> bool): (r: Option<nat>)
    ensures r.Some? ==> IsFirstMatch(s, p, r.value)
    ensures r.None? ==> forall j :: 0 <= j < |s| ==> !p(s[j])
  {
    if s == [] then None
    else if p(s[0]) then Some(0)
    else match FindIndex(s[1..], p)
      case None => None
      case Some(k) => Some(k + 1)
  }

  /** `s.find(p)`: the first element satisfying p, or nothing. */
  function FindFirst<T(!new)>(s: seq<T>, p: T -> bool): (r: Option<T>)
    ensures r.None? <==> forall x :: x in s ==> !p(x)
    ensures r.Some? ==> r.value in s && p(r.value)
  {
    match FindIndex(s, p)
    case None => None
    case Some(i) => Some(s[i])
  }

  /** The index found is the first matching position. */
  lemma FindIndexAt<T>(s: seq<T>, p: T -> bool, i: int)
    requires IsFirstMatch(s, p, i)
    ensures FindIndex(s, p) == Some(i)
  {
    var k := FindIndex(s, p);
    assert k.Some? by {
      assert p(s[i]);
    }
    assert k.value == i by {
      assert IsFirstMatch(s, p, k.value);
    }
  }

  /** The element found is the one at the first matching position, even if
      later elements also match. */
  lemma FindFirstAt<T(!new)>(s: seq<T>, p: T -> bool, i: int)
    requires IsFirstMatch(s, p, i)
    ensures FindFirst(s, p) == Some(s[i])
  {
    FindIndexAt(s, p, i);
  }

  // ---------------------------------------------------------------------------
  // Sorting by a numeric key, largest first (`sort((a, b) => key(b) - key(a))`)

  predicate SortedDesc<T>(s: seq<T>, key: T -> int) {
    forall i, j :: 0 <= i < j < |s| ==> key(s[i]) >= key(s[j])
  }

  /** Inserts x in front of the first element whose key is not larger, so an
      earlier element stays in front of later ones with the same key. */
  function Insert<T>(x: T, s: seq<T>, key: T -> int): (r: seq<T>)
    ensures |r| == |s| + 1
    ensures multiset(r) == multiset(s) + multiset{x}
  {
    if s == [] || key(s[0]) <= key(x) then [x] + s
    else
      var rest := Insert(x, s[1..], key);
      assert s == [s[0]] + s[1..];
      [s[0]] + rest
  }

  /** A head no smaller than anything in a sorted tail keeps the list sorted. */
  lemma ConsSorted<T>(h: T, t: seq<T>, key: T -> int)
    requires SortedDesc(t, key)
    requires forall y :: y in t ==> key(h) >= key(y)
    ensures SortedDesc([h] + t, key)
  {
    var r := [h] + t;
    forall i, j | 0 <= i < j < |r| ensures key(r[i]) >= key(r[j]) {
      assert r[j] == t[j - 1];
      if i > 0 {
        assert r[i] == t[i - 1];
      } else {
        assert t[j - 1] in t;
      }
    }
  }

  /** The first element of a sorted list is no smaller than any element. */
  lemma SortedHead<T>(s: seq<T>, key: T -> int)
    requires SortedDesc(s, key) && s != []
    ensures forall y :: y in s ==> key(s[0]) >= key(y)
  {
    forall y | y in s ensures key(s[0]) >= key(y) {
      var k :| 0 <= k < |s| && s[k] == y;
    }
  }

  /** Inserting into a sorted list keeps it sorted. */
  lemma {:induction false} InsertSorted<T>(x: T, s: seq<T>, key: T -> int)
    requires SortedDesc(s, key)
    ensures SortedDesc(Insert(x, s, key), key)
  {
    if s == [] || key(s[0]) <= key(x) {
      if s != [] {
        SortedHead(s, key);
      }
      ConsSorted(x, s, key);
    } else {
      var rest := Insert(x, s[1..], key);
      InsertSorted(x, s[1..], key);
      SortedHead(s, key);
      forall y | y in rest ensures key(s[0]) >= key(y) {
        assert y in multiset(rest);
        if y != x {
          assert y in multiset(s[1..]);
          assert y in s[1..];
        }
      }
      ConsSorted(s[0], rest, key);
    }
  }

  function SortDesc<T>(s: seq<T>, key: T -> int): (r: seq<T>)
    ensures |r| == |s|
    ensures multiset(r) == multiset(s)
    ensures SortedDesc(r, key)
  {
    if s == [] then []
    else
      assert s == [s[0]] + s[1..];
      var rest := SortDesc(s[1..], key);
      InsertSorted(s[0], rest, key);
      Insert(s[0], rest, key)
  }

  /** `s.slice(0, n)`. */
  function Take<T>(s: seq<T>, n: nat): (r: seq<T>)
    ensures |r| == if |s| <= n then |s| else n
    ensures r == s[..|r|]
  {
    if |s| <= n then s else s[..n]
  }

  /** `s.filter(p).sort(by key, largest first).slice(0, n)`: the n entries
      with the largest keys among those satisfying p. */
  function Latest<T(!new)>(s: seq<T>, p: T -> bool, key: T -> int, n: nat): seq<T> {
    Take(SortDesc(Filter(s, p), key), n)
  }

  /** A prefix of a sorted list, together with the rest, makes up the whole
      list, and no kept element ranks below a dropped one. */
  lemma TakeSplit<T>(sorted: seq<T>, key: T -> int, n: nat)
    requires SortedDesc(sorted, key)
    ensures SortedDesc(Take(sorted, n), key)
    ensures multiset(Take(sorted, n)) + multiset(sorted[|Take(sorted, n)|..]) == multiset(sorted)
    ensures forall x, y :: x in Take(sorted, n) && y in sorted[|Take(sorted, n)|..] ==> key(x) >= key(y)
  {
    if |sorted| <= n {
      assert Take(sorted, n) == sorted;
      assert sorted[|sorted|..] == [];
    } else {
      var r, rest := sorted[..n], sorted[n..];
      assert Take(sorted, n) == r;
      assert sorted == r + rest;
      forall i, j | 0 <= i < j < |r| ensures key(r[i]) >= key(r[j]) {
        assert r[i] == sorted[i] && r[j] == sorted[j];
      }
      forall x, y | x in r && y in rest ensures key(x) >= key(y) {
        var i :| 0 <= i < |r| && r[i] == x;
        var j :| 0 <= j < |rest| && rest[j] == y;
        assert sorted[i] == x && sorted[n + j] == y;
      }
    }
  }

  lemma LatestSpec<T(!new)>(s: seq<T>, p: T -> bool, key: T -> int, n: nat)
    ensures |Latest(s, p, key, n)| == if |Filter(s, p)| <= n then |Filter(s, p)| else n
    ensures forall x :: x in Latest(s, p, key, n) ==> x in s && p(x)
    ensures SortedDesc(Latest(s, p, key, n), key)
    ensures multiset(Latest(s, p, key, n)) <= multiset(Filter(s, p))
    ensures |Filter(s, p)| <= n ==> multiset(Latest(s, p, key, n)) == multiset(Filter(s, p))
    ensures multiset(Latest(s, p, key, n)) + multiset(SortDesc(Filter(s, p), key)[|Latest(s, p, key, n)|..])
              == multiset(Filter(s, p))
    ensures forall x, y :: x in Latest(s, p, key, n) && y in SortDesc(Filter(s, p), key)[|Latest(s, p, key, n)|..]
              ==> key(x) >= key(y)
  {
    var f := Filter(s, p);
    var sorted := SortDesc(f, key);
    var r := Take(sorted, n);
    assert Latest(s, p, key, n) == r;
    TakeSplit(sorted, key, n);
    assert multiset(sorted) == multiset(f);
    forall x | x in r ensures x in s && p(x) {
      assert x in multiset(sorted);
      assert x in f;
    }
    if |f| <= n {
      assert r == sorted;
    }
  }

  // ---------------------------------------------------------------------------
  // Decimal formatting of counts (template-literal interpolation of a number)

  function DigitChar(d: nat): (c: char)
    requires d < 10
    ensures IsDigitAscii(c)
    ensures c as int - '0' as int == d
  {
    ('0' as int + d) as char
  }

  function NatToString(n: nat): (r: string)
    ensures |r| >= 1
    ensures forall i :: 0 <= i < |r| ==> IsDigitAscii(r[i])
    ensures n > 0 ==> r[0] != '0'
    decreases n
  {
    if n < 10 then [DigitChar(n)] else NatToString(n / 10) + [DigitChar(n % 10)]
  }

  /** The value a string of decimal digits denotes. */
  function DecimalValue(s: string): int
  {
    if s == [] then 0 else DecimalValue(s[..|s| - 1]) * 10 + (s[|s| - 1] as int - '0' as int)
  }

  lemma {:induction false} DecimalRoundTrip(n: nat)
    ensures DecimalValue(NatToString(n)) == n
    decreases n
  {
    if n >= 10 {
      var r := NatToString(n);
      assert r[..|r| - 1] == NatToString(n / 10);
      DecimalRoundTrip(n / 10);
    }
  }

  /** Distinct counts are printed differently. */
  lemma NatToStringInjective(m: nat, n: nat)
    requires NatToString(m) == NatToString(n)
    ensures m == n
  {
    DecimalRoundTrip(m);
    DecimalRoundTrip(n);
  }
}
