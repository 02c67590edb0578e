/**
 * Shared vocabulary: an optional value, the ASCII character classes the
 * regular expressions of the scanner use, ASCII case mapping, prefix and
 * substring tests, order-preserving filtering, and decimal formatting
 * (with the zero padding that `f"{n:05d}"` produces) together with its
 * inverse, decimal parsing.
 */
module Common {

  datatype Option<T> = None | Some(value: T)

  /** A value, or the error message the source returns in its place. */
  datatype Result<T> = Ok(value: T) | Err(error: string)

  /** Python truthiness of an optional string: present and not empty. */
  predicate Truthy(o: Option<string>) {
    o.Some? && o.value != ""
  }

  // ---------------------------------------------------------------------
  // Character classes (ASCII restriction of Python's \d, \s and \w)

  predicate IsDigit(c: char) {
    '0' <= c <= '9'
  }

  /** Python's \s restricted to ASCII: space, \t \n \v \f \r and \x1c-\x1f. */
  predicate IsSpace(c: char) {
    c == ' ' || 9 <= c as int <= 13 || 28 <= c as int <= 31
  }

  /** Python's \w restricted to ASCII. */
  predicate IsWordChar(c: char) {
    IsDigit(c) || 'a' <= c <= 'z' || 'A' <= c <= 'Z' || c == '_'
  }

  predicate AllDigits(s: string) {
    forall i :: 0 <= i < |s| ==> IsDigit(s[i])
  }

  function DigitValue(c: char): (d: nat)
    requires IsDigit(c)
    ensures d < 10
  {
    c as int - '0' as int
  }

  function DigitChar(d: nat): (c: char)
    requires d < 10
    ensures IsDigit(c) && DigitValue(c) == d
  {
    ('0' as int + d) as char
  }

  // ---------------------------------------------------------------------
  // ASCII case mapping (str.lower / str.upper on ASCII text)

  function LowerChar(c: char): (r: char)
    ensures 'A' <= c <= 'Z' ==> 'a' <= r <= 'z'
    ensures !('A' <= c <= 'Z') ==> r == c
  {
    if 'A' <= c <= 'Z' then (c as int + 32) as char else c
  }

  function UpperChar(c: char): (r: char)
    ensures 'a' <= c <= 'z' ==> 'A' <= r <= 'Z'
    ensures !('a' <= c <= 'z') ==> r == c
  {
    if 'a' <= c <= 'z' then (c as int - 32) as char else c
  }

  function Lower(s: string): (r: string)
    ensures |r| == |s|
    ensures forall i :: 0 <= i < |s| ==> r[i] == LowerChar(s[i])
  {
    if s == [] then [] else [LowerChar(s[0])] + Lower(s[1..])
  }

  function Upper(s: string): (r: string)
    ensures |r| == |s|
    ensures forall i :: 0 <= i < |s| ==> r[i] == UpperChar(s[i])
  {
    if s == [] then [] else [UpperChar(s[0])] + Upper(s[1..])
  }

  lemma LowerIdempotent(s: string)
    ensures Lower(Lower(s)) == Lower(s)
  {
  }

  /** Text with no upper-case letter is its own lower-case form. */
  lemma LowerOfLowercase(s: string)
    requires forall i :: 0 <= i < |s| ==> !('A' <= s[i] <= 'Z')
    ensures Lower(s) == s
  {
  }

  /** Case-insensitive equality as `a.lower() == b.lower()`. */
  predicate EqualsIgnoreCase(a: string, b: string) {
    Lower(a) == Lower(b)
  }

  // ---------------------------------------------------------------------
  // Prefixes and substrings (str.startswith, `in` on strings)

  predicate StartsWith(s: string, prefix: string) {
    |prefix| <= |s| && s[..|prefix|] == prefix
  }

  /** `needle in hay`: some suffix of `hay` starts with `needle`. */
  predicate IsSubstring(needle: string, hay: string)
    decreases |hay|
  {
    StartsWith(hay, needle) || (hay != [] && IsSubstring(needle, hay[1..]))
  }

  // ---------------------------------------------------------------------
  // Order-preserving filtering (a list comprehension with an `if`)

  function Filter<T>(s: seq<T>, p: T -> bool): (r: seq<T>)
    ensures |r| <= |s|
    ensures forall i :: 0 <= i < |r| ==> p(r[i]) && r[i] in s
    ensures forall i :: 0 <= i < |s| && p(s[i]) ==> s[i] in r
  {
    if s == [] then [] else (if p(s[0]) then [s[0]] else []) + Filter(s[1..], p)
  }

  lemma {:induction false} FilterNone<T>(s: seq<T>, p: T -> bool)
    requires forall i :: 0 <= i < |s| ==> !p(s[i])
    ensures Filter(s, p) == []
  {
    if s != [] {
      FilterNone(s[1..], p);
    }
  }

  lemma FilterMember<T>(s: seq<T>, p: T -> bool, x: T)
    requires x in s && p(x)
    ensures x in Filter(s, p)
  {
    var i :| 0 <= i < |s| && s[i] == x;
  }

  /** An element is kept exactly when it occurs and passes the filter. */
  lemma FilterMembers<T>(s: seq<T>, p: T -> bool)
    ensures forall x :: x in Filter(s, p) <==> x in s && p(x)
  {
    forall x ensures x in Filter(s, p) <==> x in s && p(x) {
      if x in Filter(s, p) {
        var i :| 0 <= i < |Filter(s, p)| && Filter(s, p)[i] == x;
      }
      if x in s && p(x) {
        FilterMember(s, p, x);
      }
    }
  }

  lemma {:induction false} FilterAppend<T>(a: seq<T>, b: seq<T>, p: T -> bool)
    ensures Filter(a + b, p) == Filter(a, p) + Filter(b, p)
  {
    if a == [] {
      assert a + b == b;
    } else {
      assert (a + b)[1..] == a[1..] + b;
      FilterAppend(a[1..], b, p);
    }
  }

  /** Filtering by two predicates one after the other is filtering by both. */
  lemma {:induction false} FilterFilter<T>(s: seq<T>, p: T -> bool, q: T -> bool)
    ensures Filter(Filter(s, p), q) == Filter(s, x => p(x) && q(x))
  {
    if s != [] {
      FilterFilter(s[1..], p, q);
      var head := if p(s[0]) then [s[0]] else [];
      FilterAppend(head, Filter(s[1..], p), q);
    }
  }

  /** `[f(x) for x in s]` */
  function MapSeq<T, U>(s: seq<T>, f: T -> U): (r: seq<U>)
    ensures |r| == |s| && forall i :: 0 <= i < |s| ==> r[i] == f(s[i])
  {
    if s == [] then [] else [f(s[0])] + MapSeq(s[1..], f)
  }

  lemma MapSeqMember<T, U>(s: seq<T>, f: T -> U, x: T)
    requires x in s
    ensures f(x) in MapSeq(s, f)
  {
    var i :| 0 <= i < |s| && s[i] == x;
    assert MapSeq(s, f)[i] == f(x);
  }

  lemma MapSeqAppend<T, U>(a: seq<T>, b: seq<T>, f: T -> U)
    ensures MapSeq(a + b, f) == MapSeq(a, f) + MapSeq(b, f)
  {
    assert forall i :: 0 <= i < |a| ==> (a + b)[i] == a[i];
    assert forall i :: |a| <= i < |a| + |b| ==> (a + b)[i] == b[i - |a|];
  }

  /** One more step of a loop that appends `f(x)` for every `x`. */
  lemma MapSeqSnoc<T, U>(s: seq<T>, i: nat, f: T -> U)
    requires i < |s|
    ensures MapSeq(s[..i + 1], f) == MapSeq(s[..i], f) + [f(s[i])]
  {
    assert s[..i + 1] == s[..i] + [s[i]];
    MapSeqAppend(s[..i], [s[i]], f);
  }

  /** One more step of a loop that appends `f(x)` for every `x` satisfying `p`. */
  lemma MapFilterSnoc<T, U>(s: seq<T>, i: nat, p: T -> bool, f: T -> U)
    requires i < |s|
    ensures MapSeq(Filter(s[..i + 1], p), f) == MapSeq(Filter(s[..i], p), f) + (if p(s[i]) then [f(s[i])] else [])
  {
    assert s[..i + 1] == s[..i] + [s[i]];
    FilterAppend(s[..i], [s[i]], p);
    assert [s[i]][1..] == [];
    MapSeqAppend(Filter(s[..i], p), Filter([s[i]], p), f);
  }

  function Count<T>(s: seq<T>, p: T -> bool): (n: nat)
    ensures n <= |s|
  {
    if s == [] then 0 else (if p(s[0]) then 1 else 0) + Count(s[1..], p)
  }

  lemma {:induction false} CountIsFilterLength<T>(s: seq<T>, p: T -> bool)
    ensures Count(s, p) == |Filter(s, p)|
  {
    if s != [] {
      CountIsFilterLength(s[1..], p);
    }
  }

  lemma {:induction false} CountAppend<T>(a: seq<T>, b: seq<T>, p: T -> bool)
    ensures Count(a + b, p) == Count(a, p) + Count(b, p)
  {
    if a == [] {
      assert a + b == b;
    } else {
      assert (a + b)[1..] == a[1..] + b;
      CountAppend(a[1..], b, p);
    }
  }

  /** One more element counted: the step a counting loop takes. */
  lemma CountStep<T>(s: seq<T>, i: nat, p: T -> bool)
    requires i < |s|
    ensures Count(s[..i + 1], p) == Count(s[..i], p) + (if p(s[i]) then 1 else 0)
  {
    CountAppend(s[..i], [s[i]], p);
    assert s[..i + 1] == s[..i] + [s[i]];
  }

  // ---------------------------------------------------------------------
  // A dict given as its (key, value) pairs in insertion order

  function Keys<K, V>(d: seq<(K, V)>): (r: seq<K>)
    ensures |r| == |d| && forall i :: 0 <= i < |d| ==> r[i] == d[i].0
  {
    if d == [] then [] else [d[0].0] + Keys(d[1..])
  }

  /** `d.get(k)`: the value filed under `k`, found exactly when `k` is a key. */
  function Get<K(==), V>(d: seq<(K, V)>, k: K): (r: Option<V>)
    ensures r.Some? <==> k in Keys(d)
    ensures r.Some? ==> (k, r.value) in d
  {
    if d == [] then None
    else if d[0].0 == k then Some(d[0].1)
    else
      assert Keys(d) == [d[0].0] + Keys(d[1..]);
      Get(d[1..], k)
  }

  /** `d[k] = v`: an existing key keeps its place, a new one goes last. */
  function Assign<K(==), V>(d: seq<(K, V)>, k: K, v: V): (r: seq<(K, V)>)
    ensures Keys(r) == if k in Keys(d) then Keys(d) else Keys(d) + [k]
    ensures forall i :: 0 <= i < |r| ==> r[i] == (k, v) || r[i] in d
  {
    if d == [] then [(k, v)]
    else if d[0].0 == k then
      assert Keys(d) == [d[0].0] + Keys(d[1..]);
      [(k, v)] + d[1..]
    else
      var rest := Assign(d[1..], k, v);
      assert Keys(d) == [d[0].0] + Keys(d[1..]);
      assert Keys([d[0]] + rest) == [d[0].0] + Keys(rest);
      [d[0]] + rest
  }

  /** Every value of `d` is `f` of its key. */
  ghost predicate ValuesFrom<K, V>(d: seq<(K, V)>, f: K -> V) {
    forall i :: 0 <= i < |d| ==> d[i].1 == f(d[i].0)
  }

  /** Assigning `f(k)` to `k` keeps every value `f` of its key. */
  lemma AssignKeepsValues<K, V>(d: seq<(K, V)>, k: K, f: K -> V)
    requires ValuesFrom(d, f)
    ensures ValuesFrom(Assign(d, k, f(k)), f)
  {
    var r := Assign(d, k, f(k));
    forall i | 0 <= i < |r| ensures r[i].1 == f(r[i].0) {
      if r[i] != (k, f(k)) {
        var j :| 0 <= j < |d| && d[j] == r[i];
      }
    }
  }

  /** The distinct elements of `s` in first-occurrence order. */
  function Dedup<T(==, !new)>(s: seq<T>): (r: seq<T>)
    ensures forall x :: x in r <==> x in s
    ensures forall i, j :: 0 <= i < j < |r| ==> r[i] != r[j]
  {
    if s == [] then []
    else
      var d := Dedup(s[..|s| - 1]);
      assert forall x :: x in s <==> x in s[..|s| - 1] || x == s[|s| - 1] by {
        assert s == s[..|s| - 1] + [s[|s| - 1]];
      }
      if s[|s| - 1] in d then d else d + [s[|s| - 1]]
  }

  lemma DedupSnoc<T(!new)>(s: seq<T>, x: T)
    ensures Dedup(s + [x]) == if x in Dedup(s) then Dedup(s) else Dedup(s) + [x]
  {
    assert (s + [x])[..|s + [x]| - 1] == s;
  }

  // ---------------------------------------------------------------------
  // Decimal formatting and parsing

  /** str(n) for a natural number. */
  function NatToString(n: nat): (s: string)
    ensures |s| >= 1 && AllDigits(s)
  {
    if n < 10 then [DigitChar(n)] else NatToString(n / 10) + [DigitChar(n % 10)]
  }

  /** str(n) for any integer, with a leading minus sign when negative. */
  function IntToString(n: int): (s: string)
    ensures |s| >= 1
    ensures n >= 0 ==> s == NatToString(n)
    ensures n < 0 ==> s[0] == '-'
  {
    if n >= 0 then NatToString(n) else "-" + NatToString(-n)
  }

  function Repeat(c: char, k: nat): (s: string)
    ensures |s| == k
    ensures forall i :: 0 <= i < k ==> s[i] == c
  {
    if k == 0 then [] else [c] + Repeat(c, k - 1)
  }

  /** f"{n:0Wd}": the decimal digits of n, left-padded with zeros to `width`. */
  function ZeroPadded(n: nat, width: nat): (s: string)
    ensures |s| >= width && AllDigits(s)
  {
    var d := NatToString(n);
    if |d| >= width then d else Repeat('0', width - |d|) + d
  }

  /** int(s) for a string of decimal digits (leading zeros allowed). */
  function ParseDecimal(s: string): nat
    requires AllDigits(s)
  {
    if s == [] then 0 else ParseDecimal(s[..|s| - 1]) * 10 + DigitValue(s[|s| - 1])
  }

  lemma {:induction false} ParseNatToString(n: nat)
    ensures ParseDecimal(NatToString(n)) == n
  {
    if n >= 10 {
      var s := NatToString(n);
      assert s[..|s| - 1] == NatToString(n / 10);
      ParseNatToString(n / 10);
    }
  }

  lemma {:induction false} ParseLeadingZeros(k: nat, s: string)
    requires AllDigits(s)
    ensures AllDigits(Repeat('0', k) + s)
    ensures ParseDecimal(Repeat('0', k) + s) == ParseDecimal(s)
  {
    var z := Repeat('0', k);
    var t := z + s;
    assert AllDigits(t) by {
      forall i | 0 <= i < |t| ensures IsDigit(t[i]) {
        if i < k { assert t[i] == z[i]; } else { assert t[i] == s[i - k]; }
      }
    }
    if s == [] {
      assert t == z;
      if k > 0 {
        assert t[..|t| - 1] == Repeat('0', k - 1) + [];
        ParseLeadingZeros(k - 1, []);
      }
    } else {
      assert t[..|t| - 1] == z + s[..|s| - 1];
      ParseLeadingZeros(k, s[..|s| - 1]);
    }
  }

  /** Zero-padded formatting is undone by parsing, whatever the width. */
  lemma ParseZeroPadded(n: nat, width: nat)
    ensures ParseDecimal(ZeroPadded(n, width)) == n
  {
    var d := NatToString(n);
    ParseNatToString(n);
    if |d| < width {
      ParseLeadingZeros(width - |d|, d);
      assert ZeroPadded(n, width) == Repeat('0', width - |d|) + d;
    } else {
      assert ZeroPadded(n, width) == d;
    }
  }

  /** Hence two different numbers never format to the same padded string. */
  lemma ZeroPaddedInjective(n: nat, m: nat, width: nat)
    requires n != m
    ensures ZeroPadded(n, width) != ZeroPadded(m, width)
  {
    ParseZeroPadded(n, width);
    ParseZeroPadded(m, width);
  }

  // ---------------------------------------------------------------------
  // Counting by key into a dict that keeps first-insertion order
  // (`d[k] = d.get(k, 0) + 1` in a loop)

  /** Adds one occurrence of `k` to a tally. */
  function Bump<K(==)>(t: seq<(K, nat)>, k: K): seq<(K, nat)> {
    if t == [] then [(k, 1)]
    else if t[0].0 == k then [(k, t[0].1 + 1)] + t[1..]
    else [t[0]] + Bump(t[1..], k)
  }

  /** The tally of `s`, key by key in the order keys first occur. */
  function Tally<K(==)>(s: seq<K>): seq<(K, nat)> {
    if s == [] then [] else Bump(Tally(s[..|s| - 1]), s[|s| - 1])
  }

  /** The sum of the counts of a tally. */
  function TallyTotal<K>(t: seq<(K, nat)>): nat {
    if t == [] then 0 else t[0].1 + TallyTotal(t[1..])
  }

  /** The count a tally holds for `k` (`d.get(k, 0)`). */
  function CountOf<K(==)>(t: seq<(K, nat)>, k: K): nat {
    if t == [] then 0 else if t[0].0 == k then t[0].1 else CountOf(t[1..], k)
  }

  predicate DistinctKeys<K(==)>(t: seq<(K, nat)>) {
    forall i, j :: 0 <= i < j < |t| ==> t[i].0 != t[j].0
  }

  function Occurrences<K(==)>(s: seq<K>, k: K): nat {
    if s == [] then 0 else (if s[|s| - 1] == k then 1 else 0) + Occurrences(s[..|s| - 1], k)
  }

  lemma {:induction false} BumpFacts<K>(t: seq<(K, nat)>, k: K)
    ensures TallyTotal(Bump(t, k)) == TallyTotal(t) + 1
    ensures CountOf(Bump(t, k), k) == CountOf(t, k) + 1
    ensures forall x :: x != k ==> CountOf(Bump(t, k), x) == CountOf(t, x)
  {
    if t != [] && t[0].0 != k {
      BumpFacts(t[1..], k);
      assert Bump(t, k)[1..] == Bump(t[1..], k);
    }
  }

  lemma {:induction false} BumpKeys<K>(t: seq<(K, nat)>, k: K)
    requires DistinctKeys(t)
    ensures DistinctKeys(Bump(t, k))
    ensures forall i :: 0 <= i < |Bump(t, k)| ==> Bump(t, k)[i].0 == k || exists j :: 0 <= j < |t| && t[j].0 == Bump(t, k)[i].0
  {
    if t != [] && t[0].0 != k {
      BumpKeys(t[1..], k);
      var r := Bump(t, k);
      assert r == [t[0]] + Bump(t[1..], k);
      forall i | 0 < i < |r| ensures r[i].0 != t[0].0 {
        if r[i].0 != k {
          var j :| 0 <= j < |t[1..]| && t[1..][j].0 == r[i].0;
          assert t[j + 1].0 == r[i].0;
        }
      }
      forall i | 0 <= i < |r| ensures r[i].0 == k || exists j :: 0 <= j < |t| && t[j].0 == r[i].0 {
        if i > 0 && r[i].0 != k {
          var j :| 0 <= j < |t[1..]| && t[1..][j].0 == r[i].0;
          assert t[j + 1].0 == r[i].0;
        } else if i == 0 {
          assert t[0].0 == r[0].0;
        }
      }
    } else if t != [] {
      var r := Bump(t, k);
      forall i | 0 <= i < |r| ensures r[i].0 == k || exists j :: 0 <= j < |t| && t[j].0 == r[i].0 {
        assert t[i].0 == r[i].0;
      }
    }
  }

  /**
   * A tally accounts for every element exactly once: its counts sum to the
   * length, each key's count is its number of occurrences, and no key is
   * listed twice.
   */
  lemma {:induction false} TallyCorrect<K>(s: seq<K>)
    ensures TallyTotal(Tally(s)) == |s|
    ensures forall k :: CountOf(Tally(s), k) == Occurrences(s, k)
    ensures DistinctKeys(Tally(s))
  {
    if s != [] {
      var init := s[..|s| - 1];
      TallyCorrect(init);
      BumpFacts(Tally(init), s[|s| - 1]);
      BumpKeys(Tally(init), s[|s| - 1]);
    }
  }
}
