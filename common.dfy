/** Small value types and the handful of Python string operations the model relies on. */
module Common {

  /** Python's Optional: a value or None. */
  datatype Option<+T> = None | Some(value: T)

  /** `sub in s` on Python strings: `sub` occurs as a contiguous block of `s`. */
  predicate IsSubstring(sub: string, s: string)
  {
    sub <= s || (s != [] && IsSubstring(sub, s[1..]))
  }

  /** `sub` occurs in `s` starting at position `i`. */
  predicate OccursAt(sub: string, s: string, i: int)
  {
    0 <= i <= |s| - |sub| && s[i..i + |sub|] == sub
  }

  /** An occurrence past the first position is an occurrence in the tail. */
  lemma OccursInTail(sub: string, s: string, i: int)
    requires OccursAt(sub, s, i) && i > 0
    ensures OccursAt(sub, s[1..], i - 1)
  {
    assert s[1..][i - 1..i - 1 + |sub|] == s[i..i + |sub|];
  }

  /** An occurrence in the tail is an occurrence one position further on. */
  lemma OccursFromTail(sub: string, s: string, i: int)
    requires s != [] && OccursAt(sub, s[1..], i)
    ensures OccursAt(sub, s, i + 1)
  {
    assert s[1..][i..i + |sub|] == s[i + 1..i + 1 + |sub|];
  }

  /** The recursive definition agrees with "occurs at some position". */
  lemma {:induction false} IsSubstringAt(sub: string, s: string)
    ensures IsSubstring(sub, s) <==> exists i :: OccursAt(sub, s, i)
  {
    if sub <= s {
      assert OccursAt(sub, s, 0);
    } else if s == [] {
    } else {
      IsSubstringAt(sub, s[1..]);
      if exists i :: OccursAt(sub, s, i) {
        var i :| OccursAt(sub, s, i);
        assert i != 0;
        OccursInTail(sub, s, i);
      }
      if IsSubstring(sub, s[1..]) {
        var i :| OccursAt(sub, s[1..], i);
        OccursFromTail(sub, s, i);
      }
    }
  }

  /** Python's str.upper() / str.lower(), restricted to the ASCII letters. */
  function UpperChar(c: char): char
  {
    if 'a' <= c <= 'z' then (c as int - 32) as char else c
  }

  function LowerChar(c: char): char
  {
    if 'A' <= c <= 'Z' then (c as int + 32) as char else c
  }

  function Upper(s: string): (r: string)
    ensures |r| == |s| && forall i :: 0 <= i < |s| ==> r[i] == UpperChar(s[i])
  {
    seq(|s|, i requires 0 <= i < |s| => UpperChar(s[i]))
  }

  function Lower(s: string): (r: string)
    ensures |r| == |s| && forall i :: 0 <= i < |s| ==> r[i] == LowerChar(s[i])
  {
    seq(|s|, i requires 0 <= i < |s| => LowerChar(s[i]))
  }

  /** Case mapping absorbs an earlier case mapping. */
  lemma CaseAbsorbs(s: string)
    ensures Upper(Upper(s)) == Upper(s) && Lower(Upper(s)) == Lower(s)
    ensures Upper(Lower(s)) == Upper(s) && Lower(Lower(s)) == Lower(s)
  {
    assert forall i :: 0 <= i < |s| ==> Upper(Upper(s))[i] == Upper(s)[i];
    assert forall i :: 0 <= i < |s| ==> Lower(Upper(s))[i] == Lower(s)[i];
    assert forall i :: 0 <= i < |s| ==> Upper(Lower(s))[i] == Upper(s)[i];
    assert forall i :: 0 <= i < |s| ==> Lower(Lower(s))[i] == Lower(s)[i];
  }

  /** An occurrence survives case mapping of both strings. */
  lemma SubstringUpper(sub: string, s: string)
    requires IsSubstring(sub, s)
    ensures IsSubstring(Upper(sub), Upper(s))
  {
    IsSubstringAt(sub, s);
    var i :| OccursAt(sub, s, i);
    assert Upper(s)[i..i + |sub|] == Upper(sub) by {
      forall k | 0 <= k < |sub| ensures Upper(s)[i..i + |sub|][k] == Upper(sub)[k] {
        assert s[i..i + |sub|][k] == s[i + k];
      }
    }
    assert OccursAt(Upper(sub), Upper(s), i);
    IsSubstringAt(Upper(sub), Upper(s));
  }

  /** The characters for which Python's str.isspace() holds (the ones str.strip() removes). */
  predicate IsSpace(c: char)
  {
    ('\U{0009}' <= c <= '\U{000D}') || ('\U{001C}' <= c <= '\U{0020}')
    || c == '\U{0085}' || c == '\U{00A0}' || c == '\U{1680}'
    || ('\U{2000}' <= c <= '\U{200A}') || c == '\U{2028}' || c == '\U{2029}'
    || c == '\U{202F}' || c == '\U{205F}' || c == '\U{3000}'
  }

  /** Every character of `t` is whitespace. */
  predicate AllSpace(t: string)
  {
    forall k :: 0 <= k < |t| ==> IsSpace(t[k])
  }

  /** The end of the run of whitespace in `s` that starts at `i`. */
  function LeadingEnd(s: string, i: nat): (n: nat)
    requires i <= |s|
    ensures i <= n <= |s|
    ensures n < |s| ==> !IsSpace(s[n])
    decreases |s| - i
  {
    if i < |s| && IsSpace(s[i]) then LeadingEnd(s, i + 1) else i
  }

  /** The start of the run of whitespace in `s` that ends at `j`. */
  function TrailingStart(s: string, j: nat): (n: nat)
    requires j <= |s|
    ensures n <= j
    ensures 0 < n ==> !IsSpace(s[n - 1])
  {
    if 0 < j && IsSpace(s[j - 1]) then TrailingStart(s, j - 1) else j
  }

  /** Between `i` and `LeadingEnd(s, i)` there is only whitespace. */
  lemma {:induction false} LeadingRun(s: string, i: nat)
    requires i <= |s|
    ensures AllSpace(s[i..LeadingEnd(s, i)])
    decreases |s| - i
  {
    if i < |s| && IsSpace(s[i]) {
      LeadingRun(s, i + 1);
      assert s[i..LeadingEnd(s, i)] == [s[i]] + s[i + 1..LeadingEnd(s, i + 1)];
    }
  }

  /** Between `TrailingStart(s, j)` and `j` there is only whitespace. */
  lemma {:induction false} TrailingRun(s: string, j: nat)
    requires j <= |s|
    ensures AllSpace(s[TrailingStart(s, j)..j])
  {
    if 0 < j && IsSpace(s[j - 1]) {
      TrailingRun(s, j - 1);
      assert s[TrailingStart(s, j)..j] == s[TrailingStart(s, j - 1)..j - 1] + [s[j - 1]];
    }
  }

  /** `s` without its leading whitespace. */
  function TrimLeft(s: string): (r: string)
    ensures |r| <= |s| && r == s[|s| - |r|..]
    ensures r == [] || !IsSpace(r[0])
    ensures s != [] && !IsSpace(s[0]) ==> r == s
  {
    s[LeadingEnd(s, 0)..]
  }

  /** `s` without its trailing whitespace. */
  function TrimRight(s: string): (r: string)
    ensures |r| <= |s| && r == s[..|r|]
    ensures r == [] || !IsSpace(r[|r| - 1])
    ensures s != [] && !IsSpace(s[|s| - 1]) ==> r == s
  {
    s[..TrailingStart(s, |s|)]
  }

  /** What `TrimLeft` takes away is whitespace. */
  lemma TrimLeftRemoved(s: string)
    ensures AllSpace(s[..|s| - |TrimLeft(s)|])
  {
    LeadingRun(s, 0);
  }

  /** What `TrimRight` takes away is whitespace. */
  lemma TrimRightRemoved(s: string)
    ensures AllSpace(s[|TrimRight(s)|..])
  {
    TrailingRun(s, |s|);
  }

  /** Python's str.strip() with no argument: leading and trailing whitespace removed. */
  function Strip(s: string): (r: string)
    ensures |r| <= |s|
    ensures r == [] || (!IsSpace(r[0]) && !IsSpace(r[|r| - 1]))
  {
    var l := TrimLeft(s);
    var r := TrimRight(l);
    assert r != [] ==> r[0] == l[0];
    r
  }

  /** `Strip` keeps a contiguous part of `s`: the part after the leading whitespace. */
  lemma StripSlice(s: string)
    ensures |s| - |TrimLeft(s)| + |Strip(s)| <= |s|
    ensures Strip(s) == s[|s| - |TrimLeft(s)|..|s| - |TrimLeft(s)| + |Strip(s)|]
  {
    var l := TrimLeft(s);
    assert Strip(s) == TrimRight(l);
    SuffixSlices(s, |s| - |l|, |Strip(s)|);
  }

  /** What `Strip` takes away from either end of `s` is whitespace. */
  lemma StripRemoved(s: string)
    ensures AllSpace(s[..|s| - |TrimLeft(s)|])
    ensures |s| - |TrimLeft(s)| + |Strip(s)| <= |s|
    ensures AllSpace(s[|s| - |TrimLeft(s)| + |Strip(s)|..])
  {
    var l := TrimLeft(s);
    TrimLeftRemoved(s);
    TrimRightRemoved(l);
    assert Strip(s) == TrimRight(l);
    SuffixSlices(s, |s| - |l|, |Strip(s)|);
  }

  /** The first `n` elements, and the rest, of the suffix of `s` that starts at `i`. */
  lemma SuffixSlices(s: string, i: int, n: int)
    requires 0 <= i && 0 <= n && i + n <= |s|
    ensures s[i..][..n] == s[i..i + n] && s[i..][n..] == s[i + n..]
  {
  }

  /** A string that neither starts nor ends with whitespace is its own strip. */
  lemma StripUnchanged(s: string)
    requires s == [] || (!IsSpace(s[0]) && !IsSpace(s[|s| - 1]))
    ensures Strip(s) == s
  {
  }

  /** Python's `s.split(sep)` for a one-character separator: the pieces between separators. */
  function Split(s: string, sep: char): (r: seq<string>)
    ensures |r| >= 1
    ensures forall k :: 0 <= k < |r| ==> sep !in r[k]
    decreases |s|
  {
    if s == [] then [[]]
    else if s[0] == sep then [[]] + Split(s[1..], sep)
    else
      var rest := Split(s[1..], sep);
      [[s[0]] + rest[0]] + rest[1..]
  }

  /** Python's `sep.join(xs)`. */
  function Join(sep: string, xs: seq<string>): string
  {
    if xs == [] then []
    else if |xs| == 1 then xs[0]
    else xs[0] + sep + Join(sep, xs[1..])
  }

  /** Splitting on a character and joining the pieces back with it gives the original string. */
  lemma {:induction false} JoinSplit(s: string, sep: char)
    ensures Join([sep], Split(s, sep)) == s
    decreases |s|
  {
    if s == [] {
    } else if s[0] == sep {
      JoinSplit(s[1..], sep);
      assert s == [sep] + s[1..];
    } else {
      JoinSplit(s[1..], sep);
      var rest := Split(s[1..], sep);
      if |rest| == 1 {
        assert s == [s[0]] + rest[0];
      } else {
        assert Join([sep], rest) == rest[0] + [sep] + Join([sep], rest[1..]);
        assert s == [s[0]] + s[1..];
        assert ([s[0]] + rest[0]) + [sep] + Join([sep], rest[1..]) == [s[0]] + (rest[0] + [sep] + Join([sep], rest[1..]));
      }
    }
  }

  /** Every piece is prefixed with the same indentation, in order (the source's indented blocks). */
  function Indent(prefix: string, xs: seq<string>): (r: seq<string>)
    ensures |r| == |xs| && forall k :: 0 <= k < |xs| ==> r[k] == prefix + xs[k]
  {
    if xs == [] then [] else Indent(prefix, xs[..|xs| - 1]) + [prefix + xs[|xs| - 1]]
  }

  /** How many elements of `s` satisfy `f`. */
  function CountWhere<T>(s: seq<T>, f: T -> bool): nat
  {
    if s == [] then 0 else CountWhere(s[..|s| - 1], f) + (if f(s[|s| - 1]) then 1 else 0)
  }

  /**
   * `r` is `[x for x in s if f(x)]`: it holds as many elements as `s` has that satisfy `f`, and
   * the element of `s` at position k that satisfies `f` sits in `r` at the position given by the
   * number of such elements before it. Order and multiplicity are both kept.
   */
  ghost predicate FilterOf<T>(r: seq<T>, s: seq<T>, f: T -> bool)
  {
    |r| == CountWhere(s, f)
    && forall k :: 0 <= k < |s| && f(s[k]) ==> CountWhere(s[..k], f) < |r| && r[CountWhere(s[..k], f)] == s[k]
  }

  /** Filtering one more element appends it exactly when it satisfies `f`. */
  lemma FilterOfSnoc<T>(r: seq<T>, s: seq<T>, f: T -> bool, x: T)
    requires FilterOf(r, s, f)
    ensures FilterOf(r + (if f(x) then [x] else []), s + [x], f)
  {
    var s2, r2 := s + [x], r + (if f(x) then [x] else []);
    assert s2[..|s2| - 1] == s;
    forall k | 0 <= k < |s2| && f(s2[k])
      ensures CountWhere(s2[..k], f) < |r2| && r2[CountWhere(s2[..k], f)] == s2[k]
    {
      if k < |s| {
        assert s2[..k] == s[..k];
      } else {
        assert s2[..k] == s;
      }
    }
  }

  /** Taking one more element of a sequence appends it. */
  lemma TakeOneMore<T>(s: seq<T>, i: nat)
    requires i < |s|
    ensures s[..i + 1] == s[..i] + [s[i]]
  {
  }

  /** Python dicts are modelled as association lists of (key, value) pairs without repeated keys.
      The keys of a dict, in insertion order. */
  function Keys<V>(fields: seq<(string, V)>): (r: seq<string>)
    ensures |r| == |fields|
  {
    if fields == [] then [] else [fields[0].0] + Keys(fields[1..])
  }

  /** Looking a key up in a dict: the value of its first entry. */
  function Lookup<V>(fields: seq<(string, V)>, key: string): (r: Option<V>)
    ensures r.None? <==> key !in Keys(fields)
  {
    if fields == [] then None
    else if fields[0].0 == key then Some(fields[0].1)
    else
      var r := Lookup(fields[1..], key);
      assert Keys(fields) == [fields[0].0] + Keys(fields[1..]);
      r
  }

  lemma LookupCons<V>(k: string, v: V, rest: seq<(string, V)>, key: string)
    ensures Lookup([(k, v)] + rest, key) == if k == key then Some(v) else Lookup(rest, key)
  {
    assert ([(k, v)] + rest)[1..] == rest;
  }

  /** Python's `d[key] = v`: an existing key keeps its place and takes the new value; a new key goes last. */
  function Put<V>(fields: seq<(string, V)>, key: string, v: V): (r: seq<(string, V)>)
    ensures Keys(r) == if key in Keys(fields) then Keys(fields) else Keys(fields) + [key]
  {
    if fields == [] then [(key, v)]
    else if fields[0].0 == key then
      assert Keys(fields) == [key] + Keys(fields[1..]);
      assert Keys([(key, v)] + fields[1..]) == [key] + Keys(fields[1..]);
      [(key, v)] + fields[1..]
    else
      var rest := Put(fields[1..], key, v);
      assert Keys(fields) == [fields[0].0] + Keys(fields[1..]);
      assert Keys([fields[0]] + rest) == [fields[0].0] + Keys(rest);
      [fields[0]] + rest
  }

  /** After `d[key] = v`, `d[key]` is v and every other key reads as before. */
  lemma {:induction false} LookupPut<V>(fields: seq<(string, V)>, key: string, v: V, other: string)
    ensures Lookup(Put(fields, key, v), other) == if other == key then Some(v) else Lookup(fields, other)
  {
    if fields != [] && fields[0].0 != key {
      LookupPut<V>(fields[1..], key, v, other);
    }
  }

  /** Keys of a concatenation. */
  lemma {:induction false} KeysConcat<V>(a: seq<(string, V)>, b: seq<(string, V)>)
    ensures Keys(a + b) == Keys(a) + Keys(b)
  {
    if a != [] {
      assert (a + b)[1..] == a[1..] + b;
      KeysConcat(a[1..], b);
    } else {
      assert a + b == b;
    }
  }

  /** Looking a key up in a concatenation: the first part wins. */
  lemma {:induction false} LookupConcat<V>(a: seq<(string, V)>, b: seq<(string, V)>, key: string)
    ensures Lookup(a + b, key) == if key in Keys(a) then Lookup(a, key) else Lookup(b, key)
  {
    if a != [] {
      assert (a + b)[1..] == a[1..] + b;
      assert Keys(a) == [a[0].0] + Keys(a[1..]);
      LookupConcat(a[1..], b, key);
    } else {
      assert a + b == b;
    }
  }

  /** Assigning a key that is not in the dict appends it. */
  lemma PutFresh<V>(d: seq<(string, V)>, key: string, v: V)
    requires key !in Keys(d)
    ensures Put(d, key, v) == d + [(key, v)]
  {
    if d != [] {
      assert Keys(d) == [d[0].0] + Keys(d[1..]);
      PutFresh(d[1..], key, v);
      assert d == [d[0]] + d[1..];
    }
  }

  /** A dict entry that is there only when `present`. */
  function Entry<V>(present: bool, key: string, v: V): (e: seq<(string, V)>)
    ensures Keys(e) == if present then [key] else []
  {
    if present then [(key, v)] else []
  }

  /** The keys of a dict made of four optional entries, in order. */
  lemma FourKeys<V>(p1: bool, k1: string, v1: V, p2: bool, k2: string, v2: V,
                    p3: bool, k3: string, v3: V, p4: bool, k4: string, v4: V)
    ensures Keys(Entry(p1, k1, v1) + Entry(p2, k2, v2) + Entry(p3, k3, v3) + Entry(p4, k4, v4))
            == Keys(Entry(p1, k1, v1)) + Keys(Entry(p2, k2, v2)) + Keys(Entry(p3, k3, v3)) + Keys(Entry(p4, k4, v4))
  {
    var e1, e2, e3, e4 := Entry(p1, k1, v1), Entry(p2, k2, v2), Entry(p3, k3, v3), Entry(p4, k4, v4);
    KeysConcat(e1 + e2 + e3, e4);
    KeysConcat(e1 + e2, e3);
    KeysConcat(e1, e2);
  }

  /** Looking a key up in a dict made of four optional entries: the first present entry for it wins. */
  lemma FourLookup<V>(p1: bool, k1: string, v1: V, p2: bool, k2: string, v2: V,
                      p3: bool, k3: string, v3: V, p4: bool, k4: string, v4: V, key: string)
    ensures Lookup(Entry(p1, k1, v1) + Entry(p2, k2, v2) + Entry(p3, k3, v3) + Entry(p4, k4, v4), key)
            == if p1 && key == k1 then Some(v1) else if p2 && key == k2 then Some(v2)
               else if p3 && key == k3 then Some(v3) else if p4 && key == k4 then Some(v4) else None
  {
    var e1, e2, e3, e4 := Entry(p1, k1, v1), Entry(p2, k2, v2), Entry(p3, k3, v3), Entry(p4, k4, v4);
    KeysConcat(e1 + e2, e3);
    KeysConcat(e1, e2);
    LookupConcat(e1 + e2 + e3, e4, key);
    LookupConcat(e1 + e2, e3, key);
    LookupConcat(e1, e2, key);
  }
}
