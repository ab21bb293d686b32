/** Shared vocabulary: optional values and the few JavaScript string and
    array operations the storefront relies on (`includes`, `toLowerCase`,
    `trim`, `filter`). */
module Common {

  datatype Option<+T> = None | Some(value: T) {
    /** `x ?? default` */
    function GetOr(default: T): T {
      if Some? then value else default
    }
  }

  /** A JavaScript value that may be `undefined`, `null` or defined. */
  datatype Nullable<+T> = Undefined | Null | Defined(value: T)

  // ---------------------------------------------------------------------
  // Strings

  /** `s.startsWith(p)` */
  predicate IsPrefix(p: string, s: string) {
    |p| <= |s| && s[..|p|] == p
  }

  /** `s.includes(sub)`: sub occurs at some position of s; the empty
      string occurs in every string. */
  predicate Contains(s: string, sub: string) {
    exists i :: 0 <= i <= |s| && IsPrefix(sub, s[i..])
  }

  lemma ContainsAt(s: string, sub: string, i: nat)
    requires i <= |s| && IsPrefix(sub, s[i..])
    ensures Contains(s, sub)
  {
  }

  /** Every string contains every one of its prefixes. */
  lemma PrefixContained(p: string, s: string)
    requires IsPrefix(p, s)
    ensures Contains(s, p)
  {
    assert s[0..] == s;
  }

  /** "contains" is transitive: an occurrence of an occurrence is an occurrence. */
  lemma ContainsTransitive(a: string, b: string, c: string)
    requires Contains(a, b) && Contains(b, c)
    ensures Contains(a, c)
  {
    var i :| 0 <= i <= |a| && IsPrefix(b, a[i..]);
    var j :| 0 <= j <= |b| && IsPrefix(c, b[j..]);
    forall k | 0 <= k < |c|
      ensures a[i + j..][k] == c[k]
    {
      assert b[j..][..|c|][k] == c[k];
      assert a[i..][..|b|][j + k] == b[j + k];
    }
    assert a[i + j..][..|c|] == c;
    ContainsAt(a, c, i + j);
  }

  /** A string none of whose characters is `c` does not contain `c`. */
  lemma NotContainsChar(s: string, c: char)
    requires forall i :: 0 <= i < |s| ==> s[i] != c
    ensures !Contains(s, [c])
  {
    forall i | 0 <= i <= |s|
      ensures !IsPrefix([c], s[i..])
    {
      if i < |s| {
        assert s[i..][0] == s[i];
      }
    }
  }

  /** Whether a character lies outside the Basic Multilingual Plane, so that
      UTF-16 stores it as a surrogate pair. */
  predicate IsAstral(c: char) {
    c as int >= 0x1_0000
  }

  /** `s.length`: the number of UTF-16 code units, so a character outside
      the Basic Multilingual Plane counts twice. */
  function Utf16Length(s: string): (n: nat)
    ensures |s| <= n <= 2 * |s|
    ensures n == 0 <==> s == ""
    ensures (forall i :: 0 <= i < |s| ==> !IsAstral(s[i])) ==> n == |s|
  {
    if s == [] then 0
    else (if IsAstral(s[0]) then 2 else 1) + Utf16Length(s[1..])
  }

  /** `toLowerCase` on one character, restricted to the ASCII letters. */
  function ToLowerChar(c: char): char {
    if 'A' <= c <= 'Z' then (c as int + 32) as char else c
  }

  /** `s.toLowerCase()`, ASCII case folding only. */
  function ToLower(s: string): (r: string)
    ensures |r| == |s|
    ensures forall i :: 0 <= i < |s| ==> r[i] == ToLowerChar(s[i])
  {
    seq(|s|, i requires 0 <= i < |s| => ToLowerChar(s[i]))
  }

  /** The characters `trim` removes (the ASCII ones). */
  predicate IsWhitespace(c: char) {
    c == ' ' || c == '\t' || c == '\n' || c == '\r' || c == '\U{000C}' || c == '\U{000B}'
  }

  /** `s.trim() === ""` */
  predicate IsBlank(s: string) {
    forall i :: 0 <= i < |s| ==> IsWhitespace(s[i])
  }

  // ---------------------------------------------------------------------
  // Arrays

  predicate NoDuplicates<T(==)>(s: seq<T>) {
    forall i, j :: 0 <= i < j < |s| ==> s[i] != s[j]
  }

  /** Appending an element that is not yet present keeps a list duplicate free. */
  lemma AppendFresh<T>(s: seq<T>, x: T)
    requires NoDuplicates(s) && x !in s
    ensures NoDuplicates(s + [x])
  {
  }

  /** `s.filter((_, i) => i !== index)` */
  function RemoveAt<T>(s: seq<T>, index: int): seq<T>
  {
    if s == [] then []
    else (if index == 0 then [] else [s[0]]) + RemoveAt(s[1..], index - 1)
  }

  /** Filtering out one position removes exactly that element and keeps the
      others in order; an index outside the list removes nothing. */
  lemma {:induction false} RemoveAtSlices<T>(s: seq<T>, index: int)
    ensures RemoveAt(s, index) == if 0 <= index < |s| then s[..index] + s[index + 1..] else s
  {
    if s != [] {
      RemoveAtSlices(s[1..], index - 1);
      if 0 < index < |s| {
        assert s[..index] == [s[0]] + s[1..][..index - 1];
        assert s[index + 1..] == s[1..][index..];
      } else if index != 0 {
        assert s == [s[0]] + s[1..];
      }
    }
  }

  /** Removing one position keeps a duplicate-free list duplicate free. */
  lemma RemoveAtNoDuplicates<T>(s: seq<T>, index: int)
    requires NoDuplicates(s)
    ensures NoDuplicates(RemoveAt(s, index))
  {
    RemoveAtSlices(s, index);
    if 0 <= index < |s| {
      var r := s[..index] + s[index + 1..];
      forall a, b | 0 <= a < b < |r|
        ensures r[a] != r[b]
      {
        var a' := if a < index then a else a + 1;
        var b' := if b < index then b else b + 1;
        assert r[a] == s[a'] && r[b] == s[b'];
      }
    }
  }

  /** `s.filter(x => x !== v)` */
  function Without<T(==)>(s: seq<T>, v: T): seq<T>
  {
    if s == [] then []
    else (if s[0] == v then [] else [s[0]]) + Without(s[1..], v)
  }

  /** Filtering out a value removes every occurrence of it and changes the
      number of occurrences of no other value. */
  lemma {:induction false} WithoutCounts<T>(s: seq<T>, v: T)
    ensures multiset(Without(s, v)) == multiset(s)[v := 0]
    ensures v !in Without(s, v)
  {
    if s != [] {
      WithoutCounts(s[1..], v);
      assert s == [s[0]] + s[1..];
      assert multiset(s) == multiset([s[0]]) + multiset(s[1..]);
    }
    assert v !in multiset(Without(s, v));
  }

  /** Filtering distributes over concatenation, so the survivors keep their
      relative order. */
  lemma {:induction false} WithoutAppend<T>(a: seq<T>, b: seq<T>, v: T)
    ensures Without(a + b, v) == Without(a, v) + Without(b, v)
  {
    if a == [] {
      assert a + b == b;
    } else {
      assert (a + b)[1..] == a[1..] + b;
      WithoutAppend(a[1..], b, v);
    }
  }

  /** A value that is absent is filtered out without effect. */
  lemma {:induction false} WithoutAbsent<T>(s: seq<T>, v: T)
    requires v !in s
    ensures Without(s, v) == s
  {
    if s != [] {
      WithoutAbsent(s[1..], v);
      assert s == [s[0]] + s[1..];
    }
  }

  /** In a duplicate-free list, filtering out a present value is the same as
      removing its one position. */
  lemma {:induction false} WithoutUnique<T>(s: seq<T>, k: nat)
    requires NoDuplicates(s) && k < |s|
    ensures Without(s, s[k]) == s[..k] + s[k + 1..]
  {
    var v, before, after := s[k], s[..k], s[k + 1..];
    assert v !in before by {
      forall i | 0 <= i < |before|
        ensures before[i] != v
      {
        assert before[i] == s[i];
      }
    }
    assert v !in after by {
      forall i | 0 <= i < |after|
        ensures after[i] != v
      {
        assert after[i] == s[k + 1 + i];
      }
    }
    assert s == before + ([v] + after);
    WithoutSingle(before, v, after);
  }

  /** Filtering out a value that occurs exactly once removes that one place. */
  lemma {:induction false} WithoutSingle<T>(before: seq<T>, v: T, after: seq<T>)
    requires v !in before && v !in after
    ensures Without(before + ([v] + after), v) == before + after
  {
    var middle := [v] + after;
    WithoutAppend(before, middle, v);
    WithoutAppend([v], after, v);
    WithoutAbsent(before, v);
    WithoutAbsent(after, v);
    assert [v][1..] == [];
    assert Without([v], v) == [] + Without([], v);
    assert Without(middle, v) == after;
  }

  /** Filtering keeps a duplicate-free list duplicate free. */
  lemma {:induction false} WithoutNoDuplicates<T>(s: seq<T>, v: T)
    requires NoDuplicates(s)
    ensures NoDuplicates(Without(s, v))
  {
    if s != [] {
      WithoutNoDuplicates(s[1..], v);
      WithoutCounts(s[1..], v);
      var rest := Without(s[1..], v);
      if s[0] != v {
        assert s[0] !in s[1..];
        assert multiset(rest)[s[0]] == multiset(s[1..])[s[0]] == 0;
        assert s[0] !in rest;
        assert Without(s, v) == [s[0]] + rest;
      }
    }
  }
}
