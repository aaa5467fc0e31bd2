/** Option and Result: absence of a value, and a value or the error that replaced it. */
module Common {

  datatype Option<+T> = None | Some(value: T)

  datatype Result<+T, +E> = Ok(value: T) | Err(error: E)
}

/**
 * The pieces of Python's string and list API that the core relies on:
 * `str.join`, `str.replace` on one character, `str.rstrip` on one
 * character, `str.endswith`, ASCII `str.lower`, decimal rendering of a
 * natural number and the order-keeping deduplication of an `OrderedSet`.
 */
module Text {

  import opened Common

  /** `sep.join(parts)`. */
  function Join(parts: seq<string>, sep: string): string
  {
    if |parts| == 0 then ""
    else if |parts| == 1 then parts[0]
    else parts[0] + sep + Join(parts[1..], sep)
  }

  /** With a non-empty separator the join is empty only for no parts or one empty part. */
  lemma JoinEmpty(parts: seq<string>, sep: string)
    requires sep != ""
    ensures Join(parts, sep) == "" <==> parts == [] || parts == [""]
  {
    if |parts| >= 2 {
      assert |Join(parts, sep)| >= |sep|;
    }
  }

  /** `s.replace(a, b)` for single characters: every `a` becomes `b`, nothing else moves. */
  function Replace(s: string, a: char, b: char): (r: string)
    ensures |r| == |s|
    ensures a != b ==> a !in r
  {
    if s == [] then [] else [if s[0] == a then b else s[0]] + Replace(s[1..], a, b)
  }

  predicate EndsWith(s: string, suffix: string)
  {
    |suffix| <= |s| && s[|s| - |suffix|..] == suffix
  }

  predicate StartsWith(s: string, prefix: string)
  {
    |prefix| <= |s| && s[..|prefix|] == prefix
  }

  /**
   * `re.sub(re.escape(suffix) + "$", "", s)` for a suffix that can occur
   * only once at the end: one trailing occurrence of `suffix` is removed.
   */
  function RemoveSuffix(s: string, suffix: string): (r: string)
    ensures EndsWith(s, suffix) ==> r + suffix == s
    ensures !EndsWith(s, suffix) ==> r == s
  {
    if EndsWith(s, suffix) then s[..|s| - |suffix|] else s
  }

  lemma RemoveAppendedSuffix(head: string, suffix: string)
    ensures RemoveSuffix(head + suffix, suffix) == head
  {
    assert EndsWith(head + suffix, suffix) by {
      assert (head + suffix)[|head|..] == suffix;
    }
    assert (head + suffix)[..|head|] == head;
  }

  /** `s.rindex(c, 0, hi)` for one character, with `None` for the `ValueError`. */
  function RIndex(s: string, c: char, hi: nat): (r: Option<nat>)
    requires hi <= |s|
    ensures r.Some? ==> r.value < hi && s[r.value] == c && forall j :: r.value < j < hi ==> s[j] != c
    ensures r.None? ==> forall j :: 0 <= j < hi ==> s[j] != c
  {
    if hi == 0 then None else if s[hi - 1] == c then Some(hi - 1) else RIndex(s, c, hi - 1)
  }

  /** Where the first line of `s` ends: the first newline, or the end of `s`. */
  function LineEnd(s: string): (n: nat)
    ensures n <= |s| && '\n' !in s[..n]
    ensures n < |s| ==> s[n] == '\n'
  {
    if s == [] || s[0] == '\n' then 0
    else
      var n := 1 + LineEnd(s[1..]);
      assert s[..n] == [s[0]] + s[1..][..n - 1];
      n
  }

  /** `s.rstrip(c)`: the longest prefix of `s` that does not end in `c`. */
  function RStrip(s: string, c: char): (r: string)
    ensures r <= s
    ensures r == [] || r[|r| - 1] != c
    ensures forall i :: |r| <= i < |s| ==> s[i] == c
  {
    if s != [] && s[|s| - 1] == c then RStrip(s[..|s| - 1], c) else s
  }

  /** ASCII `str.lower`. */
  function Lower(s: string): (r: string)
    ensures |r| == |s|
    ensures forall i :: 0 <= i < |s| ==> r[i] == LowerChar(s[i])
  {
    if s == [] then [] else [LowerChar(s[0])] + Lower(s[1..])
  }

  function LowerChar(c: char): char
  {
    if 'A' <= c <= 'Z' then (c as int - 'A' as int + 'a' as int) as char else c
  }

  function Digit(d: nat): char
    requires d < 10
  {
    "0123456789"[d]
  }

  predicate IsDigits(s: string)
  {
    forall i :: 0 <= i < |s| ==> '0' <= s[i] <= '9'
  }

  /** `str(n)` for a natural number: its decimal digits, most significant first. */
  function NatToString(n: nat): (r: string)
    ensures |r| >= 1 && IsDigits(r)
    ensures |r| == 1 <==> n < 10
    ensures r[|r| - 1] == Digit(n % 10)
  {
    if n < 10 then [Digit(n)] else NatToString(n / 10) + [Digit(n % 10)]
  }

  lemma DigitInjective(a: nat, b: nat)
    requires a < 10 && b < 10 && Digit(a) == Digit(b)
    ensures a == b
  {
  }

  /** Distinct numbers have distinct decimal renderings. */
  lemma {:induction false} NatToStringInjective(a: nat, b: nat)
    requires NatToString(a) == NatToString(b)
    ensures a == b
  {
    var s := NatToString(a);
    DigitInjective(a % 10, b % 10);
    if a >= 10 {
      assert s[..|s| - 1] == NatToString(a / 10) == NatToString(b / 10);
      NatToStringInjective(a / 10, b / 10);
    }
  }

  predicate NoDuplicates<T(==)>(s: seq<T>)
  {
    forall i, j :: 0 <= i < j < |s| ==> s[i] != s[j]
  }

  /** The position of the first occurrence of `x` in `s`. */
  function FirstIndex<T(==)>(s: seq<T>, x: T): (i: nat)
    requires x in s
    ensures i < |s| && s[i] == x && x !in s[..i]
  {
    if s[0] == x then 0 else 1 + FirstIndex(s[1..], x)
  }

  lemma FirstIndexUnique<T>(s: seq<T>, x: T, i: nat)
    requires i < |s| && s[i] == x && x !in s[..i]
    ensures FirstIndex(s, x) == i
  {
  }

  /** The order facts that characterise `Dedup(s)`. */
  ghost predicate FirstOccurrenceOrder<T>(s: seq<T>, r: seq<T>)
    requires forall i :: 0 <= i < |r| ==> r[i] in s
  {
    forall i, j :: 0 <= i < j < |r| ==> FirstIndex(s, r[i]) < FirstIndex(s, r[j])
  }

  /** Deduplicating one more element keeps the characterisation. */
  lemma DedupSnoc<T(!new)>(init: seq<T>, last: T, r: seq<T>)
    requires NoDuplicates(r)
    requires forall x :: x in r <==> x in init
    requires FirstOccurrenceOrder(init, r)
    ensures var s := init + [last];
      var r' := if last in r then r else r + [last];
      && NoDuplicates(r')
      && (forall x :: x in r' <==> x in s)
      && FirstOccurrenceOrder(s, r')
  {
    var s := init + [last];
    forall i | 0 <= i < |r|
      ensures FirstIndex(s, r[i]) == FirstIndex(init, r[i])
    {
      var k := FirstIndex(init, r[i]);
      assert s[..k] == init[..k];
      FirstIndexUnique(s, r[i], k);
    }
    if last !in r {
      assert s[..|init|] == init;
      FirstIndexUnique(s, last, |init|);
    }
  }

  /**
   * `OrderedSet(s)`: the elements of `s` without repetition, each kept at
   * its first occurrence. The ensures clauses determine the result.
   */
  function Dedup<T(==,!new)>(s: seq<T>): (r: seq<T>)
    ensures NoDuplicates(r)
    ensures forall x :: x in r <==> x in s
    ensures forall i, j :: 0 <= i < j < |r| ==> FirstIndex(s, r[i]) < FirstIndex(s, r[j])
  {
    if s == [] then []
    else
      var init, last := s[..|s| - 1], s[|s| - 1];
      var r := Dedup(init);
      DedupSnoc(init, last, r);
      assert s == init + [last];
      if last in r then r else r + [last]
  }

  /** Deduplicating a concatenation keeps the deduplicated first part as a prefix. */
  lemma {:induction false} DedupPrefix<T(!new)>(first: seq<T>, second: seq<T>)
    ensures Dedup(first) <= Dedup(first + second)
  {
    if second != [] {
      var init := second[..|second| - 1];
      var s := first + second;
      assert s[..|s| - 1] == first + init;
      DedupPrefix(first, init);
      var r, p := Dedup(first + init), Dedup(first);
      assert Dedup(s) == r || Dedup(s) == r + [s[|s| - 1]];
      assert (r + [s[|s| - 1]])[..|p|] == r[..|p|] == p;
    } else {
      assert first + second == first;
    }
  }

  /** What follows the deduplicated first part consists of elements not in it. */
  lemma {:induction false} DedupTail<T(!new)>(first: seq<T>, second: seq<T>)
    ensures var r := Dedup(first + second);
      |Dedup(first)| <= |r| &&
      forall i :: |Dedup(first)| <= i < |r| ==> r[i] in second && r[i] !in first
  {
    DedupPrefix(first, second);
    var r := Dedup(first + second);
    var p := Dedup(first);
    forall i | |p| <= i < |r|
      ensures r[i] in second && r[i] !in first
    {
      assert r[i] in first + second;
    }
  }
}
