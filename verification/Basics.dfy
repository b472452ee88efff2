/** Shared vocabulary of the model. */
module Basics {

  datatype Option<+T> = None | Some(value: T)

  /** The first position of `c` in `s` at or after `from`, or |s| when there is none. */
  function IndexFrom(s: string, c: char, from: nat): (n: nat)
    requires from <= |s|
    ensures from <= n <= |s|
    ensures n < |s| ==> s[n] == c
    ensures forall k :: from <= k < n ==> s[k] != c
    decreases |s| - from
  {
    if from == |s| || s[from] == c then from
    else IndexFrom(s, c, from + 1)
  }

  /** std::string::find of one character. */
  function Find(s: string, c: char): (n: nat)
    ensures n <= |s|
    ensures n < |s| ==> s[n] == c
    ensures forall k :: 0 <= k < n ==> s[k] != c
  {
    IndexFrom(s, c, 0)
  }

  /** Find is the only position with the character and none before it. */
  lemma FindIs(s: string, c: char, n: nat)
    requires n <= |s| && (n < |s| ==> s[n] == c)
    requires forall k :: 0 <= k < n ==> s[k] != c
    ensures Find(s, c) == n
  {
  }

  function Min(a: int, b: int): int { if a < b then a else b }

  function Max(a: int, b: int): int { if a < b then b else a }

  /** 0, 1, ... up to n. */
  function Range(n: nat): seq<nat> { seq(n, k => k) }

  predicate StartsWith(s: string, p: string) {
    |p| <= |s| && s[..|p|] == p
  }

  /** A multiple of `size` has no remainder. */
  lemma MultipleOf(k: nat, size: int)
    requires size > 0
    ensures k * size % size == 0 && k * size / size == k
  {
    var q, r := k * size / size, k * size % size;
    Multiples(k - q, size);
    assert (k - q) * size == k * size - q * size == r;
  }

  lemma Multiples(d: int, size: nat)
    ensures d >= 1 ==> d * size >= size
    ensures d <= -1 ==> d * size <= -(size as int)
  {
    if d >= 1 {
      assert d * size == (d - 1) * size + size;
    } else if d <= -1 {
      assert d * size == (d + 1) * size - size;
      assert (-(d + 1)) * size >= 0;
    }
  }
}
