/**
 * Small helpers shared by the view models and screens: the Option type the
 * Kotlin code writes as `T?`, Kotlin's `isBlank`, ASCII case mapping of enum
 * names and identifiers, and the list operations of `MutableList`.
 */
module Common {

  datatype Option<+T> = None | Some(value: T) {
    /** Kotlin's elvis operator `x ?: default`. */
    function GetOr(default: T): T {
      match this
      case Some(v) => v
      case None => default
    }
  }

  /**
   * Kotlin's `Char.isWhitespace()`: Java's `Character.isWhitespace` (the
   * ASCII controls below) or `Character.isSpaceChar` (the Unicode space,
   * line and paragraph separators).
   */
  predicate IsWhitespace(c: char) {
    || c == '\t' || c == '\n' || c == '\U{000B}' || c == '\U{000C}' || c == '\r'
    || ('\U{001C}' <= c <= '\U{001F}')
    || c == ' ' || c == '\U{00A0}' || c == '\U{1680}'
    || ('\U{2000}' <= c <= '\U{200A}')
    || c == '\U{2028}' || c == '\U{2029}' || c == '\U{202F}' || c == '\U{205F}' || c == '\U{3000}'
  }

  /** Kotlin's `CharSequence.isBlank()`: empty or whitespace only. */
  predicate IsBlank(s: string) {
    forall i :: 0 <= i < |s| ==> IsWhitespace(s[i])
  }

  lemma EmptyIsBlank()
    ensures IsBlank("")
  {
  }

  /** A string with a non-whitespace character is not blank. */
  lemma NonBlankWitness(s: string, i: nat)
    requires i < |s| && !IsWhitespace(s[i])
    ensures !IsBlank(s)
  {
  }

  function LowerChar(c: char): char {
    if 'A' <= c <= 'Z' then (c as int + 32) as char else c
  }

  function UpperChar(c: char): char {
    if 'a' <= c <= 'z' then (c as int - 32) as char else c
  }

  /** `String.lowercase()` on ASCII text. */
  function Lower(s: string): (r: string)
    ensures |r| == |s|
    ensures forall i :: 0 <= i < |s| ==> r[i] == LowerChar(s[i])
  {
    seq(|s|, i requires 0 <= i < |s| => LowerChar(s[i]))
  }

  /** `String.uppercase()` on ASCII text. */
  function Upper(s: string): (r: string)
    ensures |r| == |s|
    ensures forall i :: 0 <= i < |s| ==> r[i] == UpperChar(s[i])
  {
    seq(|s|, i requires 0 <= i < |s| => UpperChar(s[i]))
  }

  /** `String.replace(from, to)` for single-character strings. */
  function ReplaceChar(s: string, from: char, to: char): (r: string)
    ensures |r| == |s|
    ensures forall i :: 0 <= i < |s| ==> r[i] == (if s[i] == from then to else s[i])
  {
    seq(|s|, i requires 0 <= i < |s| => if s[i] == from then to else s[i])
  }

  /** `replaceFirstChar { it.titlecase() }` on ASCII text. */
  function CapitalizeFirst(s: string): (r: string)
    ensures |r| == |s|
    ensures |s| > 0 ==> r[0] == UpperChar(s[0]) && r[1..] == s[1..]
  {
    if s == [] then [] else [UpperChar(s[0])] + s[1..]
  }

  predicate StartsWith(s: string, prefix: string) {
    prefix <= s
  }

  /** `s.take(n)`. */
  function Take(s: string, n: nat): (r: string)
    ensures |r| == if n < |s| then n else |s|
    ensures r <= s
  {
    if n < |s| then s[..n] else s
  }

  /** `s.takeLast(n)`. */
  function TakeLast(s: string, n: nat): (r: string)
    ensures |r| == if n < |s| then n else |s|
    ensures forall i :: 0 <= i < |r| ==> r[i] == s[|s| - |r| + i]
  {
    if n < |s| then s[|s| - n..] else s
  }

  /** Number of occurrences of `x` in `s`. */
  function Count<T(==)>(s: seq<T>, x: T): nat {
    if s == [] then 0 else (if s[0] == x then 1 else 0) + Count(s[1..], x)
  }

  /**
   * `MutableList.remove(element)`: removes the first element equal to `x`,
   * and leaves the list as it is when there is none.
   */
  function RemoveFirst<T(==)>(s: seq<T>, x: T): seq<T> {
    if s == [] then []
    else if s[0] == x then s[1..]
    else [s[0]] + RemoveFirst(s[1..], x)
  }

  /** Index of the first element equal to `x`, when there is one. */
  function IndexOf<T(==)>(s: seq<T>, x: T): (r: Option<nat>)
    ensures r.Some? ==> r.value < |s| && s[r.value] == x
    ensures r.Some? ==> forall k :: 0 <= k < r.value ==> s[k] != x
    ensures r.None? ==> x !in s
  {
    if s == [] then None
    else if s[0] == x then Some(0)
    else match IndexOf(s[1..], x)
      case None => None
      case Some(i) => Some(i + 1)
  }

  /**
   * RemoveFirst cuts out exactly the first occurrence: everything before it
   * and everything after it stays in place.
   */
  lemma {:induction false} RemoveFirstCutsFirstOccurrence<T>(s: seq<T>, x: T)
    ensures IndexOf(s, x).None? ==> RemoveFirst(s, x) == s
    ensures IndexOf(s, x).Some? ==>
      var i := IndexOf(s, x).value; RemoveFirst(s, x) == s[..i] + s[i + 1..]
  {
    if s == [] {
    } else if s[0] == x {
    } else {
      RemoveFirstCutsFirstOccurrence(s[1..], x);
      match IndexOf(s[1..], x)
      case None =>
      case Some(j) =>
        assert s[1..][..j] + s[1..][j + 1..] == s[1..j + 1] + s[j + 2..];
        assert [s[0]] + (s[1..j + 1] + s[j + 2..]) == s[..j + 1] + s[j + 2..];
    }
  }

  /** Removing `x` lowers its count by one when present and changes no other count. */
  lemma {:induction false} RemoveFirstCount<T>(s: seq<T>, x: T, y: T)
    ensures Count(RemoveFirst(s, x), y) ==
      if x == y && x in s then Count(s, y) - 1 else Count(s, y)
    ensures |RemoveFirst(s, x)| == if x in s then |s| - 1 else |s|
  {
    if s == [] {
    } else if s[0] == x {
      CountPositive(s, x);
    } else {
      RemoveFirstCount(s[1..], x, y);
      assert x in s <==> x in s[1..];
      assert RemoveFirst(s, x)[1..] == RemoveFirst(s[1..], x);
    }
  }

  lemma {:induction false} CountPositive<T>(s: seq<T>, x: T)
    ensures x in s <==> Count(s, x) > 0
  {
    if s != [] {
      CountPositive(s[1..], x);
      assert x in s <==> s[0] == x || x in s[1..];
    }
  }

  /** Decimal text of an integer, as Kotlin's string templates print an `Int`. */
  function IntToString(n: int): (r: string)
    ensures |r| > 0
  {
    if n < 0 then "-" + NatToString(-n) else NatToString(n)
  }

  function NatToString(n: nat): (r: string)
    ensures |r| > 0
    ensures forall i :: 0 <= i < |r| ==> '0' <= r[i] <= '9'
    decreases n
  {
    if n < 10 then [DigitChar(n)] else NatToString(n / 10) + [DigitChar(n % 10)]
  }

  function DigitChar(d: nat): (c: char)
    requires d < 10
    ensures '0' <= c <= '9'
  {
    ('0' as int + d) as char
  }

  /** Appending an element that was absent and removing it again restores the list. */
  lemma {:induction false} RemoveFirstAfterAppend<T>(s: seq<T>, x: T)
    requires x !in s
    ensures RemoveFirst(s + [x], x) == s
  {
    if s != [] {
      assert (s + [x])[1..] == s[1..] + [x];
      RemoveFirstAfterAppend(s[1..], x);
    }
  }
}
