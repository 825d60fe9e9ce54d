/**
  The PHP builtins the modelled code leans on, as the core uses them: single-byte (ASCII)
  strings, lists as sequences. Each function states what PHP guarantees of the builtin,
  so that the properties of the callers can be proved from these contracts.
*/
module Php {

  /** PHP truthiness of a string: only "" and "0" are falsy. */
  predicate IsFalsy(s: string) {
    s == "" || s == "0"
  }

  predicate NoDuplicates<T(==)>(s: seq<T>) {
    forall i, j :: 0 <= i < j < |s| ==> s[i] != s[j]
  }

  predicate OccursAt(s: string, needle: string, i: int) {
    0 <= i <= |s| - |needle| && s[i..i + |needle|] == needle
  }

  /** `needle` occurs in `s` (the test behind `LIKE '%needle%'` for a needle without wildcards). */
  predicate Contains(s: string, needle: string) {
    exists i :: 0 <= i <= |s| - |needle| && OccursAt(s, needle, i)
  }

  predicate EndsWith(s: string, suffix: string) {
    |suffix| <= |s| && s[|s| - |suffix|..] == suffix
  }

  /** `array_filter` without a callback, on a list of strings: drops "" and "0", keeps the order. */
  function ArrayFilter(s: seq<string>): (r: seq<string>)
    ensures forall t :: t in r <==> t in s && !IsFalsy(t)
    ensures |r| <= |s|
  {
    if s == [] then []
    else if IsFalsy(s[0]) then ArrayFilter(s[1..])
    else [s[0]] + ArrayFilter(s[1..])
  }

  /** A list with no falsy value passes through `array_filter` unchanged. */
  lemma {:induction false} ArrayFilterKeepsTruthy(s: seq<string>)
    requires forall i :: 0 <= i < |s| ==> !IsFalsy(s[i])
    ensures ArrayFilter(s) == s
  {
    if s != [] {
      assert !IsFalsy(s[0]);
      ArrayFilterKeepsTruthy(s[1..]);
      assert [s[0]] + s[1..] == s;
    }
  }

  /** `array_unique`: drops repeated values, keeping one of each. */
  function ArrayUnique(s: seq<string>): (r: seq<string>)
    ensures NoDuplicates(r)
    ensures forall t :: t in r <==> t in s
    ensures |r| <= |s|
  {
    if s == [] then []
    else
      var front := ArrayUnique(s[..|s| - 1]);
      if s[|s| - 1] in front then front else front + [s[|s| - 1]]
  }

  /** A list that already has no duplicates passes through `array_unique` unchanged. */
  lemma {:induction false} ArrayUniqueKeepsDistinct(s: seq<string>)
    requires NoDuplicates(s)
    ensures ArrayUnique(s) == s
  {
    if s != [] {
      var front := s[..|s| - 1];
      assert NoDuplicates(front);
      ArrayUniqueKeepsDistinct(front);
      assert s[|s| - 1] !in front;
      assert front + [s[|s| - 1]] == s;
    }
  }

  /** `substr_count` with a one-character needle. */
  function CountChar(s: string, c: char): (n: nat)
    ensures n <= |s|
    ensures n == 0 <==> c !in s
  {
    if s == [] then 0
    else
      assert s == [s[0]] + s[1..];
      (if s[0] == c then 1 else 0) + CountChar(s[1..], c)
  }

  /** The count is the number of times `c` occurs: its multiplicity in the string's multiset. */
  lemma {:induction false} CountCharMultiplicity(s: string, c: char)
    ensures CountChar(s, c) == multiset(s)[c]
  {
    if s != [] {
      assert s == [s[0]] + s[1..];
      CountCharMultiplicity(s[1..], c);
    }
  }

  /** Exactly one occurrence: one position holds `c` and no other does. */
  lemma CountCharOne(s: string, c: char)
    ensures CountChar(s, c) == 1 <==>
      exists i :: 0 <= i < |s| && s[i] == c && c !in s[..i] && c !in s[i + 1..]
  {
    if CountChar(s, c) == 1 {
      var i := IndexOf(s, c);
      assert s == s[..i] + [c] + s[i + 1..];
      CountCharAppend(s[..i] + [c], s[i + 1..], c);
      CountCharAppend(s[..i], [c], c);
    }
    if exists i :: 0 <= i < |s| && s[i] == c && c !in s[..i] && c !in s[i + 1..] {
      var i :| 0 <= i < |s| && s[i] == c && c !in s[..i] && c !in s[i + 1..];
      assert s == s[..i] + [c] + s[i + 1..];
      CountCharAppend(s[..i] + [c], s[i + 1..], c);
      CountCharAppend(s[..i], [c], c);
    }
  }

  lemma {:induction false} CountCharAppend(a: string, b: string, c: char)
    ensures CountChar(a + b, c) == CountChar(a, c) + CountChar(b, c)
  {
    if a != [] {
      assert (a + b)[1..] == a[1..] + b;
      CountCharAppend(a[1..], b, c);
    } else {
      assert a + b == b;
    }
  }

  /** Position of the first `c` in `s`. */
  function IndexOf(s: string, c: char): (i: nat)
    requires c in s
    ensures i < |s| && s[i] == c && c !in s[..i]
  {
    if s[0] == c then 0
    else
      var j := IndexOf(s[1..], c);
      assert s[..j + 1] == [s[0]] + s[1..][..j];
      j + 1
  }

  /**
    `str_replace` with one search string: scans left to right, replaces non-overlapping
    occurrences and does not rescan the inserted text. An empty search leaves the subject as is.
  */
  function StrReplace(subject: string, search: string, replace: string): (r: string)
    ensures forall c :: c in r ==> c in subject || c in replace
    decreases |subject|
  {
    if search == [] || |subject| < |search| then subject
    else if subject[..|search|] == search then
      var rest := StrReplace(subject[|search|..], search, replace);
      assert forall c :: c in subject[|search|..] ==> c in subject;
      replace + rest
    else
      var rest := StrReplace(subject[1..], search, replace);
      assert forall c :: c in subject[1..] ==> c in subject;
      [subject[0]] + rest
  }

  /** A subject without any occurrence of the search string comes back unchanged. */
  lemma {:induction false} StrReplaceAbsent(subject: string, search: string, replace: string)
    requires !Contains(subject, search)
    ensures StrReplace(subject, search, replace) == subject
    decreases |subject|
  {
    if search != [] && |subject| >= |search| {
      assert !OccursAt(subject, search, 0);
      forall i | 0 <= i <= |subject[1..]| - |search|
        ensures !OccursAt(subject[1..], search, i)
      {
        assert !OccursAt(subject, search, i + 1);
        assert subject[1..][i..i + |search|] == subject[i + 1..i + 1 + |search|];
      }
      StrReplaceAbsent(subject[1..], search, replace);
      assert [subject[0]] + subject[1..] == subject;
    }
  }

  /**
    The first occurrence of the search string is replaced, and the scan goes on after it:
    `a` passes through, the occurrence becomes `replace`, and the rest is replaced in turn.
  */
  lemma {:induction false} StrReplaceAt(a: string, search: string, b: string, replace: string)
    requires search != []
    requires forall i :: 0 <= i < |a| ==> !OccursAt(a + search + b, search, i)
    ensures StrReplace(a + search + b, search, replace) == a + replace + StrReplace(b, search, replace)
    decreases |a|
  {
    var subject := a + search + b;
    if a == [] {
      assert subject == search + b;
      assert subject[..|search|] == search;
      assert subject[|search|..] == b;
    } else {
      assert !OccursAt(subject, search, 0);
      assert subject[..|search|] != search;
      var tail := a[1..] + search + b;
      assert subject[1..] == tail;
      forall i | 0 <= i < |a[1..]|
        ensures !OccursAt(tail, search, i)
      {
        assert !OccursAt(subject, search, i + 1);
        if i <= |tail| - |search| {
          assert tail[i..i + |search|] == subject[i + 1..i + 1 + |search|];
        }
      }
      StrReplaceAt(a[1..], search, b, replace);
      assert [a[0]] + (a[1..] + replace + StrReplace(b, search, replace)) == a + replace + StrReplace(b, search, replace);
    }
  }

  /** Replacing one character by one character maps the string position by position. */
  lemma {:induction false} StrReplaceOneChar(subject: string, a: char, b: char)
    ensures |StrReplace(subject, [a], [b])| == |subject|
    ensures forall i :: 0 <= i < |subject| ==>
      StrReplace(subject, [a], [b])[i] == (if subject[i] == a then b else subject[i])
    decreases |subject|
  {
    if subject != [] {
      StrReplaceOneChar(subject[1..], a, b);
      var rest := StrReplace(subject[1..], [a], [b]);
      if subject[..1] == [a] {
        assert StrReplace(subject, [a], [b]) == [b] + rest;
      } else {
        assert StrReplace(subject, [a], [b]) == [subject[0]] + rest;
      }
    }
  }

  /** The characters PHP's `trim` strips by default: space, tab, LF, CR, NUL and vertical tab. */
  predicate IsTrimChar(c: char) {
    c == ' ' || c == '\t' || c == '\n' || c == '\r' || c == '\0' || c as int == 0x0B
  }

  function TrimStart(s: string): (r: string)
    ensures |r| <= |s| && r == s[|s| - |r|..]
    ensures forall i :: 0 <= i < |s| - |r| ==> IsTrimChar(s[i])
    ensures r != [] ==> !IsTrimChar(r[0])
  {
    if s != [] && IsTrimChar(s[0]) then TrimStart(s[1..]) else s
  }

  function TrimEnd(s: string): (r: string)
    ensures |r| <= |s| && r == s[..|r|]
    ensures forall i :: |r| <= i < |s| ==> IsTrimChar(s[i])
    ensures r != [] ==> !IsTrimChar(r[|r| - 1])
  {
    if s != [] && IsTrimChar(s[|s| - 1]) then TrimEnd(s[..|s| - 1]) else s
  }

  /** `trim` with the default character list: the part of `s` between its leading and its
      trailing trim characters. */
  function Trim(s: string): (r: string)
    ensures |r| <= |s|
    ensures var a := |s| - |TrimStart(s)|;
      && a + |r| <= |s|
      && (forall i :: 0 <= i < |r| ==> r[i] == s[a + i])
      && (forall i :: 0 <= i < a ==> IsTrimChar(s[i]))
      && (forall i :: a + |r| <= i < |s| ==> IsTrimChar(s[i]))
    ensures r == [] <==> forall i :: 0 <= i < |s| ==> IsTrimChar(s[i])
    ensures r != [] ==> !IsTrimChar(r[0]) && !IsTrimChar(r[|r| - 1])
  {
    var t := TrimStart(s);
    var r := TrimEnd(t);
    TrimSpan(s, t, r);
    TrimEmpty(s, t, r);
    r
  }

  lemma {:induction false} TrimSpan(s: string, t: string, r: string)
    requires t == TrimStart(s) && r == TrimEnd(t)
    ensures |s| - |t| + |r| <= |s|
    ensures r == s[|s| - |t|..|s| - |t| + |r|]
    ensures forall i :: |s| - |t| + |r| <= i < |s| ==> IsTrimChar(s[i])
    ensures forall i :: 0 <= i < |s| - |t| ==> IsTrimChar(s[i])
    ensures r != [] ==> !IsTrimChar(r[0]) && !IsTrimChar(r[|r| - 1])
  {
    var a := |s| - |t|;
    assert t == s[a..];
    assert r == t[..|r|];
    assert s[a..][..|r|] == s[a..a + |r|];
    forall i | a + |r| <= i < |s| ensures IsTrimChar(s[i]) {
      assert s[i] == t[i - a];
    }
    if r != [] {
      assert r[0] == t[0];
    }
  }

  lemma {:induction false} TrimEmpty(s: string, t: string, r: string)
    requires t == TrimStart(s) && r == TrimEnd(t)
    ensures r == [] <==> forall i :: 0 <= i < |s| ==> IsTrimChar(s[i])
  {
    if r == [] {
      assert t == [];
    }
    if forall i :: 0 <= i < |s| ==> IsTrimChar(s[i]) {
      assert t == [];
    }
  }

  predicate IsUpper(c: char) {
    'A' <= c <= 'Z'
  }

  function LowerChar(c: char): (d: char)
    ensures !IsUpper(d)
  {
    if IsUpper(c) then (c as int + 32) as char else c
  }

  /** `mb_strtolower`, for ASCII text. */
  function ToLower(s: string): (r: string)
    ensures |r| == |s|
    ensures forall i :: 0 <= i < |s| ==> r[i] == LowerChar(s[i])
  {
    seq(|s|, i requires 0 <= i < |s| => LowerChar(s[i]))
  }

  predicate IsAsciiLetter(c: char) {
    'a' <= c <= 'z' || 'A' <= c <= 'Z'
  }

  /** `preg_replace('/[^[:alpha:]]/', '', s)`: what Symfony's `getAlpha` keeps of a parameter. */
  function KeepLetters(s: string): (r: string)
    ensures |r| <= |s|
    ensures forall c :: c in r ==> IsAsciiLetter(c) && c in s
    ensures (forall i :: 0 <= i < |s| ==> IsAsciiLetter(s[i])) ==> r == s
    ensures |s| == 1 ==> r == if IsAsciiLetter(s[0]) then s else []
  {
    if s == [] then []
    else
      var rest := KeepLetters(s[1..]);
      assert forall c :: c in s[1..] ==> c in s;
      assert [s[0]] + s[1..] == s;
      (if IsAsciiLetter(s[0]) then [s[0]] else []) + rest
  }

  /** The filter works character by character: it distributes over concatenation. */
  lemma {:induction false} KeepLettersConcat(a: string, b: string)
    ensures KeepLetters(a + b) == KeepLetters(a) + KeepLetters(b)
  {
    if a == [] {
      assert a + b == b;
    } else {
      assert (a + b)[1..] == a[1..] + b;
      KeepLettersConcat(a[1..], b);
    }
  }
}
