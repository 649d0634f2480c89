/** The string operations of JavaScript that the recruiting screens and the
    server routes rely on, over `seq<char>`: `trim`, `startsWith`,
    `endsWith`, `includes`, ASCII `toLowerCase`, `split` on one character,
    `join`, `substring(0, n)`, `replace(/\s/g, c)` and the ordering of `<`. */
module Text {

  /** The ASCII characters that `trim` strips and that `\s` matches. */
  predicate IsSpace(c: char)
  {
    c == ' ' || c == '\t' || c == '\n' || c == '\r' || c == '\U{000B}' || c == '\U{000C}'
  }

  predicate AllSpace(s: string)
  {
    forall i :: 0 <= i < |s| ==> IsSpace(s[i])
  }

  /** No white space at either end. */
  predicate IsTrimmed(s: string)
  {
    s == [] || (!IsSpace(s[0]) && !IsSpace(s[|s| - 1]))
  }

  function TrimStart(s: string): (r: string)
    ensures |r| <= |s| && r == s[|s| - |r|..]
    ensures AllSpace(s[..|s| - |r|])
    ensures r == [] || !IsSpace(r[0])
  {
    if s != [] && IsSpace(s[0]) then TrimStart(s[1..]) else s
  }

  function TrimEnd(s: string): (r: string)
    ensures |r| <= |s| && r == s[..|r|]
    ensures AllSpace(s[|r|..])
    ensures r == [] || !IsSpace(r[|r| - 1])
  {
    if s != [] && IsSpace(s[|s| - 1]) then TrimEnd(s[..|s| - 1]) else s
  }

  /** `String.prototype.trim`: the result has no white space at either end
      and is what is left of `s` once white space is cut from both ends. */
  function Trim(s: string): (r: string)
    ensures IsTrimmed(r)
    ensures |r| <= |s|
  {
    var t := TrimStart(s);
    var r := TrimEnd(t);
    assert r != [] ==> r[0] == t[0];
    assert t != [] ==> r != [];
    r
  }

  /** Trimming only removes characters: none is added. */
  lemma TrimKeepsOut(s: string, c: char)
    requires c !in s
    ensures c !in Trim(s)
  {
    var t := TrimStart(s);
    assert forall x :: x in t ==> x in s;
    assert forall x :: x in TrimEnd(t) ==> x in t;
  }

  /** Trimming a string that is already trimmed changes nothing. */
  lemma TrimTrimmed(s: string)
    requires IsTrimmed(s)
    ensures Trim(s) == s
  {
  }

  lemma {:induction false} TrimStartAfterSpaces(p: string, y: string)
    requires AllSpace(p) && (y == [] || !IsSpace(y[0]))
    ensures TrimStart(p + y) == y
  {
    if p == [] {
      assert p + y == y;
    } else {
      assert (p + y)[1..] == p[1..] + y;
      TrimStartAfterSpaces(p[1..], y);
    }
  }

  lemma {:induction false} TrimEndBeforeSpaces(y: string, q: string)
    requires AllSpace(q) && (y == [] || !IsSpace(y[|y| - 1]))
    ensures TrimEnd(y + q) == y
  {
    if q == [] {
      assert y + q == y;
    } else {
      assert (y + q)[..|y + q| - 1] == y + q[..|q| - 1];
      TrimEndBeforeSpaces(y, q[..|q| - 1]);
    }
  }

  /** White space around a trimmed string is all that trimming removes. */
  lemma TrimAround(p: string, x: string, q: string)
    requires AllSpace(p) && IsTrimmed(x) && AllSpace(q)
    ensures Trim(p + x + q) == x
  {
    if x == [] {
      assert p + x + q == (p + q) + [];
      TrimStartAfterSpaces(p + q, []);
    } else {
      assert p + x + q == p + (x + q);
      TrimStartAfterSpaces(p, x + q);
      TrimEndBeforeSpaces(x, q);
    }
  }

  predicate StartsWith(s: string, prefix: string)
  {
    |prefix| <= |s| && s[..|prefix|] == prefix
  }

  /** A string that starts with `x + y` starts with `x`. */
  lemma StartsWithShorter(s: string, x: string, y: string)
    ensures StartsWith(s, x + y) ==> StartsWith(s, x)
  {
    if StartsWith(s, x + y) {
      assert s[..|x|] == (x + y)[..|x|];
    }
  }

  /** Whether `s + t` starts with `x`, for `x` no longer than `s`, depends on
      `s` alone. */
  lemma StartsWithAppend(s: string, t: string, x: string)
    requires |x| <= |s|
    ensures StartsWith(s + t, x) <==> StartsWith(s, x)
  {
    assert (s + t)[..|x|] == s[..|x|];
  }

  /** A common first part does not change whether one string starts with
      another. */
  lemma StartsWithSamePrefix(p: string, x: string, y: string)
    ensures StartsWith(p + x, p + y) <==> StartsWith(x, y)
  {
    if |y| <= |x| {
      assert (p + x)[..|p + y|] == p + x[..|y|];
      if (p + x)[..|p + y|] == p + y {
        assert x[..|y|] == (p + x[..|y|])[|p|..];
      }
    }
  }

  predicate EndsWith(s: string, suffix: string)
  {
    |suffix| <= |s| && s[|s| - |suffix|..] == suffix
  }

  /** `t` occurs in `s` starting at position `i`. */
  predicate OccursAt(s: string, t: string, i: nat)
  {
    i + |t| <= |s| && s[i..i + |t|] == t
  }

  /** `String.prototype.includes`: `t` occurs in `s` at some position. */
  predicate Contains(s: string, t: string)
  {
    exists i: nat :: i <= |s| && OccursAt(s, t, i)
  }

  /** Every string contains the empty string (so an empty search matches). */
  lemma ContainsEmpty(s: string)
    ensures Contains(s, "")
  {
    assert OccursAt(s, "", 0);
  }

  /** A string occurs in any string built around it. */
  lemma ContainsInfix(a: string, t: string, b: string)
    ensures Contains(a + t + b, t)
  {
    var s := a + t + b;
    assert s[|a|..|a| + |t|] == t;
    assert OccursAt(s, t, |a|);
  }

  /** Every character of a text that occurs in `s` is a character of `s`. */
  lemma ContainsChar(s: string, t: string, j: nat)
    requires Contains(s, t) && j < |t|
    ensures t[j] in s
  {
    var i: nat :| i <= |s| && OccursAt(s, t, i);
    assert s[i..i + |t|][j] == t[j];
  }

  /** A text with a character `s` lacks does not occur in `s`. */
  lemma NotContainedByChar(s: string, t: string, j: nat)
    requires j < |t| && t[j] !in s
    ensures !Contains(s, t)
  {
    if Contains(s, t) {
      ContainsChar(s, t, j);
    }
  }

  /** Every pair of neighbouring characters of a text that occurs in `s`
      are neighbours in `s`. */
  lemma ContainsPair(s: string, t: string, j: nat)
    requires Contains(s, t) && j + 1 < |t|
    ensures exists k :: 0 <= k < |s| - 1 && s[k] == t[j] && s[k + 1] == t[j + 1]
  {
    var i: nat :| i <= |s| && OccursAt(s, t, i);
    assert s[i..i + |t|][j] == t[j];
    assert s[i..i + |t|][j + 1] == t[j + 1];
    assert s[i + j] == t[j] && s[i + j + 1] == t[j + 1];
  }

  /** A string contains itself. */
  lemma ContainsSelf(s: string)
    ensures Contains(s, s)
  {
    assert s[0..|s|] == s;
    assert OccursAt(s, s, 0);
  }

  /** An occurrence inside a suffix is an occurrence in the whole string. */
  lemma ContainsSuffix(s: string, k: nat, t: string)
    requires k <= |s| && Contains(s[k..], t)
    ensures Contains(s, t)
  {
    var i: nat :| i <= |s[k..]| && OccursAt(s[k..], t, i);
    assert s[k + i..k + i + |t|] == t;
    assert OccursAt(s, t, k + i);
  }

  function LowerChar(c: char): char
  {
    if 'A' <= c <= 'Z' then (c as int - 'A' as int + 'a' as int) as char else c
  }

  /** `toLowerCase`, restricted to the ASCII letters. */
  function Lower(s: string): (r: string)
    ensures |r| == |s|
  {
    seq(|s|, i requires 0 <= i < |s| => LowerChar(s[i]))
  }

  /** Lower-casing twice is lower-casing once. */
  lemma LowerIdempotent(s: string)
    ensures Lower(Lower(s)) == Lower(s)
  {
  }

  /** `String.prototype.split(sep)` for a one-character separator. There is
      always at least one part, and no part contains the separator. */
  function Split(s: string, sep: char): (parts: seq<string>)
    ensures |parts| >= 1
    ensures forall k :: 0 <= k < |parts| ==> sep !in parts[k]
  {
    if s == [] then [""]
    else
      var rest := Split(s[1..], sep);
      if s[0] == sep then [""] + rest else [[s[0]] + rest[0]] + rest[1..]
  }

  /** `Array.prototype.join(sep)`. */
  function Join(parts: seq<string>, sep: string): string
  {
    if parts == [] then ""
    else if |parts| == 1 then parts[0]
    else parts[0] + sep + Join(parts[1..], sep)
  }

  /** Joining the parts of a split with the separator gives the string back. */
  lemma {:induction false} JoinSplit(s: string, sep: char)
    ensures Join(Split(s, sep), [sep]) == s
  {
    if s != [] {
      var rest := Split(s[1..], sep);
      JoinSplit(s[1..], sep);
      if s[0] == sep {
        assert Split(s, sep) == [""] + rest;
        assert ([""] + rest)[1..] == rest;
        assert s == [sep] + s[1..];
      } else if |rest| == 1 {
        assert Split(s, sep) == [[s[0]] + rest[0]];
        assert s == [s[0]] + s[1..];
      } else {
        var parts := [[s[0]] + rest[0]] + rest[1..];
        assert Split(s, sep) == parts;
        assert parts[1..] == rest[1..];
        assert Join(rest, [sep]) == rest[0] + [sep] + Join(rest[1..], [sep]);
        assert s == [s[0]] + s[1..];
      }
    }
  }

  /** Text without the separator is a single part. */
  lemma {:induction false} SplitNoSeparator(s: string, sep: char)
    requires sep !in s
    ensures Split(s, sep) == [s]
  {
    if s != [] {
      SplitNoSeparator(s[1..], sep);
      assert s == [s[0]] + s[1..];
    }
  }

  /** A separator after separator-free text `a` closes the part `a`. */
  lemma {:induction false} SplitAfterSeparator(a: string, b: string, sep: char)
    requires sep !in a
    ensures Split(a + [sep] + b, sep) == [a] + Split(b, sep)
  {
    if a == [] {
      assert a + [sep] + b == [sep] + b;
      assert ([sep] + b)[1..] == b;
    } else {
      assert (a + [sep] + b)[1..] == a[1..] + [sep] + b;
      SplitAfterSeparator(a[1..], b, sep);
      assert a == [a[0]] + a[1..];
    }
  }

  /** A separator splits the text around it: the parts before it, then
      the parts after it. */
  lemma {:induction false} SplitAround(a: string, b: string, sep: char)
    ensures Split(a + [sep] + b, sep) == Split(a, sep) + Split(b, sep)
  {
    if a == [] {
      assert a + [sep] + b == [sep] + b;
      assert ([sep] + b)[1..] == b;
    } else {
      assert (a + [sep] + b)[1..] == a[1..] + [sep] + b;
      SplitAround(a[1..], b, sep);
    }
  }

  /** Splitting the join of separator-free parts gives the parts back. */
  lemma {:induction false} SplitJoin(parts: seq<string>, sep: char)
    requires |parts| >= 1 && forall k :: 0 <= k < |parts| ==> sep !in parts[k]
    ensures Split(Join(parts, [sep]), sep) == parts
  {
    if |parts| == 1 {
      SplitNoSeparator(parts[0], sep);
    } else {
      SplitJoin(parts[1..], sep);
      SplitAfterSeparator(parts[0], Join(parts[1..], [sep]), sep);
      assert [parts[0]] + parts[1..] == parts;
    }
  }

  /** Joining parts and a separator that all lack a character gives text
      that lacks it too. */
  lemma {:induction false} JoinKeepsOut(parts: seq<string>, sep: string, c: char)
    requires forall k :: 0 <= k < |parts| ==> c !in parts[k]
    requires c !in sep
    ensures c !in Join(parts, sep)
  {
    if |parts| > 1 {
      JoinKeepsOut(parts[1..], sep, c);
    }
  }

  /** `substring(0, n)`: the first `n` characters, or all of a shorter string. */
  function Prefix(s: string, n: nat): (r: string)
    ensures |r| == if |s| < n then |s| else n
    ensures StartsWith(s, r)
  {
    if |s| <= n then s else s[..n]
  }

  /** `replace(/\s/g, c)`: every white-space character becomes `c`. */
  function ReplaceSpaces(s: string, c: char): (r: string)
    ensures |r| == |s|
    ensures forall i :: 0 <= i < |s| ==> !IsSpace(s[i]) ==> r[i] == s[i]
    ensures forall i :: 0 <= i < |s| ==> IsSpace(s[i]) ==> r[i] == c
  {
    seq(|s|, i requires 0 <= i < |s| => if IsSpace(s[i]) then c else s[i])
  }

  /** The ordering of JavaScript's `<` on strings: code unit by code unit. */
  predicate Less(a: string, b: string)
  {
    if a == [] then b != []
    else if b == [] then false
    else if a[0] == b[0] then Less(a[1..], b[1..])
    else a[0] < b[0]
  }

  predicate LessOrEqual(a: string, b: string)
  {
    !Less(b, a)
  }

  /** Any two strings are ordered one way or the other. */
  lemma {:induction false} LessTotal(a: string, b: string)
    ensures a == b || Less(a, b) || Less(b, a)
  {
    if a != [] && b != [] && a[0] == b[0] {
      LessTotal(a[1..], b[1..]);
      if a[1..] == b[1..] {
        assert a == [a[0]] + a[1..] && b == [b[0]] + b[1..];
      }
    }
  }

  lemma {:induction false} LessIrreflexive(a: string)
    ensures !Less(a, a)
  {
    if a != [] {
      LessIrreflexive(a[1..]);
    }
  }

  lemma {:induction false} LessTransitive(a: string, b: string, c: string)
    requires Less(a, b) && Less(b, c)
    ensures Less(a, c)
  {
    if a != [] && b != [] && c != [] && a[0] == b[0] && b[0] == c[0] {
      LessTransitive(a[1..], b[1..], c[1..]);
    }
  }

  lemma {:induction false} LessAsymmetric(a: string, b: string)
    requires Less(a, b)
    ensures !Less(b, a)
  {
    if a != [] && b != [] && a[0] == b[0] {
      LessAsymmetric(a[1..], b[1..]);
    }
  }
}
