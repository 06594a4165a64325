/**
  * The JavaScript string operations the components rely on: `trim()` and the
  * regular-expression class `\s` (one whitespace set), `toLowerCase()`,
  * `includes()`, `startsWith()`, `Array.prototype.join` and `split` on one
  * separator character.
  */
module Text {

  /** ECMAScript WhiteSpace and LineTerminator: what `trim()` strips and `\s` matches. */
  predicate IsSpace(c: char) {
    || '\t' <= c <= '\r'              // tab, line feed, vertical tab, form feed, carriage return
    || c == ' ' || c == '\U{00A0}' || c == '\U{1680}'
    || '\U{2000}' <= c <= '\U{200A}'
    || c == '\U{2028}' || c == '\U{2029}' || c == '\U{202F}' || c == '\U{205F}'
    || c == '\U{3000}' || c == '\U{FEFF}'
  }

  predicate AllSpace(s: string) {
    forall k :: 0 <= k < |s| ==> IsSpace(s[k])
  }

  /** Drops leading whitespace. */
  function TrimStart(s: string): string {
    if s != [] && IsSpace(s[0]) then TrimStart(s[1..]) else s
  }

  /** Drops trailing whitespace. */
  function TrimEnd(s: string): string {
    if s != [] && IsSpace(s[|s| - 1]) then TrimEnd(s[..|s| - 1]) else s
  }

  /** `String.prototype.trim`. */
  function Trim(s: string): string {
    TrimEnd(TrimStart(s))
  }

  /** `TrimStart` removes a prefix made only of whitespace, and what it keeps does not start with whitespace. */
  lemma {:induction false} TrimStartRemovesSpace(s: string)
    ensures |TrimStart(s)| <= |s| && TrimStart(s) == s[|s| - |TrimStart(s)|..]
    ensures TrimStart(s) == [] || !IsSpace(TrimStart(s)[0])
    ensures AllSpace(s[..|s| - |TrimStart(s)|])
  {
    if s != [] && IsSpace(s[0]) {
      var r := TrimStart(s[1..]);
      TrimStartRemovesSpace(s[1..]);
      assert s[..|s| - |r|] == [s[0]] + s[1..][..|s| - 1 - |r|];
    }
  }

  /** `TrimEnd` removes a suffix made only of whitespace, and what it keeps does not end with whitespace. */
  lemma {:induction false} TrimEndRemovesSpace(s: string)
    ensures |TrimEnd(s)| <= |s| && TrimEnd(s) == s[..|TrimEnd(s)|]
    ensures TrimEnd(s) == [] || !IsSpace(TrimEnd(s)[|TrimEnd(s)| - 1])
    ensures AllSpace(s[|TrimEnd(s)|..])
  {
    if s != [] && IsSpace(s[|s| - 1]) {
      var r := TrimEnd(s[..|s| - 1]);
      TrimEndRemovesSpace(s[..|s| - 1]);
      assert s[|r|..] == s[..|s| - 1][|r|..] + [s[|s| - 1]];
    }
  }

  /** A string trims to the empty string exactly when every character of it is whitespace. */
  lemma TrimEmptyIff(s: string)
    ensures |Trim(s)| == 0 <==> AllSpace(s)
  {
    var t := TrimStart(s);
    TrimStartRemovesSpace(s);
    TrimEndRemovesSpace(t);
    if !AllSpace(s) {
      var k :| 0 <= k < |s| && !IsSpace(s[k]);
      assert !AllSpace(s[..|s|]) by {
        assert s[..|s|][k] == s[k];
      }
      assert !AllSpace(t[0..]) by {
        assert t[0..][0] == t[0];
      }
    }
  }

  /** `toLowerCase()` on one character, for the ASCII and Latin-1 capital letters. */
  function LowerChar(c: char): char {
    if 'A' <= c <= 'Z' || ('\U{00C0}' <= c <= '\U{00DE}' && c != '\U{00D7}') then
      (c as int + 32) as char
    else c
  }

  /** `String.prototype.toLowerCase`, character by character. */
  function ToLower(s: string): (r: string)
    ensures |r| == |s|
  {
    if s == [] then [] else [LowerChar(s[0])] + ToLower(s[1..])
  }

  /** `t` occurs in `s` starting at position `k`. */
  predicate OccursAt(s: string, t: string, k: int) {
    0 <= k && k + |t| <= |s| && s[k..k + |t|] == t
  }

  /** `String.prototype.includes`: `t` occurs somewhere in `s`. */
  predicate Contains(s: string, t: string) {
    exists k :: 0 <= k <= |s| && OccursAt(s, t, k)
  }

  /** Every string contains the empty string. */
  lemma ContainsEmpty(s: string)
    ensures Contains(s, "")
  {
    assert OccursAt(s, "", 0);
  }

  /** `String.prototype.startsWith`. */
  predicate StartsWith(s: string, prefix: string) {
    |prefix| <= |s| && s[..|prefix|] == prefix
  }

  /** A prefix of a prefix is a prefix. */
  lemma StartsWithTrans(s: string, m: string, prefix: string)
    requires StartsWith(s, m) && StartsWith(m, prefix)
    ensures StartsWith(s, prefix)
  {
    assert s[..|prefix|] == m[..|prefix|];
  }

  /** Appending keeps every prefix. */
  lemma StartsWithAppend(s: string, prefix: string, tail: string)
    requires StartsWith(s, prefix)
    ensures StartsWith(s + tail, prefix)
  {
    assert (s + tail)[..|prefix|] == s[..|prefix|];
  }

  /** An occurrence inside a prefix is an occurrence in the whole string. */
  lemma ContainsInPrefix(s: string, prefix: string, t: string)
    requires StartsWith(s, prefix) && Contains(prefix, t)
    ensures Contains(s, t)
  {
    var k :| 0 <= k <= |prefix| && OccursAt(prefix, t, k);
    assert s[k..k + |t|] == prefix[k..k + |t|];
    assert OccursAt(s, t, k);
  }

  /** A string contains each of its tails. */
  lemma ContainsTail(s: string, t: string)
    ensures Contains(s + t, t)
  {
    assert (s + t)[|s|..|s| + |t|] == t;
    assert OccursAt(s + t, t, |s|);
  }

  /** A string contains whatever its tail contains. */
  lemma ContainsInTail(s: string, tail: string, t: string)
    requires Contains(tail, t)
    ensures Contains(s + tail, t)
  {
    var k :| 0 <= k <= |tail| && OccursAt(tail, t, k);
    assert (s + tail)[|s| + k..|s| + k + |t|] == tail[k..k + |t|];
    assert OccursAt(s + tail, t, |s| + k);
  }

  /** `Array.prototype.join(sep)` on a list of strings. */
  function Join(parts: seq<string>, sep: string): string
  {
    if |parts| == 0 then ""
    else if |parts| == 1 then parts[0]
    else parts[0] + sep + Join(parts[1..], sep)
  }

  /** Every part of a joined list occurs in the joined text. */
  lemma {:induction false} JoinContainsPart(parts: seq<string>, sep: string, i: int)
    requires 0 <= i < |parts|
    ensures Contains(Join(parts, sep), parts[i])
  {
    if |parts| == 1 {
      ContainsTail("", parts[0]);
      assert "" + parts[0] == parts[0];
    } else if i == 0 {
      assert StartsWith(parts[0] + sep + Join(parts[1..], sep), parts[0]) by {
        assert (parts[0] + sep + Join(parts[1..], sep))[..|parts[0]|] == parts[0];
      }
      ContainsTail("", parts[0]);
      assert "" + parts[0] == parts[0];
      ContainsInPrefix(Join(parts, sep), parts[0], parts[0]);
    } else {
      JoinContainsPart(parts[1..], sep, i - 1);
      ContainsInTail(parts[0] + sep, Join(parts[1..], sep), parts[i]);
    }
  }

  /** The number of occurrences of `c` in `s`. */
  function Count(s: string, c: char): nat
  {
    if s == [] then 0 else (if s[0] == c then 1 else 0) + Count(s[1..], c)
  }

  /** The occurrences of `c` in all of `parts`. */
  function SumCount(parts: seq<string>, c: char): nat
  {
    if parts == [] then 0 else Count(parts[0], c) + SumCount(parts[1..], c)
  }

  /** `s.split(c)`: the pieces between occurrences of `c`; there is always one more piece than separators. */
  function Split(s: string, c: char): (r: seq<string>)
    ensures |r| == Count(s, c) + 1
  {
    if s == [] then [""]
    else
      var rest := Split(s[1..], c);
      if s[0] == c then [""] + rest
      else [[s[0]] + rest[0]] + rest[1..]
  }

  lemma {:induction false} CountZeroIff(s: string, c: char)
    ensures Count(s, c) == 0 <==> c !in s
  {
    if s != [] {
      CountZeroIff(s[1..], c);
      assert s == [s[0]] + s[1..];
    }
  }

  lemma {:induction false} CountAppend(a: string, b: string, c: char)
    ensures Count(a + b, c) == Count(a, c) + Count(b, c)
  {
    if a == [] {
      assert a + b == b;
    } else {
      assert (a + b)[1..] == a[1..] + b;
      CountAppend(a[1..], b, c);
    }
  }

  lemma {:induction false} SumCountZeroIff(parts: seq<string>, c: char)
    ensures SumCount(parts, c) == 0 <==> forall k :: 0 <= k < |parts| ==> c !in parts[k]
  {
    if parts != [] {
      CountZeroIff(parts[0], c);
      SumCountZeroIff(parts[1..], c);
      assert forall k :: 1 <= k < |parts| ==> parts[k] == parts[1..][k - 1];
    }
  }

  /** Joining with the one-character separator `sep` adds `|parts| - 1` occurrences of `sep` and none of any other character. */
  lemma {:induction false} CountJoin(parts: seq<string>, sep: char, c: char)
    requires |parts| > 0
    ensures Count(Join(parts, [sep]), c) == (if sep == c then |parts| - 1 else 0) + SumCount(parts, c)
  {
    if |parts| == 1 {
      assert parts[1..] == [];
    } else {
      CountJoin(parts[1..], sep, c);
      CountAppend(parts[0] + [sep], Join(parts[1..], [sep]), c);
      CountAppend(parts[0], [sep], c);
      assert Count([sep], c) == if sep == c then 1 else 0 by {
        assert [sep][1..] == [];
      }
    }
  }

  lemma {:induction false} SplitNoSeparator(a: string, c: char)
    requires c !in a
    ensures Split(a, c) == [a]
  {
    if a != [] {
      SplitNoSeparator(a[1..], c);
      assert a == [a[0]] + a[1..];
    }
  }

  lemma {:induction false} SplitAtFirstSeparator(a: string, b: string, c: char)
    requires c !in a
    ensures Split(a + [c] + b, c) == [a] + Split(b, c)
  {
    if a == [] {
      assert (a + [c] + b)[1..] == b;
    } else {
      assert (a + [c] + b)[1..] == a[1..] + [c] + b;
      SplitAtFirstSeparator(a[1..], b, c);
      assert [a[0]] + a[1..] == a;
    }
  }

  /** `split(c)` undoes `join(c)` when no part contains the separator. */
  lemma {:induction false} SplitJoin(parts: seq<string>, c: char)
    requires |parts| > 0
    requires forall k :: 0 <= k < |parts| ==> c !in parts[k]
    ensures Split(Join(parts, [c]), c) == parts
  {
    if |parts| == 1 {
      SplitNoSeparator(parts[0], c);
    } else {
      SplitJoin(parts[1..], c);
      SplitAtFirstSeparator(parts[0], Join(parts[1..], [c]), c);
      assert parts == [parts[0]] + parts[1..];
    }
  }

  /** Splitting a joined text gives back exactly as many pieces as were joined if and only if no part contains the separator. */
  lemma SplitJoinCountIff(parts: seq<string>, c: char)
    requires |parts| > 0
    ensures |Split(Join(parts, [c]), c)| == |parts| <==> forall k :: 0 <= k < |parts| ==> c !in parts[k]
  {
    CountJoin(parts, c, c);
    SumCountZeroIff(parts, c);
  }

  /** A joined text contains a character other than the separator only if some part does. */
  lemma JoinFree(parts: seq<string>, sep: char, c: char)
    requires |parts| > 0 && sep != c
    ensures c !in Join(parts, [sep]) <==> forall k :: 0 <= k < |parts| ==> c !in parts[k]
  {
    CountJoin(parts, sep, c);
    CountZeroIff(Join(parts, [sep]), c);
    SumCountZeroIff(parts, c);
  }
}
