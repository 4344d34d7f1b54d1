/** Option/Result wrappers and the handful of Python `str` operations the
    checker relies on, written over `seq<char>`. */
module Strings {

  datatype Option<+T> = None | Some(value: T)

  datatype Result<+T, +E> = Success(value: T) | Failure(error: E)

  /** Python's `pat in s` for strings. */
  predicate Contains(s: string, pat: string)
    decreases |s|
  {
    pat <= s || (s != [] && Contains(s[1..], pat))
  }

  /** `pat` occurs in `s` starting at index `i`. */
  predicate OccursAt(s: string, pat: string, i: int)
  {
    0 <= i && i + |pat| <= |s| && s[i..i + |pat|] == pat
  }

  lemma {:induction false} ContainsIffOccurs(s: string, pat: string)
    ensures Contains(s, pat) <==> exists i :: OccursAt(s, pat, i)
    decreases |s|
  {
    if Contains(s, pat) {
      if pat <= s {
        assert OccursAt(s, pat, 0);
      } else {
        ContainsIffOccurs(s[1..], pat);
        var i :| OccursAt(s[1..], pat, i);
        assert s[i + 1..i + 1 + |pat|] == s[1..][i..i + |pat|];
        assert OccursAt(s, pat, i + 1);
      }
    }
    if exists i :: OccursAt(s, pat, i) {
      var i :| OccursAt(s, pat, i);
      if i == 0 {
        assert pat <= s;
      } else {
        assert s[1..][i - 1..i - 1 + |pat|] == s[i..i + |pat|];
        assert OccursAt(s[1..], pat, i - 1);
        ContainsIffOccurs(s[1..], pat);
      }
    }
  }

  /** A match of `pat` in `a + m + b` that cannot use any character of `m`
      lies wholly in `a` or wholly in `b`. */
  lemma ContainsAcrossSeparator(a: string, m: string, b: string, pat: string)
    requires |pat| > 0 && |m| > 0
    requires forall k :: 0 <= k < |m| ==> m[k] !in pat
    ensures Contains(a + m + b, pat) <==> Contains(a, pat) || Contains(b, pat)
  {
    ContainsSplits(a, m, b, pat);
    assert a + m + b == a + (m + b);
    ContainsInPrefix(a, m + b, pat);
    ContainsInSuffix(a + m, b, pat);
  }

  lemma ContainsSplits(a: string, m: string, b: string, pat: string)
    requires |pat| > 0 && |m| > 0
    requires forall k :: 0 <= k < |m| ==> m[k] !in pat
    ensures Contains(a + m + b, pat) ==> Contains(a, pat) || Contains(b, pat)
  {
    var s := a + m + b;
    ContainsIffOccurs(s, pat);
    if Contains(s, pat) {
      var i :| OccursAt(s, pat, i);
      OccurrenceSplits(a, m, b, pat, i);
    }
  }

  /** A match in `a` is one in `a + rest`. */
  lemma ContainsInPrefix(a: string, rest: string, pat: string)
    ensures Contains(a, pat) ==> Contains(a + rest, pat)
  {
    ContainsIffOccurs(a, pat);
    ContainsIffOccurs(a + rest, pat);
    if Contains(a, pat) {
      var i :| OccursAt(a, pat, i);
      assert (a + rest)[i..i + |pat|] == a[i..i + |pat|];
      assert OccursAt(a + rest, pat, i);
    }
  }

  /** A match in `b` is one in `pre + b`. */
  lemma ContainsInSuffix(pre: string, b: string, pat: string)
    ensures Contains(b, pat) ==> Contains(pre + b, pat)
  {
    ContainsIffOccurs(b, pat);
    ContainsIffOccurs(pre + b, pat);
    if Contains(b, pat) {
      var i :| OccursAt(b, pat, i);
      assert (pre + b)[|pre| + i..|pre| + i + |pat|] == b[i..i + |pat|];
      assert OccursAt(pre + b, pat, |pre| + i);
    }
  }

  lemma OccurrenceSplits(a: string, m: string, b: string, pat: string, i: int)
    requires |pat| > 0 && |m| > 0
    requires forall k :: 0 <= k < |m| ==> m[k] !in pat
    requires OccursAt(a + m + b, pat, i)
    ensures Contains(a, pat) || Contains(b, pat)
  {
    var s := a + m + b;
    if i + |pat| <= |a| {
      assert a[i..i + |pat|] == s[i..i + |pat|];
      assert OccursAt(a, pat, i);
      ContainsIffOccurs(a, pat);
    } else if i >= |a| + |m| {
      assert b[i - |a| - |m|..i - |a| - |m| + |pat|] == s[i..i + |pat|];
      assert OccursAt(b, pat, i - |a| - |m|);
      ContainsIffOccurs(b, pat);
    } else {
      // the match would have to use a separator character, which `pat` lacks
      var k := if i >= |a| then i else |a|;
      MatchedCharInPattern(s, pat, i, k);
      assert false;
    }
  }

  lemma MatchedCharInPattern(s: string, pat: string, i: int, k: int)
    requires OccursAt(s, pat, i) && i <= k < i + |pat|
    ensures s[k] in pat
  {
    assert s[k] == s[i..i + |pat|][k - i];
  }

  /** Index of the first occurrence of `pat` in `s` (Python's `str.find`). */
  function IndexOf(s: string, pat: string): (r: Option<nat>)
    ensures r.Some? ==> OccursAt(s, pat, r.value)
    ensures r.Some? ==> forall j :: 0 <= j < r.value ==> !OccursAt(s, pat, j)
    ensures r.None? ==> forall j :: !OccursAt(s, pat, j)
    decreases |s|
  {
    if pat <= s then Some(0)
    else if |s| <= |pat| then
      assert s[0..|s|] == s;
      None
    else
      OccursInTail(s, pat);
      match IndexOf(s[1..], pat)
      case None => None
      case Some(i) => Some(i + 1)
  }

  /** Past the first character, an occurrence in `s` is one in `s[1..]`. */
  lemma OccursInTail(s: string, pat: string)
    requires s != [] && !(pat <= s)
    ensures !OccursAt(s, pat, 0)
    ensures forall j :: 0 < j ==> (OccursAt(s, pat, j) <==> OccursAt(s[1..], pat, j - 1))
  {
    forall j | 0 < j
      ensures OccursAt(s, pat, j) <==> OccursAt(s[1..], pat, j - 1)
    {
      if j + |pat| <= |s| {
        assert s[1..][j - 1..j - 1 + |pat|] == s[j..j + |pat|];
      }
    }
  }

  /** Python's `s.split(sep)` for a one-character separator: the pieces
      between separators, always at least one. */
  function Split(s: string, sep: char): (parts: seq<string>)
    ensures |parts| >= 1
    ensures forall k :: 0 <= k < |parts| ==> sep !in parts[k]
    decreases |s|
  {
    if s == [] then [""]
    else
      var rest := Split(s[1..], sep);
      if s[0] == sep then [""] + rest
      else [[s[0]] + rest[0]] + rest[1..]
  }

  /** Python's `sep.join(parts)`. */
  function Join(parts: seq<string>, sep: string): string
  {
    if |parts| == 0 then ""
    else if |parts| == 1 then parts[0]
    else parts[0] + sep + Join(parts[1..], sep)
  }

  lemma JoinCons(x: string, rest: seq<string>, sep: string)
    requires |rest| >= 1
    ensures Join([x] + rest, sep) == x + sep + Join(rest, sep)
  {
    assert ([x] + rest)[1..] == rest;
  }

  /** Joining the pieces of a split with the same separator gives the
      original string back. */
  lemma {:induction false} JoinSplit(s: string, sep: char)
    ensures Join(Split(s, sep), [sep]) == s
    decreases |s|
  {
    if s != [] {
      var rest := Split(s[1..], sep);
      JoinSplit(s[1..], sep);
      if s[0] == sep {
        JoinCons("", rest, [sep]);
      } else {
        var head := [s[0]] + rest[0];
        if |rest| == 1 {
          assert Split(s, sep) == [head];
        } else {
          JoinCons(head, rest[1..], [sep]);
          JoinCons(rest[0], rest[1..], [sep]);
          assert [rest[0]] + rest[1..] == rest;
        }
      }
    }
  }

  /** Python's `c * n` for a one-character string. */
  function Repeat(c: char, n: nat): (r: string)
    ensures |r| == n && forall k :: 0 <= k < n ==> r[k] == c
  {
    seq(n, _ => c)
  }

  /** `n` separators and nothing else split into `n + 1` empty pieces. */
  lemma {:induction false} SplitRepeat(c: char, n: nat)
    ensures Split(Repeat(c, n), c) == seq(n + 1, _ => "")
  {
    if n > 0 {
      assert Repeat(c, n)[1..] == Repeat(c, n - 1);
      SplitRepeat(c, n - 1);
    }
  }

  function UpperChar(c: char): char
  {
    if 'a' <= c <= 'z' then (c as int - 32) as char else c
  }

  function LowerChar(c: char): char
  {
    if 'A' <= c <= 'Z' then (c as int + 32) as char else c
  }

  /** `str.upper()` restricted to ASCII letters. */
  function Upper(s: string): (r: string)
    ensures |r| == |s| && forall k :: 0 <= k < |s| ==> r[k] == UpperChar(s[k])
  {
    seq(|s|, k requires 0 <= k < |s| => UpperChar(s[k]))
  }

  /** `str.lower()` restricted to ASCII letters. */
  function Lower(s: string): (r: string)
    ensures |r| == |s| && forall k :: 0 <= k < |s| ==> r[k] == LowerChar(s[k])
  {
    seq(|s|, k requires 0 <= k < |s| => LowerChar(s[k]))
  }

  predicate IsLowerCase(s: string)
  {
    forall k :: 0 <= k < |s| ==> !('A' <= s[k] <= 'Z')
  }

  lemma LowerOfLowerCase(s: string)
    requires IsLowerCase(s)
    ensures Lower(s) == s
  {
  }

  /** The text after the last `}` of a tag (Python's `tag.rpartition('}')[-1]`),
      i.e. the local name of a namespaced XML tag. */
  function LocalName(tag: string): string
    decreases |tag|
  {
    if tag == [] then []
    else if tag[|tag| - 1] == '}' then []
    else LocalName(tag[..|tag| - 1]) + [tag[|tag| - 1]]
  }

  /** The local name is the part of the tag after its last `}`: a suffix
      without `}`, preceded by `}` whenever it is not the whole tag. */
  lemma {:induction false} LocalNameShape(tag: string)
    ensures var r := LocalName(tag);
      && |r| <= |tag| && r == tag[|tag| - |r|..]
      && '}' !in r
      && (|r| < |tag| ==> tag[|tag| - |r| - 1] == '}')
    decreases |tag|
  {
    if tag != [] && tag[|tag| - 1] != '}' {
      var init := tag[..|tag| - 1];
      LocalNameShape(init);
      var r := LocalName(init);
      assert tag[|tag| - |r| - 1..] == init[|init| - |r|..] + [tag[|tag| - 1]];
    }
  }

  /** Stripping the namespace twice strips nothing more. */
  lemma LocalNameIdempotent(tag: string)
    ensures LocalName(LocalName(tag)) == LocalName(tag)
  {
    LocalNameShape(tag);
    LocalNameOfPlain(LocalName(tag));
  }

  lemma {:induction false} LocalNameOfPlain(tag: string)
    requires '}' !in tag
    ensures LocalName(tag) == tag
    decreases |tag|
  {
    if tag != [] {
      assert tag[..|tag| - 1] + [tag[|tag| - 1]] == tag;
      LocalNameOfPlain(tag[..|tag| - 1]);
    }
  }

  /** Python's `<` on strings: lexicographic by code point. */
  predicate LexLess(a: string, b: string)
    decreases |a|
  {
    if a == [] then b != []
    else b != [] && (a[0] < b[0] || (a[0] == b[0] && LexLess(a[1..], b[1..])))
  }

  lemma {:induction false} LexLessIrreflexive(a: string)
    ensures !LexLess(a, a)
    decreases |a|
  {
    if a != [] {
      LexLessIrreflexive(a[1..]);
    }
  }

  lemma {:induction false} LexLessTransitive(a: string, b: string, c: string)
    requires LexLess(a, b) && LexLess(b, c)
    ensures LexLess(a, c)
    decreases |a|
  {
    if a != [] && a[0] == b[0] && b[0] == c[0] {
      LexLessTransitive(a[1..], b[1..], c[1..]);
    }
  }

  /** `s` with every `{` and `}` removed. */
  function RemoveBraces(s: string): (r: string)
    ensures '{' !in r && '}' !in r
    ensures forall c :: c in s && c != '{' && c != '}' ==> c in r
    decreases |s|
  {
    if s == [] then []
    else (if s[0] == '{' || s[0] == '}' then [] else [s[0]]) + RemoveBraces(s[1..])
  }

  /** Python's `s.replace(target, replacement)` for a non-empty `old`: every
      non-overlapping occurrence, left to right. */
  function ReplaceAll(s: string, target: string, replacement: string): (r: string)
    requires target != []
    decreases |s|
  {
    if target <= s then replacement + ReplaceAll(s[|target|..], target, replacement)
    else if s == [] then []
    else [s[0]] + ReplaceAll(s[1..], target, replacement)
  }

  /** A text without the target is left as it is. */
  lemma {:induction false} ReplaceAllAbsent(s: string, target: string, replacement: string)
    requires target != [] && !Contains(s, target)
    ensures ReplaceAll(s, target, replacement) == s
    decreases |s|
  {
    if s != [] {
      ReplaceAllAbsent(s[1..], target, replacement);
    }
  }
}
