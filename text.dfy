/**
 * The Python `str` operations the pipeline uses, over ASCII: `strip`, `split` on one
 * character, `" ".join`, `startswith`/`endswith`, `upper`, `replace(pat, "")` and
 * slicing `s[:n]`.
 */
module Text {

  /** `str.isspace()` restricted to ASCII: space, the controls 9..13 and 28..31. */
  predicate IsSpace(c: char) {
    c == ' ' || (9 <= c as int <= 13) || (28 <= c as int <= 31)
  }

  predicate IsDigit(c: char) {
    '0' <= c <= '9'
  }

  predicate IsUpper(c: char) {
    'A' <= c <= 'Z'
  }

  predicate IsLower(c: char) {
    'a' <= c <= 'z'
  }

  /** Leading whitespace removed (`str.lstrip()`). */
  function TrimLeft(s: string): (r: string)
    ensures |r| <= |s| && r == s[|s| - |r|..]
    ensures r == [] || !IsSpace(r[0])
    ensures forall k {:trigger IsSpace(s[k])} :: 0 <= k < |s| - |r| ==> IsSpace(s[k])
    decreases |s|
  {
    if s != [] && IsSpace(s[0]) then TrimLeft(s[1..]) else s
  }

  /** Trailing whitespace removed (`str.rstrip()`). */
  function TrimRight(s: string): (r: string)
    ensures |r| <= |s| && r == s[..|r|]
    ensures r == [] || !IsSpace(r[|r| - 1])
    ensures forall k {:trigger IsSpace(s[k])} :: |r| <= k < |s| ==> IsSpace(s[k])
    decreases |s|
  {
    if s != [] && IsSpace(s[|s| - 1]) then TrimRight(s[..|s| - 1]) else s
  }

  /** `r` is `s[a..b]`, and everything of `s` outside that slice is whitespace. */
  ghost predicate TrimmedSlice(s: string, r: string, a: int, b: int) {
    && 0 <= a <= b <= |s| && r == s[a..b]
    && (forall k {:trigger IsSpace(s[k])} :: 0 <= k < a ==> IsSpace(s[k]))
    && (forall k {:trigger IsSpace(s[k])} :: b <= k < |s| ==> IsSpace(s[k]))
  }

  /** A leading space in front of a trimmed slice widens the margin by one. */
  lemma TrimmedSliceShift(s: string, r: string)
    requires s != [] && IsSpace(s[0]) && exists a, b :: TrimmedSlice(s[1..], r, a, b)
    ensures exists a, b :: TrimmedSlice(s, r, a, b)
  {
    var a, b :| TrimmedSlice(s[1..], r, a, b);
    assert r == s[a + 1..b + 1];
    forall k | 0 <= k < |s| && k != 0 ensures s[k] == s[1..][k - 1] {
    }
    assert TrimmedSlice(s, r, a + 1, b + 1);
  }

  /** `str.strip()`: the longest slice of `s` that neither starts nor ends with whitespace. */
  function Strip(s: string): (r: string)
    ensures r == [] || (!IsSpace(r[0]) && !IsSpace(r[|r| - 1]))
    ensures r == [] <==> forall k {:trigger IsSpace(s[k])} :: 0 <= k < |s| ==> IsSpace(s[k])
    decreases |s|
  {
    if s != [] && IsSpace(s[0]) then Strip(s[1..]) else TrimRight(s)
  }

  /** The strip is a slice of `s` with only whitespace cut off on either side. */
  lemma {:induction false} StripIsSlice(s: string)
    ensures exists a, b :: TrimmedSlice(s, Strip(s), a, b)
    decreases |s|
  {
    if s != [] && IsSpace(s[0]) {
      StripIsSlice(s[1..]);
      TrimmedSliceShift(s, Strip(s[1..]));
      assert Strip(s) == Strip(s[1..]);
    } else {
      assert Strip(s) == TrimRight(s) == s[0..|TrimRight(s)|];
      assert TrimmedSlice(s, TrimRight(s), 0, |TrimRight(s)|);
    }
  }

  /** A string with no whitespace at either end is its own strip. */
  lemma StripUnchanged(s: string)
    requires s == [] || (!IsSpace(s[0]) && !IsSpace(s[|s| - 1]))
    ensures Strip(s) == s
  {
    assert TrimLeft(s) == s;
  }

  lemma StripIdempotent(s: string)
    ensures Strip(Strip(s)) == Strip(s)
  {
    StripUnchanged(Strip(s));
  }

  /** `s.split(sep)` for a one-character separator: the pieces between separators. */
  function Split(s: string, sep: char): (parts: seq<string>)
    ensures |parts| >= 1
    ensures forall k :: 0 <= k < |parts| ==> sep !in parts[k]
    decreases |s|
  {
    if s == [] then [""]
    else
      var rest := Split(s[1..], sep);
      if s[0] == sep then [""] + rest
      else [[s[0]] + rest[0]] + rest[1..]
  }

  /** `sep.join(parts)`. */
  function Join(parts: seq<string>, sep: string): string
    decreases |parts|
  {
    if parts == [] then ""
    else if |parts| == 1 then parts[0]
    else parts[0] + sep + Join(parts[1..], sep)
  }

  /** Splitting and joining again with the same separator gives back the string. */
  lemma {:induction false} SplitJoin(s: string, sep: char)
    ensures Join(Split(s, sep), [sep]) == s
    decreases |s|
  {
    if s != [] {
      var rest := Split(s[1..], sep);
      SplitJoin(s[1..], sep);
      if s[0] == sep {
        assert Split(s, sep) == [""] + rest;
        assert Join([""] + rest, [sep]) == "" + [sep] + Join(rest, [sep]);
        assert s == [sep] + s[1..];
      } else {
        var parts := Split(s, sep);
        assert parts == [[s[0]] + rest[0]] + rest[1..];
        if |rest| == 1 {
          assert Join(parts, [sep]) == [s[0]] + rest[0];
        } else {
          assert Join(rest, [sep]) == rest[0] + [sep] + Join(rest[1..], [sep]);
          assert parts[1..] == rest[1..];
          assert Join(parts, [sep]) == [s[0]] + rest[0] + [sep] + Join(rest[1..], [sep]);
        }
        assert s == [s[0]] + s[1..];
      }
    }
  }

  /** A string without the separator is one piece. */
  lemma {:induction false} SplitWithoutSep(s: string, sep: char)
    requires sep !in s
    ensures Split(s, sep) == [s]
    decreases |s|
  {
    if s != [] {
      assert sep !in s[1..];
      SplitWithoutSep(s[1..], sep);
      assert s[0] != sep;
      assert s == [s[0]] + s[1..];
    }
  }

  /** Splitting at the first separator: the first piece is everything before it. */
  lemma {:induction false} SplitAtFirst(a: string, sep: char, b: string)
    requires sep !in a
    ensures Split(a + [sep] + b, sep) == [a] + Split(b, sep)
    decreases |a|
  {
    if a == [] {
      assert a + [sep] + b == [sep] + b;
      assert ([sep] + b)[1..] == b;
    } else {
      var s := a + [sep] + b;
      assert s[0] == a[0] && s[1..] == a[1..] + [sep] + b;
      assert sep !in a[1..];
      SplitAtFirst(a[1..], sep, b);
      assert [a[0]] + a[1..] == a;
    }
  }

  /** Joining pieces free of the separator and splitting again gives the pieces back. */
  lemma {:induction false} JoinSplit(parts: seq<string>, sep: char)
    requires |parts| >= 1
    requires forall k :: 0 <= k < |parts| ==> sep !in parts[k]
    ensures Split(Join(parts, [sep]), sep) == parts
    decreases |parts|
  {
    if |parts| == 1 {
      SplitWithoutSep(parts[0], sep);
    } else {
      JoinSplit(parts[1..], sep);
      SplitAtFirst(parts[0], sep, Join(parts[1..], [sep]));
      assert parts == [parts[0]] + parts[1..];
    }
  }

  /** Position of the first `c` in `s`. */
  function IndexOf(s: string, c: char): (k: nat)
    requires c in s
    ensures k < |s| && s[k] == c && c !in s[..k]
    decreases |s|
  {
    if s[0] == c then 0 else 1 + IndexOf(s[1..], c)
  }

  /** There is one more piece than there are separators. */
  lemma {:induction false} SplitCount(s: string, sep: char)
    ensures |Split(s, sep)| == multiset(s)[sep] + 1
    decreases |s|
  {
    if s != [] {
      SplitCount(s[1..], sep);
      assert s == [s[0]] + s[1..];
      assert multiset(s) == multiset([s[0]]) + multiset(s[1..]);
    }
  }

  /** A string with exactly one separator splits into the parts before and after it. */
  lemma SplitAtOnly(s: string, sep: char)
    requires multiset(s)[sep] == 1
    ensures sep in s
    ensures Split(s, sep) == [s[..IndexOf(s, sep)], s[IndexOf(s, sep) + 1..]]
  {
    assert sep in s;
    var k := IndexOf(s, sep);
    var before, after := s[..k], s[k + 1..];
    assert s == before + [sep] + after;
    assert multiset(s) == multiset(before) + multiset([sep]) + multiset(after);
    assert sep !in after;
    SplitAtFirst(before, sep, after);
    SplitWithoutSep(after, sep);
  }

  predicate StartsWith(s: string, prefix: string) {
    |prefix| <= |s| && s[..|prefix|] == prefix
  }

  predicate EndsWith(s: string, suffix: string) {
    |suffix| <= |s| && s[|s| - |suffix|..] == suffix
  }

  /** True when `pat` occurs somewhere in `s` (Python's `pat in s`). */
  predicate Contains(s: string, pat: string) {
    exists k :: 0 <= k <= |s| && StartsWith(s[k..], pat)
  }

  /**
   * `s.replace(pat, "")`: occurrences of `pat` removed left to right without overlap,
   * so that what is left around a removed occurrence is not scanned again.
   */
  function RemoveAll(s: string, pat: string): (r: string)
    requires pat != []
    ensures |r| <= |s|
    decreases |s|
  {
    if |s| < |pat| then s
    else if s[..|pat|] == pat then RemoveAll(s[|pat|..], pat)
    else [s[0]] + RemoveAll(s[1..], pat)
  }

  /** A pattern whose first character does not occur in `s` does not occur either. */
  lemma FirstCharAbsent(s: string, pat: string)
    requires pat != [] && pat[0] !in s
    ensures !Contains(s, pat)
  {
    forall k | 0 <= k <= |s| ensures !StartsWith(s[k..], pat) {
    }
  }

  /** Removing a pattern that does not occur changes nothing. */
  lemma {:induction false} RemoveAllAbsent(s: string, pat: string)
    requires pat != [] && !Contains(s, pat)
    ensures RemoveAll(s, pat) == s
    decreases |s|
  {
    if |s| >= |pat| {
      assert s[0..] == s;
      assert s[..|pat|] != pat;
      forall k | 0 <= k <= |s[1..]| ensures !StartsWith(s[1..][k..], pat) {
        assert s[1..][k..] == s[k + 1..];
      }
      RemoveAllAbsent(s[1..], pat);
    }
  }

  /** A removed occurrence at the front disappears. */
  lemma RemoveAllFront(pat: string, rest: string)
    requires pat != []
    ensures RemoveAll(pat + rest, pat) == RemoveAll(rest, pat)
  {
    var s := pat + rest;
    assert s[..|pat|] == pat && s[|pat|..] == rest;
  }

  /**
   * The leftmost occurrence is removed and what comes before it is kept: when `pat`
   * first occurs in `a + pat + b` right after `a`, the result is `a` followed by the
   * removal from `b`. With `RemoveAllAbsent` this fixes `RemoveAll` on every string.
   */
  lemma {:induction false} RemoveAllAt(a: string, pat: string, b: string)
    requires pat != [] && !Contains(a + pat[..|pat| - 1], pat)
    ensures RemoveAll(a + pat + b, pat) == a + RemoveAll(b, pat)
    decreases |a|
  {
    if a == [] {
      assert a + pat + b == pat + b;
      RemoveAllFront(pat, b);
    } else {
      var s, w := a + pat + b, a + pat[..|pat| - 1];
      assert s[..|pat|] == w[..|pat|];
      assert !StartsWith(w[0..], pat);
      var a', w' := a[1..], a[1..] + pat[..|pat| - 1];
      assert s[1..] == a' + pat + b;
      forall k | 0 <= k <= |w'| ensures !StartsWith(w'[k..], pat) {
        assert w'[k..] == w[k + 1..];
      }
      RemoveAllAt(a', pat, b);
      assert RemoveAll(s, pat) == [a[0]] + RemoveAll(s[1..], pat);
      assert [a[0]] + (a' + RemoveAll(b, pat)) == a + RemoveAll(b, pat);
    }
  }

  /** A pattern cannot start inside a prefix that lacks its first character. */
  lemma FirstCharAbsentAppend(x: string, y: string, pat: string)
    requires pat != [] && pat[0] !in x && !Contains(y, pat)
    ensures !Contains(x + y, pat)
  {
    forall k | 0 <= k <= |x + y| ensures !StartsWith((x + y)[k..], pat) {
      if k < |x| {
        assert (x + y)[k..][0] == x[k];
      } else {
        assert (x + y)[k..] == y[k - |x|..];
      }
    }
  }

  /** Removing one character is done piece by piece: `(a + b).replace(c, "")`. */
  lemma {:induction false} RemoveCharAppend(a: string, b: string, c: char)
    ensures RemoveAll(a + b, [c]) == RemoveAll(a, [c]) + RemoveAll(b, [c])
    decreases |a|
  {
    if a != [] {
      var s := a + b;
      assert s[..1] == a[..1] && s[1..] == a[1..] + b;
      RemoveCharAppend(a[1..], b, c);
      if a[..1] == [c] {
        assert RemoveAll(s, [c]) == RemoveAll(a[1..] + b, [c]);
        assert RemoveAll(a, [c]) == RemoveAll(a[1..], [c]);
      } else {
        assert RemoveAll(s, [c]) == [a[0]] + RemoveAll(a[1..] + b, [c]);
        assert RemoveAll(a, [c]) == [a[0]] + RemoveAll(a[1..], [c]);
        assert [a[0]] + (RemoveAll(a[1..], [c]) + RemoveAll(b, [c]))
            == ([a[0]] + RemoveAll(a[1..], [c])) + RemoveAll(b, [c]);
      }
    } else {
      assert a + b == b;
    }
  }

  /** One character is dropped exactly when it is the removed one. */
  lemma RemoveCharSingle(x: char, c: char)
    ensures RemoveAll([x], [c]) == if x == c then [] else [x]
  {
    assert [x][..1] == [x] && [x][1..] == [];
  }

  /** ASCII `str.upper()` of one character. */
  function UpperChar(c: char): (u: char)
    ensures IsLower(c) ==> IsUpper(u) && u as int == c as int - 'a' as int + 'A' as int
    ensures !IsLower(c) ==> u == c
  {
    if IsLower(c) then (c as int - 'a' as int + 'A' as int) as char else c
  }

  /** ASCII `str.upper()`. */
  function Upper(s: string): (r: string)
    ensures |r| == |s|
    ensures forall k :: 0 <= k < |s| ==> r[k] == UpperChar(s[k])
  {
    seq(|s|, k requires 0 <= k < |s| => UpperChar(s[k]))
  }

  /** The slice `s[:n]`. */
  function Take(s: string, n: nat): (r: string)
    ensures |r| <= n && |r| <= |s|
    ensures r == s[..|r|]
    ensures |s| <= n ==> r == s
    ensures |s| > n ==> |r| == n
  {
    if |s| <= n then s else s[..n]
  }
}
