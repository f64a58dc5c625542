/**
 * The string operations of the .NET base library that the argument parsers use,
 * restricted to ordinal (culture-independent) behaviour: ASCII case mapping,
 * `StartsWith`, `IndexOf`/`LastIndexOf` of a character, `Replace(x, "")` of a
 * character or of a substring, and `Split(',', ';')`.
 */
module Text {

  function LowerChar(c: char): char {
    if 'A' <= c <= 'Z' then (c as int + 32) as char else c
  }

  function UpperChar(c: char): char {
    if 'a' <= c <= 'z' then (c as int - 32) as char else c
  }

  /** `string.ToLower()`, ASCII letters only. */
  function Lower(s: string): (r: string)
    ensures |r| == |s|
  {
    if s == [] then [] else [LowerChar(s[0])] + Lower(s[1..])
  }

  /** `string.ToUpper()`, ASCII letters only. */
  function Upper(s: string): (r: string)
    ensures |r| == |s|
  {
    if s == [] then [] else [UpperChar(s[0])] + Upper(s[1..])
  }

  /** Lower-casing maps each character on its own. */
  lemma {:induction false} LowerAt(s: string)
    ensures forall i :: 0 <= i < |s| ==> Lower(s)[i] == LowerChar(s[i])
    decreases |s|
  {
    if s != [] {
      LowerAt(s[1..]);
      assert forall i :: 1 <= i < |s| ==> Lower(s)[i] == Lower(s[1..])[i - 1];
    }
  }

  /** Upper-casing maps each character on its own. */
  lemma {:induction false} UpperAt(s: string)
    ensures forall i :: 0 <= i < |s| ==> Upper(s)[i] == UpperChar(s[i])
    decreases |s|
  {
    if s != [] {
      UpperAt(s[1..]);
      assert forall i :: 1 <= i < |s| ==> Upper(s)[i] == Upper(s[1..])[i - 1];
    }
  }

  /** Lower-casing forgets the case of the input: case-insensitive comparison is well defined. */
  lemma LowerOfUpper(s: string)
    ensures Lower(Upper(s)) == Lower(s)
  {
    LowerAt(s);
    UpperAt(s);
    LowerAt(Upper(s));
    assert forall i :: 0 <= i < |s| ==> Lower(Upper(s))[i] == Lower(s)[i];
  }

  /** A character that is not a letter occurs in the lowered string exactly where it occurs in the original. */
  lemma LowerKeepsSymbol(s: string, c: char)
    requires !('A' <= c <= 'Z') && !('a' <= c <= 'z')
    ensures c in Lower(s) <==> c in s
  {
    LowerAt(s);
    if c in s {
      var k :| 0 <= k < |s| && s[k] == c;
      assert Lower(s)[k] == c;
    }
    if c in Lower(s) {
      var k :| 0 <= k < |Lower(s)| && Lower(s)[k] == c;
      assert s[k] == c;
    }
  }

  lemma LowerAppend(a: string, b: string)
    ensures Lower(a + b) == Lower(a) + Lower(b)
  {
    LowerAt(a);
    LowerAt(b);
    LowerAt(a + b);
    assert forall i :: 0 <= i < |a + b| ==> Lower(a + b)[i] == (Lower(a) + Lower(b))[i];
  }

  /** `s.StartsWith(prefix)`. */
  predicate StartsWith(s: string, prefix: string) {
    |prefix| <= |s| && s[..|prefix|] == prefix
  }

  /** `s` starts with `prefix` exactly when it is `prefix` followed by something. */
  lemma StartsWithSplit(s: string, prefix: string)
    ensures StartsWith(s, prefix) <==> exists y :: s == prefix + y
  {
    if StartsWith(s, prefix) {
      assert s == prefix + s[|prefix|..];
    }
    if exists y :: s == prefix + y {
      var y :| s == prefix + y;
      assert s[..|prefix|] == prefix;
    }
  }

  /** `s.IndexOf(c)`: the first position of `c`, or -1. */
  function IndexOf(s: string, c: char): (r: int)
    ensures -1 <= r < |s|
    ensures r == -1 <==> c !in s
    ensures r >= 0 ==> s[r] == c && c !in s[..r]
  {
    if s == [] then -1
    else if s[0] == c then 0
    else
      var k := IndexOf(s[1..], c);
      assert s[1..][..if k < 0 then 0 else k] == s[1..1 + if k < 0 then 0 else k];
      if k == -1 then -1 else k + 1
  }

  /** In `p + [c] + x` with no `c` in `p`, the first `c` is the one right after `p`. */
  lemma {:induction false} IndexOfFirst(p: string, c: char, x: string)
    requires c !in p
    ensures IndexOf(p + [c] + x, c) == |p|
    decreases |p|
  {
    var s := p + [c] + x;
    if p == [] {
      assert s[0] == c;
    } else {
      assert s[0] == p[0] && s[1..] == p[1..] + [c] + x;
      IndexOfFirst(p[1..], c, x);
    }
  }

  /** `s.LastIndexOf(c)`: the last position of `c`, or -1. */
  function LastIndexOf(s: string, c: char): (r: int)
    ensures -1 <= r < |s|
    ensures r == -1 <==> c !in s
    ensures r >= 0 ==> s[r] == c && c !in s[r + 1..]
  {
    if s == [] then -1
    else if s[|s| - 1] == c then |s| - 1
    else LastIndexOf(s[..|s| - 1], c)
  }

  /** How many times `c` occurs in `s`. */
  function Occurrences(s: string, c: char): nat {
    if s == [] then 0
    else (if s[0] == c then 1 else 0) + Occurrences(s[1..], c)
  }

  lemma {:induction false} OccurrencesAppend(a: string, b: string, c: char)
    ensures Occurrences(a + b, c) == Occurrences(a, c) + Occurrences(b, c)
  {
    if a == [] {
      assert a + b == b;
    } else {
      assert (a + b)[0] == a[0];
      assert (a + b)[1..] == a[1..] + b;
      OccurrencesAppend(a[1..], b, c);
    }
  }

  lemma {:induction false} OccurrencesAbsent(s: string, c: char)
    ensures Occurrences(s, c) == 0 <==> c !in s
  {
    if s != [] {
      assert c in s <==> s[0] == c || c in s[1..];
      OccurrencesAbsent(s[1..], c);
    }
  }

  /** Counting around a position `k` that holds `c`. */
  lemma OccurrencesAround(s: string, c: char, k: nat)
    requires k < |s| && s[k] == c
    ensures Occurrences(s, c) == Occurrences(s[..k], c) + 1 + Occurrences(s[k + 1..], c)
  {
    assert s == s[..k] + s[k..];
    OccurrencesAppend(s[..k], s[k..], c);
    assert s[k..][1..] == s[k + 1..];
  }

  /** The first and last positions of `c` differ exactly when `c` occurs at least twice. */
  lemma IndicesDistinctIffTwice(s: string, c: char)
    requires c in s
    ensures IndexOf(s, c) != LastIndexOf(s, c) <==> Occurrences(s, c) >= 2
  {
    var i, j := IndexOf(s, c), LastIndexOf(s, c);
    if i == j {
      OccurrencesAround(s, c, i);
      OccurrencesAbsent(s[..i], c);
      OccurrencesAbsent(s[i + 1..], c);
      assert Occurrences(s, c) == 1;
    } else {
      TwiceAt(s, c, i, j);
    }
  }

  lemma TwiceAt(s: string, c: char, i: nat, j: nat)
    requires i < j < |s| && s[i] == c && s[j] == c
    ensures Occurrences(s, c) >= 2
  {
    OccurrencesAround(s, c, i);
    var t := s[i + 1..];
    assert t[j - i - 1] == c;
    OccurrencesAround(t, c, j - i - 1);
  }

  /** `s.Replace(c.ToString(), "")`: every occurrence of `c` removed. */
  function RemoveAll(s: string, c: char): (r: string)
    ensures c !in r
    ensures c !in s ==> r == s
  {
    if s == [] then []
    else
      assert s == [s[0]] + s[1..];
      (if s[0] == c then [] else [s[0]]) + RemoveAll(s[1..], c)
  }

  /** Removing `c` keeps every other character, as often as it occurred. */
  lemma {:induction false} RemoveAllKeepsOthers(s: string, c: char, x: char)
    requires x != c
    ensures Occurrences(RemoveAll(s, c), x) == Occurrences(s, x)
  {
    if s != [] {
      RemoveAllKeepsOthers(s[1..], c, x);
      OccurrencesAppend(if s[0] == c then [] else [s[0]], RemoveAll(s[1..], c), x);
      assert Occurrences(if s[0] == c then [] else [s[0]], x) == if s[0] == x then 1 else 0;
    }
  }

  lemma RemoveAllCons(x: char, s: string, c: char)
    ensures RemoveAll([x] + s, c) == (if x == c then [] else [x]) + RemoveAll(s, c)
  {
    assert ([x] + s)[0] == x;
    assert ([x] + s)[1..] == s;
  }

  /** Removing `c` from quote-free text followed by one `c` gives the text back. */
  lemma {:induction false} RemoveAllTrailing(s: string, c: char)
    requires c !in s
    ensures RemoveAll(s + [c], c) == s
    decreases |s|
  {
    if s == [] {
      RemoveAllCons(c, [], c);
      assert s + [c] == [c] + [];
    } else {
      var x, t := s[0], s[1..];
      assert x != c && c !in t by {
        assert s == [x] + t;
      }
      RemoveAllCons(x, t + [c], c);
      RemoveAllTrailing(t, c);
      assert [x] + (t + [c]) == s + [c];
      assert [x] + t == s;
    }
  }

  /** `pattern` occurs somewhere in `s`. */
  predicate ContainsText(s: string, pattern: string)
    decreases |s|
  {
    StartsWith(s, pattern) || (s != [] && ContainsText(s[1..], pattern))
  }

  /** `s.Contains(pattern)`: the pattern occurs in `s` exactly when some suffix of `s` starts with it. */
  lemma {:induction false} ContainsTextAt(s: string, pattern: string)
    ensures ContainsText(s, pattern) <==> exists i :: 0 <= i <= |s| && StartsWith(s[i..], pattern)
    decreases |s|
  {
    assert s[0..] == s;
    if s != [] {
      ContainsTextAt(s[1..], pattern);
      if ContainsText(s[1..], pattern) {
        var j :| 0 <= j <= |s[1..]| && StartsWith(s[1..][j..], pattern);
        assert s[1..][j..] == s[j + 1..];
      }
      if exists i :: 0 <= i <= |s| && StartsWith(s[i..], pattern) {
        var i :| 0 <= i <= |s| && StartsWith(s[i..], pattern);
        if i > 0 {
          assert s[1..][i - 1..] == s[i..];
        }
      }
    }
  }

  /** A pattern holding a character that `s` lacks does not occur in `s`. */
  lemma {:induction false} MissingCharNotContained(s: string, pattern: string, k: nat)
    requires k < |pattern| && pattern[k] !in s
    ensures !ContainsText(s, pattern)
    decreases |s|
  {
    if s != [] {
      assert pattern[k] !in s[1..] by {
        forall j | 0 <= j < |s[1..]|
          ensures s[1..][j] != pattern[k]
        {
          assert s[1..][j] == s[j + 1];
        }
      }
      MissingCharNotContained(s[1..], pattern, k);
    }
  }

  /**
   * `s.Replace(pattern, "")` with an ordinal comparison: scanning from the left,
   * each non-overlapping occurrence of `pattern` is deleted; what is produced is not scanned again.
   */
  function ReplaceAll(s: string, pattern: string): (r: string)
    requires pattern != []
    ensures |r| <= |s|
    decreases |s|
  {
    if StartsWith(s, pattern) then ReplaceAll(s[|pattern|..], pattern)
    else if s == [] then []
    else [s[0]] + ReplaceAll(s[1..], pattern)
  }

  /** A string in which `pattern` does not occur is left as it is. */
  lemma {:induction false} ReplaceAllAbsent(s: string, pattern: string)
    requires pattern != [] && !ContainsText(s, pattern)
    ensures ReplaceAll(s, pattern) == s
    decreases |s|
  {
    if s != [] {
      ReplaceAllAbsent(s[1..], pattern);
    }
  }

  /** Text without the pattern's first character is kept, and the scan goes on after it. */
  lemma {:induction false} ReplaceAllSkips(x: string, t: string, pattern: string)
    requires pattern != [] && pattern[0] !in x
    ensures ReplaceAll(x + t, pattern) == x + ReplaceAll(t, pattern)
    decreases |x|
  {
    if x == [] {
      assert x + t == t;
    } else {
      var s := x + t;
      assert s[0] == x[0];
      assert s[1..] == x[1..] + t;
      ReplaceAllSkips(x[1..], t, pattern);
      assert [x[0]] + (x[1..] + ReplaceAll(t, pattern)) == x + ReplaceAll(t, pattern);
    }
  }

  /** A leading occurrence is deleted and the scan resumes right after it. */
  lemma ReplaceAllLeading(pattern: string, rest: string)
    requires pattern != []
    ensures ReplaceAll(pattern + rest, pattern) == ReplaceAll(rest, pattern)
  {
    assert (pattern + rest)[..|pattern|] == pattern;
    assert (pattern + rest)[|pattern|..] == rest;
  }

  predicate IsSeparator(c: char) {
    c == ',' || c == ';'
  }

  function SeparatorCount(s: string): nat {
    if s == [] then 0 else (if IsSeparator(s[0]) then 1 else 0) + SeparatorCount(s[1..])
  }

  /** `s.Split(',', ';')`: the pieces between separators, empty pieces included. */
  function Split(s: string): (r: seq<string>)
    ensures |r| == SeparatorCount(s) + 1
    ensures forall i, j :: 0 <= i < |r| && 0 <= j < |r[i]| ==> !IsSeparator(r[i][j])
  {
    if s == [] then [""]
    else if IsSeparator(s[0]) then [""] + Split(s[1..])
    else
      var rest := Split(s[1..]);
      [[s[0]] + rest[0]] + rest[1..]
  }

  /** A string without separators is one piece. */
  lemma {:induction false} SplitNoSeparator(s: string)
    requires forall j :: 0 <= j < |s| ==> !IsSeparator(s[j])
    ensures Split(s) == [s]
  {
    if s != [] {
      assert !IsSeparator(s[0]);
      SplitNoSeparator(s[1..]);
      assert [s[0]] + s[1..] == s;
    }
  }

  /** Splitting at one separator and splitting the two sides separately agree. */
  lemma {:induction false} SplitAtSeparator(a: string, sep: char, b: string)
    requires IsSeparator(sep)
    ensures Split(a + [sep] + b) == Split(a) + Split(b)
  {
    if a == [] {
      assert a + [sep] + b == [sep] + b;
      assert ([sep] + b)[1..] == b;
    } else {
      assert (a + [sep] + b)[0] == a[0];
      assert (a + [sep] + b)[1..] == a[1..] + [sep] + b;
      SplitAtSeparator(a[1..], sep, b);
    }
  }
}
