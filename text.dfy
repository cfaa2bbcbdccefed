/** The Python `str` operations the modelled code relies on: `replace`, `strip`
    and `split(sep, 1)`, with the lemmas that say what they compute. */
module Text {

  /** `pattern` starts at index `i` of `s`. */
  predicate OccursAt(s: string, pattern: string, i: nat) {
    i + |pattern| <= |s| && s[i..i + |pattern|] == pattern
  }

  /** `s.replace(pattern, replacement)`: every occurrence of a non-empty pattern,
      scanning left to right without overlaps, is replaced; an empty pattern
      inserts the replacement before every character and at the end. */
  function Replace(s: string, pattern: string, replacement: string): string
    decreases |s|
  {
    if pattern == [] then InsertEverywhere(s, replacement)
    else if |s| < |pattern| then s
    else if s[..|pattern|] == pattern then replacement + Replace(s[|pattern|..], pattern, replacement)
    else [s[0]] + Replace(s[1..], pattern, replacement)
  }

  function InsertEverywhere(s: string, replacement: string): string {
    if s == [] then replacement else replacement + [s[0]] + InsertEverywhere(s[1..], replacement)
  }

  /** An occurrence in the tail of `s` is an occurrence in `s`, one index later. */
  lemma OccursInTail(s: string, pattern: string, i: nat)
    requires s != []
    ensures OccursAt(s[1..], pattern, i) <==> OccursAt(s, pattern, i + 1)
  {
    if i + 1 + |pattern| <= |s| {
      assert s[1..][i..i + |pattern|] == s[i + 1..i + 1 + |pattern|];
    }
  }

  /** A string in which a non-empty pattern never occurs is left as it is. */
  lemma {:induction false} ReplaceAbsent(s: string, pattern: string, replacement: string)
    requires pattern != []
    requires forall i: nat :: !OccursAt(s, pattern, i)
    ensures Replace(s, pattern, replacement) == s
    decreases |s|
  {
    if |s| >= |pattern| {
      assert !OccursAt(s, pattern, 0);
      forall i: nat ensures !OccursAt(s[1..], pattern, i) {
        OccursInTail(s, pattern, i);
      }
      ReplaceAbsent(s[1..], pattern, replacement);
      assert s == [s[0]] + s[1..];
    }
  }

  /** A pattern at the front is replaced and the scan resumes after it. */
  lemma ReplaceHere(pattern: string, b: string, replacement: string)
    requires pattern != []
    ensures Replace(pattern + b, pattern, replacement) == replacement + Replace(b, pattern, replacement)
  {
    assert (pattern + b)[..|pattern|] == pattern;
    assert (pattern + b)[|pattern|..] == b;
  }

  /** The first occurrence of a pattern, after a prefix holding none of its first
      character, is the one replaced, and the scan resumes after it. */
  lemma {:induction false} ReplaceFirst(a: string, pattern: string, b: string, replacement: string)
    requires pattern != [] && pattern[0] !in a
    ensures Replace(a + pattern + b, pattern, replacement) == a + replacement + Replace(b, pattern, replacement)
    decreases |a|
  {
    if a == [] {
      assert a + pattern + b == pattern + b;
      ReplaceHere(pattern, b, replacement);
    } else {
      var s := a + pattern + b;
      var rest := Replace(b, pattern, replacement);
      assert s[0] == a[0] && s[1..] == a[1..] + pattern + b;
      ReplaceStep(s, pattern, replacement);
      ReplaceFirst(a[1..], pattern, b, replacement);
      Glue(Replace(s, pattern, replacement), Replace(s[1..], pattern, replacement), a[0], a[1..], a, replacement, rest);
    }
  }

  /** A prefix holding none of the pattern's first character is kept as it is. */
  lemma {:induction false} ReplacePrefixFree(a: string, b: string, pattern: string, replacement: string)
    requires pattern != [] && pattern[0] !in a
    ensures Replace(a + b, pattern, replacement) == a + Replace(b, pattern, replacement)
    decreases |a|
  {
    if a == [] {
      assert a + b == b;
    } else {
      var s := a + b;
      var rest := Replace(b, pattern, replacement);
      assert s[0] == a[0] && s[1..] == a[1..] + b;
      ReplaceStep(s, pattern, replacement);
      ReplacePrefixFree(a[1..], b, pattern, replacement);
      Glue(Replace(s, pattern, replacement), Replace(s[1..], pattern, replacement), a[0], a[1..], a, [], rest);
    }
  }

  /** A first character that does not start the pattern is kept. */
  lemma ReplaceStep(s: string, pattern: string, replacement: string)
    requires pattern != [] && s != [] && s[0] != pattern[0]
    ensures Replace(s, pattern, replacement) == [s[0]] + Replace(s[1..], pattern, replacement)
  {
    if |s| >= |pattern| {
      assert s[..|pattern|][0] == s[0];
    }
  }

  lemma Glue<T>(x: seq<T>, y: seq<T>, h: T, a: seq<T>, p: seq<T>, r: seq<T>, rest: seq<T>)
    requires x == [h] + y && y == a + r + rest && [h] + a == p
    ensures x == p + r + rest
  {
  }

  /** Replacing one character by nothing deletes exactly that character. */
  lemma {:induction false} DeleteChar(s: string, c: char)
    ensures forall d :: d in Replace(s, [c], []) <==> d in s && d != c
    decreases |s|
  {
    if s != [] {
      DeleteChar(s[1..], c);
      assert s == [s[0]] + s[1..];
      if s[..1] == [c] {
        assert s[0] == c;
      } else {
        assert s[0] != c;
      }
    }
  }

  /** A pattern whose first character is not in `s` occurs nowhere in it. */
  lemma NoOccurrence(s: string, pattern: string)
    requires pattern != [] && pattern[0] !in s
    ensures forall i: nat :: !OccursAt(s, pattern, i)
  {
    forall i: nat ensures !OccursAt(s, pattern, i) {
      if i + |pattern| <= |s| {
        assert s[i..i + |pattern|][0] == s[i];
      }
    }
  }

  /** Replacing one character by another leaves none of the first. */
  lemma {:induction false} ReplaceRemovesChar(s: string, c: char, d: char)
    requires c != d
    ensures c !in Replace(s, [c], [d])
    decreases |s|
  {
    if s != [] {
      ReplaceRemovesChar(s[1..], c, d);
      if s[..1] != [c] {
        assert s[0] != c;
      }
    }
  }

  /** Deleting a character that occurs once removes just that occurrence. */
  lemma DeleteOnly(x: string, c: char, y: string)
    requires c !in x && c !in y
    ensures Replace(x + [c] + y, [c], []) == x + y
  {
    assert x + [] == x;
    NoOccurrence(y, [c]);
    ReplaceAbsent(y, [c], []);
    ReplaceFirst(x, [c], y, []);
  }

  /** `s.replace("{", "").replace("}", "")`. */
  function StripBraces(s: string): (r: string)
    ensures '{' !in r && '}' !in r
    ensures forall d :: d in r <==> d in s && d != '{' && d != '}'
  {
    DeleteChar(s, '{');
    DeleteChar(Replace(s, "{", ""), '}');
    Replace(Replace(s, "{", ""), "}", "")
  }

  /** One pair of braces around brace-free text is the only thing removed. */
  lemma StripOnePair(a: string, v: string, b: string)
    requires '{' !in a + v + b && '}' !in a + v + b
    ensures StripBraces(a + "{" + v + "}" + b) == a + v + b
  {
    assert a + "{" + v + "}" + b == a + ['{'] + (v + "}" + b);
    DeleteOnly(a, '{', v + "}" + b);
    assert a + (v + "}" + b) == (a + v) + ['}'] + b;
    DeleteOnly(a + v, '}', b);
  }

  /** The characters for which Python's `str.isspace()` holds. */
  predicate IsSpace(c: char) {
    || ('\t' <= c <= '\r')
    || ('\U{1c}' <= c <= ' ')
    || c == '\U{85}' || c == '\U{a0}' || c == '\U{1680}'
    || ('\U{2000}' <= c <= '\U{200a}')
    || c == '\U{2028}' || c == '\U{2029}' || c == '\U{202f}' || c == '\U{205f}' || c == '\U{3000}'
  }

  function TrimLeft(s: string): (r: string)
    ensures |r| <= |s| && r == s[|s| - |r|..]
    ensures r == [] || !IsSpace(r[0])
  {
    if s != [] && IsSpace(s[0]) then TrimLeft(s[1..]) else s
  }

  /** What `TrimLeft` drops is white space. */
  lemma {:induction false} TrimLeftDrops(s: string)
    ensures forall k :: 0 <= k < |s| - |TrimLeft(s)| ==> IsSpace(s[k])
    decreases |s|
  {
    if s != [] && IsSpace(s[0]) {
      TrimLeftDrops(s[1..]);
      assert forall k :: 0 < k < |s| ==> s[k] == s[1..][k - 1];
    }
  }

  function TrimRight(s: string): (r: string)
    ensures |r| <= |s| && r == s[..|r|]
    ensures r == [] || !IsSpace(r[|r| - 1])
  {
    if s != [] && IsSpace(s[|s| - 1]) then TrimRight(s[..|s| - 1]) else s
  }

  /** What `TrimRight` drops is white space. */
  lemma {:induction false} TrimRightDrops(s: string)
    ensures forall k :: |TrimRight(s)| <= k < |s| ==> IsSpace(s[k])
    decreases |s|
  {
    if s != [] && IsSpace(s[|s| - 1]) {
      TrimRightDrops(s[..|s| - 1]);
      assert forall k :: 0 <= k < |s| - 1 ==> s[..|s| - 1][k] == s[k];
    }
  }

  /** `s.strip()`: the longest slice of `s` that neither starts nor ends with white space. */
  function Strip(s: string): (r: string)
    ensures r == [] || (!IsSpace(r[0]) && !IsSpace(r[|r| - 1]))
    ensures forall c :: c in r ==> c in s
  {
    var l := TrimLeft(s);
    var r := TrimRight(l);
    assert forall c :: c in r ==> c in l;
    assert forall c :: c in l ==> c in s;
    r
  }

  /** `strip()` keeps the slice `s[i..j]` and drops only white space around it. */
  lemma StripSlice(s: string) returns (i: nat, j: nat)
    ensures i <= j <= |s| && Strip(s) == s[i..j]
    ensures forall k :: 0 <= k < i ==> IsSpace(s[k])
    ensures forall k :: j <= k < |s| ==> IsSpace(s[k])
  {
    i, j := StripBounds(s);
    TrimLeftDrops(s);
    StripDropsRight(s);
  }

  /** Where the slice that `strip()` keeps begins and ends. */
  lemma StripBounds(s: string) returns (i: nat, j: nat)
    ensures i <= j <= |s| && Strip(s) == s[i..j]
    ensures i == |s| - |TrimLeft(s)| && j == i + |TrimRight(TrimLeft(s))|
  {
    var l := TrimLeft(s);
    var t := TrimRight(l);
    assert Strip(s) == t;
    i := |s| - |l|;
    j := i + |t|;
    assert l == s[i..] && t == l[..|t|];
    assert t == s[i..j];
  }

  /** What `strip()` drops after the slice is white space. */
  lemma StripDropsRight(s: string)
    ensures forall k :: |s| - |TrimLeft(s)| + |TrimRight(TrimLeft(s))| <= k < |s| ==> IsSpace(s[k])
  {
    var l := TrimLeft(s);
    var i := |s| - |l|;
    TrimRightDrops(l);
    forall k | i + |TrimRight(l)| <= k < |s|
      ensures IsSpace(s[k])
    {
      assert s[k] == l[k - i];
    }
  }

  /** A string with no white space at either end is its own `strip()`. */
  lemma StripClean(s: string)
    requires s == [] || (!IsSpace(s[0]) && !IsSpace(s[|s| - 1]))
    ensures Strip(s) == s
  {
  }

  lemma {:induction false} TrimLeftAppend(s: string, c: char)
    requires IsSpace(c)
    ensures TrimLeft(s + [c]) == (if TrimLeft(s) == [] then TrimLeft([c]) else TrimLeft(s) + [c])
    decreases |s|
  {
    var t := s + [c];
    if s == [] {
      assert t == [c];
    } else if IsSpace(s[0]) {
      assert t[0] == s[0] && t[1..] == s[1..] + [c];
      TrimLeftAppend(s[1..], c);
      assert TrimLeft(t) == TrimLeft(t[1..]);
      assert TrimLeft(s) == TrimLeft(s[1..]);
    } else {
      assert t[0] == s[0];
      assert TrimLeft(t) == t && TrimLeft(s) == s;
    }
  }

  lemma TrimRightAppend(s: string, c: char)
    requires IsSpace(c)
    ensures TrimRight(s + [c]) == TrimRight(s)
  {
    assert (s + [c])[..|s|] == s;
  }

  /** A trailing white-space character only lengthens the right end that `strip()` drops. */
  lemma StripTrailingSpace(s: string, c: char)
    requires IsSpace(c)
    ensures Strip(s + [c]) == Strip(s)
  {
    TrimLeftAppend(s, c);
    if TrimLeft(s) == [] {
      assert TrimLeft([c]) == [];
    } else {
      TrimRightAppend(TrimLeft(s), c);
    }
  }

  /** A string that neither starts nor ends with white space, followed by white space, strips back to itself. */
  lemma StripCleanSpace(s: string, c: char)
    requires IsSpace(c)
    requires s == [] || (!IsSpace(s[0]) && !IsSpace(s[|s| - 1]))
    ensures Strip(s + [c]) == s
  {
    StripTrailingSpace(s, c);
    StripClean(s);
  }

  /** `s.split(c, 1)` when `c` occurs in `s`: the text before the first `c` and the text after it. */
  function SplitFirst(s: string, c: char): (r: (string, string))
    requires c in s
    ensures s == r.0 + [c] + r.1
    ensures c !in r.0
  {
    if s[0] == c then ([], s[1..])
    else
      var (a, b) := SplitFirst(s[1..], c);
      ([s[0]] + a, b)
  }

  /** The split is at the first `c`, whatever follows it. */
  lemma {:induction false} SplitFirstAt(a: string, c: char, b: string)
    requires c !in a
    ensures SplitFirst(a + [c] + b, c) == (a, b)
    decreases |a|
  {
    if a != [] {
      var s := a + [c] + b;
      assert s[0] == a[0] && s[0] != c;
      assert s[1..] == a[1..] + [c] + b;
      SplitFirstAt(a[1..], c, b);
      assert [a[0]] + a[1..] == a;
    }
  }
}
