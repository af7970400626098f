/** String operations the tool handlers rely on: Python's str.join, the
    prefix-and-ellipsis truncation of free text, single-character
    replacement, and counting occurrences of the item separator. */
module Text {

  /** The line that separates formatted items in every list reply. */
  const ItemSeparator: string := "\n---\n"

  /** Python's `min(a, b)`. */
  function Min(a: int, b: int): (m: int)
    ensures m <= a && m <= b
    ensures m == a || m == b
  {
    if a <= b then a else b
  }

  /** Python's `sep.join(xs)`. */
  function Join(xs: seq<string>, sep: string): (r: string)
    ensures |xs| > 0 ==> xs[0] <= r
    decreases |xs|
  {
    if |xs| == 0 then ""
    else if |xs| == 1 then xs[0]
    else xs[0] + sep + Join(xs[1..], sep)
  }

  function SumOfLengths(xs: seq<string>): nat
    decreases |xs|
  {
    if |xs| == 0 then 0 else |xs[0]| + SumOfLengths(xs[1..])
  }

  /** A join of n >= 1 items holds the items and exactly n - 1 copies of the separator. */
  lemma {:induction false} JoinLength(xs: seq<string>, sep: string)
    requires |xs| > 0
    ensures |Join(xs, sep)| == SumOfLengths(xs) + (|xs| - 1) * |sep|
    decreases |xs|
  {
    if |xs| > 1 {
      JoinLength(xs[1..], sep);
    }
  }

  /** Python's `s.split("\n")`: the lines of `s`. */
  function Lines(s: string): (r: seq<string>)
    ensures |r| > 0
    decreases |s|
  {
    if |s| == 0 then [""]
    else
      var rest := Lines(s[1..]);
      if s[0] == '\n' then [""] + rest
      else [[s[0]] + rest[0]] + rest[1..]
  }

  /** A newline-free prefix extends the first line. */
  lemma {:induction false} LinesOfLine(a: string, t: string)
    requires '\n' !in a
    ensures Lines(a + t) == [a + Lines(t)[0]] + Lines(t)[1..]
    decreases |a|
  {
    if |a| > 0 {
      assert (a + t)[0] == a[0];
      assert (a + t)[1..] == a[1..] + t;
      LinesOfLine(a[1..], t);
      assert [a[0]] + (a[1..] + Lines(t)[0]) == a + Lines(t)[0];
    } else {
      assert a + t == t && a + Lines(t)[0] == Lines(t)[0];
      assert Lines(t) == [Lines(t)[0]] + Lines(t)[1..];
    }
  }

  /** Splitting newline-free lines joined with newlines gives the lines back. */
  lemma {:induction false} LinesOfJoin(xs: seq<string>)
    requires |xs| > 0
    requires forall k :: 0 <= k < |xs| ==> '\n' !in xs[k]
    ensures Lines(Join(xs, "\n")) == xs
    decreases |xs|
  {
    if |xs| == 1 {
      LinesOfLine(xs[0], "");
      assert xs[0] + "" == xs[0];
    } else {
      var rest := Join(xs[1..], "\n");
      LinesOfJoin(xs[1..]);
      LinesOfLine(xs[0], "\n" + rest);
      assert ("\n" + rest)[0] == '\n' && ("\n" + rest)[1..] == rest;
      assert Lines("\n" + rest) == [""] + xs[1..];
      assert xs[0] + "" == xs[0] && xs == [xs[0]] + xs[1..];
      assert Join(xs, "\n") == xs[0] + ("\n" + rest);
    }
  }

  /** `s[:n] + "..."`: the ellipsis is appended whether or not anything was cut. */
  function Abbreviate(s: string, n: nat): (r: string)
    ensures |r| == Min(|s|, n) + 3
    ensures r[..|r| - 3] <= s
    ensures r[|r| - 3..] == "..."
    ensures |s| <= n ==> r == s + "..."
  {
    s[..Min(|s|, n)] + "..."
  }

  /** Python's `s.replace(a, b)` for one-character `a` and `b`. */
  function ReplaceChar(s: string, a: char, b: char): (r: string)
    ensures |r| == |s|
    ensures forall i :: 0 <= i < |s| ==> r[i] == (if s[i] == a then b else s[i])
    decreases |s|
  {
    if |s| == 0 then ""
    else (if s[0] == a then [b] else [s[0]]) + ReplaceChar(s[1..], a, b)
  }

  /** After the replacement no `a` is left. */
  lemma ReplaceCharRemoves(s: string, a: char, b: char)
    requires a != b
    ensures a !in ReplaceChar(s, a, b)
  {
  }

  /** Replacement works piece by piece. */
  lemma {:induction false} ReplaceCharConcat(s: string, t: string, a: char, b: char)
    ensures ReplaceChar(s + t, a, b) == ReplaceChar(s, a, b) + ReplaceChar(t, a, b)
    decreases |s|
  {
    if |s| > 0 {
      assert (s + t)[1..] == s[1..] + t;
      ReplaceCharConcat(s[1..], t, a, b);
    } else {
      assert s + t == t;
    }
  }

  /** No newline in `s` is immediately followed by a dash: no line of `s`
      after the first starts with '-'. */
  predicate NoNewlineDash(s: string) {
    forall i :: 0 <= i < |s| - 1 ==> !(s[i] == '\n' && s[i + 1] == '-')
  }

  /** An item that can be joined with ItemSeparator without creating or
      hiding a separator: it does not start with '-' and no line in it does. */
  predicate SeparatorSafe(x: string) {
    |x| > 0 && x[0] != '-' && NoNewlineDash(x)
  }

  lemma NoNewlineNoDash(s: string)
    requires '\n' !in s
    ensures NoNewlineDash(s)
  {
  }

  lemma NoNewlineDashConcat(a: string, b: string)
    requires NoNewlineDash(a) && NoNewlineDash(b)
    requires a == [] || b == [] || a[|a| - 1] != '\n' || b[0] != '-'
    ensures NoNewlineDash(a + b)
  {
    var s := a + b;
    forall i | 0 <= i < |s| - 1
      ensures !(s[i] == '\n' && s[i + 1] == '-')
    {
      if i < |a| - 1 {
        assert s[i] == a[i] && s[i + 1] == a[i + 1];
      } else if i == |a| - 1 {
        assert s[i] == a[|a| - 1] && s[i + 1] == b[0];
      } else {
        assert s[i] == b[i - |a|] && s[i + 1] == b[i + 1 - |a|];
      }
    }
  }

  lemma NoNewlineDashPrefix(s: string, n: nat)
    requires n <= |s| && NoNewlineDash(s)
    ensures NoNewlineDash(s[..n])
  {
    var p := s[..n];
    forall i | 0 <= i < |p| - 1
      ensures !(p[i] == '\n' && p[i + 1] == '-')
    {
      assert p[i] == s[i] && p[i + 1] == s[i + 1];
    }
  }

  lemma AbbreviateNoNewlineDash(s: string, n: nat)
    requires NoNewlineDash(s)
    ensures NoNewlineDash(Abbreviate(s, n))
  {
    NoNewlineDashPrefix(s, Min(|s|, n));
    NoNewlineDashConcat(s[..Min(|s|, n)], "...");
  }

  /** Joining clean pieces with a clean separator that cannot put a newline
      in front of a dash gives a clean string. */
  lemma {:induction false} JoinNoNewlineDash(xs: seq<string>, sep: string)
    requires NoNewlineDash(sep) && |sep| > 0 && sep[0] != '-'
    requires forall k :: 0 <= k < |xs| ==> NoNewlineDash(xs[k])
    requires sep[|sep| - 1] == '\n' ==> forall k :: 0 <= k < |xs| ==> |xs[k]| > 0 && xs[k][0] != '-'
    ensures NoNewlineDash(Join(xs, sep))
    decreases |xs|
  {
    if |xs| > 1 {
      var rest := Join(xs[1..], sep);
      JoinNoNewlineDash(xs[1..], sep);
      NoNewlineDashConcat(sep, rest);
      NoNewlineDashConcat(xs[0], sep + rest);
    }
  }

  /** `p` occurs in `s` starting at index `i`. */
  predicate OccursAt(s: string, p: string, i: int) {
    0 <= i && i + |p| <= |s| && s[i..i + |p|] == p
  }

  /** The number of (possibly overlapping) occurrences of `p` in `s`. */
  function Occurrences(s: string, p: string): nat
    requires |p| > 0
    decreases |s|
  {
    if |s| < |p| then 0
    else (if s[..|p|] == p then 1 else 0) + Occurrences(s[1..], p)
  }

  /** Occurrences add up over a concatenation when none straddles the seam. */
  lemma {:induction false} OccurrencesConcat(a: string, b: string, p: string)
    requires |p| > 0
    requires forall i :: 0 <= i < |a| < i + |p| ==> !OccursAt(a + b, p, i)
    ensures Occurrences(a + b, p) == Occurrences(a, p) + Occurrences(b, p)
    decreases |a|
  {
    if |a| > 0 {
      var s := a + b;
      assert s[1..] == a[1..] + b;
      forall i | 0 <= i < |a[1..]| < i + |p|
        ensures !OccursAt(a[1..] + b, p, i)
      {
        assert !OccursAt(s, p, i + 1);
        if i + |p| <= |s[1..]| {
          assert s[1..][i..i + |p|] == s[i + 1..i + 1 + |p|];
        }
      }
      OccurrencesConcat(a[1..], b, p);
      if |s| < |p| {
        assert Occurrences(s, p) == 0 == Occurrences(a, p) == Occurrences(b, p);
      } else if |a| >= |p| {
        assert s[..|p|] == a[..|p|];
      } else {
        assert !OccursAt(s, p, 0);
        assert s[0..|p|] == s[..|p|];
        assert Occurrences(a, p) == 0 == Occurrences(a[1..], p);
      }
    } else {
      assert a + b == b;
    }
  }

  lemma {:induction false} SafeHasNoSeparator(s: string)
    requires NoNewlineDash(s)
    ensures Occurrences(s, ItemSeparator) == 0
    decreases |s|
  {
    if |s| >= |ItemSeparator| {
      assert !(s[0] == '\n' && s[1] == '-');
      assert s[..|ItemSeparator|][0] == s[0] && s[..|ItemSeparator|][1] == s[1];
      assert NoNewlineDash(s[1..]) by {
        forall i | 0 <= i < |s[1..]| - 1
          ensures !(s[1..][i] == '\n' && s[1..][i + 1] == '-')
        {
          assert s[1..][i] == s[i + 1] && s[1..][i + 1] == s[i + 2];
        }
      }
      SafeHasNoSeparator(s[1..]);
    }
  }

  /** A match starts with the pattern's first two characters. */
  lemma OccursAtHead(s: string, p: string, i: int)
    requires |p| >= 2
    ensures OccursAt(s, p, i) ==> s[i] == p[0] && s[i + 1] == p[1]
  {
    if OccursAt(s, p, i) {
      assert s[i..i + |p|][0] == s[i] && s[i..i + |p|][1] == s[i + 1];
    }
  }

  lemma SeparatorOccursOnce()
    ensures Occurrences(ItemSeparator, ItemSeparator) == 1
  {
    var sep := ItemSeparator;
    assert sep[..|sep|] == sep;
    assert Occurrences(sep[1..], sep) == 0;
  }

  /** Behind a pattern shaped like the separator (newline, three dashes,
      newline), a text that does not start with '-' adds no occurrence across
      the seam. */
  lemma SeparatorSeam(sep: string, rest: string)
    requires |sep| == 5 && sep[0] == '\n' && sep[1] == '-' && sep[2] == '-' && sep[3] == '-' && sep[4] == '\n'
    requires |rest| > 0 && rest[0] != '-'
    ensures Occurrences(sep + rest, sep) == Occurrences(sep, sep) + Occurrences(rest, sep)
  {
    var s := sep + rest;
    // Only a start at the separator's final newline could match, and then the
    // rest would start with '-'.
    forall i | 0 <= i < |sep| < i + |sep|
      ensures !OccursAt(s, sep, i)
    {
      OccursAtHead(s, sep, i);
      assert s[i] == sep[i];
      assert s[i + 1] == if i < 4 then sep[i + 1] else rest[0];
    }
    OccurrencesConcat(sep, rest, sep);
  }

  /** In front of a text that does not start with '-', a text with no
      newline directly followed by '-' adds no occurrence of a pattern that
      starts with a newline and a dash, not even across the seam. */
  lemma ItemSeam(x: string, tail: string)
    requires NoNewlineDash(x) && |tail| > 0 && tail[0] != '-'
    ensures Occurrences(x + tail, ItemSeparator) == Occurrences(tail, ItemSeparator)
  {
    var s := x + tail;
    var sep := ItemSeparator;
    forall i | 0 <= i < |x| < i + |sep|
      ensures !OccursAt(s, sep, i)
    {
      OccursAtHead(s, sep, i);
      assert s[i] == x[i];
      assert s[i + 1] == if i + 1 < |x| then x[i + 1] else tail[0];
    }
    OccurrencesConcat(x, tail, sep);
    SafeHasNoSeparator(x);
  }

  /** The join of n >= 1 separator-safe items contains exactly n - 1
      separators, and the join of one item is that item. */
  lemma {:induction false} JoinSeparatorCount(xs: seq<string>)
    requires |xs| > 0
    requires forall k :: 0 <= k < |xs| ==> SeparatorSafe(xs[k])
    ensures Occurrences(Join(xs, ItemSeparator), ItemSeparator) == |xs| - 1
    ensures |xs| == 1 ==> Join(xs, ItemSeparator) == xs[0]
    decreases |xs|
  {
    var sep := ItemSeparator;
    var x := xs[0];
    if |xs| == 1 {
      SafeHasNoSeparator(x);
    } else {
      var rest := Join(xs[1..], sep);
      JoinSeparatorCount(xs[1..]);
      assert rest[0] == xs[1][0];
      SeparatorSeam(sep, rest);
      SeparatorOccursOnce();
      ItemSeam(x, sep + rest);
      assert x + sep + rest == x + (sep + rest);
    }
  }
}
