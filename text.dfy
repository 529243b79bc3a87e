/** The string operations the decoder and the bone-name rules use, with the
    meaning they have in Python: `p in s`, `s.startswith(p)`, `s.endswith(p)`
    and `s.replace(a, b)`. */
module Text {

  predicate StartsWith(s: string, p: string)
  {
    |p| <= |s| && s[..|p|] == p
  }

  predicate EndsWith(s: string, p: string)
  {
    |p| <= |s| && s[|s| - |p|..] == p
  }

  /** `p in s`: p occurs somewhere in s. */
  predicate Contains(s: string, p: string)
    decreases |s|
  {
    StartsWith(s, p) || (s != [] && Contains(s[1..], p))
  }

  /** `s.replace(a, b)`: every occurrence of a, found scanning from the left
      without overlaps, replaced by b. */
  function ReplaceAll(s: string, a: string, b: string): string
    requires a != []
    decreases |s|
  {
    if s == [] then []
    else if StartsWith(s, a) then b + ReplaceAll(s[|a|..], a, b)
    else [s[0]] + ReplaceAll(s[1..], a, b)
  }

  /** The two-character pattern `_` followed by x. */
  function Tag(x: char): string
  {
    ['_', x]
  }

  lemma ContainsTail(c: char, s: string, p: string)
    requires Contains(s, p)
    ensures Contains([c] + s, p)
  {
    assert ([c] + s)[1..] == s;
  }

  lemma ContainsPrefix(s: string, p: string)
    ensures Contains(p + s, p)
  {
    assert (p + s)[..|p|] == p;
  }

  lemma {:induction false} ContainsAppend(s: string, t: string, p: string)
    requires Contains(s, p)
    ensures Contains(s + t, p)
    decreases |s|
  {
    if StartsWith(s, p) {
      assert (s + t)[..|p|] == s[..|p|];
    } else {
      assert (s + t)[1..] == s[1..] + t;
      ContainsAppend(s[1..], t, p);
    }
  }

  /** Replacing a pattern that does not occur changes nothing. */
  lemma {:induction false} ReplaceAbsent(s: string, a: string, b: string)
    requires a != [] && !Contains(s, a)
    ensures ReplaceAll(s, a, b) == s
    decreases |s|
  {
    if s != [] {
      ReplaceAbsent(s[1..], a, b);
    }
  }

  /** Replacing with a pattern of the same length keeps the length. */
  lemma {:induction false} ReplaceKeepsLength(s: string, a: string, b: string)
    requires a != [] && |a| == |b|
    ensures |ReplaceAll(s, a, b)| == |s|
    decreases |s|
  {
    if s != [] {
      if StartsWith(s, a) {
        ReplaceKeepsLength(s[|a|..], a, b);
      } else {
        ReplaceKeepsLength(s[1..], a, b);
      }
    }
  }

  /** If a occurs in s, then b occurs in the result of replacing a by b. */
  lemma {:induction false} ReplaceIntroduces(s: string, a: string, b: string)
    requires a != [] && Contains(s, a)
    ensures Contains(ReplaceAll(s, a, b), b)
    decreases |s|
  {
    if StartsWith(s, a) {
      ContainsPrefix(ReplaceAll(s[|a|..], a, b), b);
    } else {
      ReplaceIntroduces(s[1..], a, b);
      ContainsTail(s[0], ReplaceAll(s[1..], a, b), b);
    }
  }

  /** The first character of a replacement result. */
  lemma ReplaceTagHead(s: string, x: char, y: char)
    requires s != []
    ensures ReplaceAll(s, Tag(x), Tag(y)) != []
    ensures ReplaceAll(s, Tag(x), Tag(y))[0] == s[0]
  {
  }

  /** After replacing every `_x` by `_y` no `_x` is left. */
  lemma {:induction false} ReplaceTagRemoves(s: string, x: char, y: char)
    requires x != '_' && y != '_' && x != y
    ensures !Contains(ReplaceAll(s, Tag(x), Tag(y)), Tag(x))
    decreases |s|
  {
    if s != [] {
      var r := ReplaceAll(s, Tag(x), Tag(y));
      if StartsWith(s, Tag(x)) {
        var rest := ReplaceAll(s[2..], Tag(x), Tag(y));
        ReplaceTagRemoves(s[2..], x, y);
        assert r == Tag(y) + rest;
        assert r[1..] == [y] + rest;
        assert ([y] + rest)[1..] == rest;
      } else {
        var rest := ReplaceAll(s[1..], Tag(x), Tag(y));
        ReplaceTagRemoves(s[1..], x, y);
        assert r == [s[0]] + rest;
        assert r[1..] == rest;
        if |rest| > 0 {
          ReplaceTagHead(s[1..], x, y);
        }
      }
    }
  }

  /** A leading occurrence is replaced and the scan resumes after it. */
  lemma ReplaceLeading(a: string, t: string, b: string)
    requires a != []
    ensures ReplaceAll(a + t, a, b) == b + ReplaceAll(t, a, b)
  {
    assert (a + t)[..|a|] == a;
    assert (a + t)[|a|..] == t;
  }

  /** A character that starts no occurrence is kept. */
  lemma ReplaceNotLeading(c: char, t: string, a: string, b: string)
    requires a != [] && !StartsWith([c] + t, a)
    ensures ReplaceAll([c] + t, a, b) == [c] + ReplaceAll(t, a, b)
  {
    assert ([c] + t)[1..] == t;
  }

  /** Replacing `_x` by `_y` and then `_y` by `_x` restores a string that had no `_y`. */
  lemma {:induction false} ReplaceTagRoundTrip(s: string, x: char, y: char)
    requires y != '_' && !Contains(s, Tag(y))
    ensures ReplaceAll(ReplaceAll(s, Tag(x), Tag(y)), Tag(y), Tag(x)) == s
    decreases |s|
  {
    if s != [] {
      if StartsWith(s, Tag(x)) {
        var t := s[2..];
        assert s == Tag(x) + t;
        assert !Contains(t, Tag(y)) by {
          assert s[1..][1..] == t;
        }
        ReplaceTagRoundTrip(t, x, y);
        ReplaceLeading(Tag(x), t, Tag(y));
        ReplaceLeading(Tag(y), ReplaceAll(t, Tag(x), Tag(y)), Tag(x));
      } else {
        var t := s[1..];
        assert s == [s[0]] + t;
        ReplaceTagRoundTrip(t, x, y);
        ReplaceNotLeading(s[0], t, Tag(x), Tag(y));
        var rest := ReplaceAll(t, Tag(x), Tag(y));
        if t != [] {
          ReplaceTagHead(t, x, y);
          assert !StartsWith([s[0]] + rest, Tag(y)) by {
            assert ([s[0]] + rest)[1] == t[0];
          }
        }
        ReplaceNotLeading(s[0], rest, Tag(y), Tag(x));
      }
    }
  }

  /** A suffix survives putting something in front. */
  lemma EndsWithPrepend(p: string, s: string, t: string)
    requires EndsWith(s, t)
    ensures EndsWith(p + s, t)
  {
    assert (p + s)[|p + s| - |t|..] == s[|s| - |t|..];
  }

  /** A suffix survives dropping leading characters that are not part of it. */
  lemma EndsWithDrop(s: string, k: nat, t: string)
    requires EndsWith(s, t) && k + |t| <= |s|
    ensures EndsWith(s[k..], t)
  {
    assert s[k..][|s[k..]| - |t|..] == s[|s| - |t|..];
  }

  /** A string ending in `_x` still ends in a tag after `_x` is replaced by `_y`:
      the final occurrence cannot overlap an earlier one. */
  lemma {:induction false} ReplaceTagSuffix(s: string, x: char, y: char)
    requires x != '_' && EndsWith(s, Tag(x))
    ensures EndsWith(ReplaceAll(s, Tag(x), Tag(y)), Tag(y))
    decreases |s|
  {
    if |s| == 2 {
      assert s == Tag(x);
      assert ReplaceAll(s, Tag(x), Tag(y)) == Tag(y) + ReplaceAll([], Tag(x), Tag(y));
    } else if StartsWith(s, Tag(x)) {
      assert s[|s| - 2] == '_' && s[1] == x;
      EndsWithDrop(s, 2, Tag(x));
      ReplaceTagSuffix(s[2..], x, y);
      EndsWithPrepend(Tag(y), ReplaceAll(s[2..], Tag(x), Tag(y)), Tag(y));
    } else {
      EndsWithDrop(s, 1, Tag(x));
      ReplaceTagSuffix(s[1..], x, y);
      EndsWithPrepend([s[0]], ReplaceAll(s[1..], Tag(x), Tag(y)), Tag(y));
    }
  }

  /** A suffix of s occurs in s. */
  lemma {:induction false} ContainsSuffix(s: string, t: string)
    requires EndsWith(s, t)
    ensures Contains(s, t)
    decreases |s|
  {
    if |s| > |t| {
      EndsWithDrop(s, 1, t);
      ContainsSuffix(s[1..], t);
    } else {
      assert s[..|t|] == s[|s| - |t|..];
    }
  }

  /** A string containing p contains every prefix of p. */
  lemma {:induction false} ContainsPrefixOf(s: string, p: string, q: string)
    requires Contains(s, p) && StartsWith(p, q)
    ensures Contains(s, q)
    decreases |s|
  {
    if StartsWith(s, p) {
      assert s[..|q|] == p[..|q|];
    } else {
      ContainsPrefixOf(s[1..], p, q);
    }
  }

  /** A pattern whose second character is not in s does not occur in s. */
  lemma {:induction false} AbsentChar(s: string, a: string)
    requires |a| >= 2 && a[1] !in s
    ensures !Contains(s, a)
    decreases |s|
  {
    if s != [] {
      assert a[1] !in s[1..] by {
        forall k | 0 <= k < |s[1..]|
          ensures s[1..][k] != a[1]
        {
          assert s[1..][k] == s[k + 1];
        }
      }
      AbsentChar(s[1..], a);
    }
  }

  /** Characters of p at which no occurrence starts pass through unchanged. */
  lemma {:induction false} ReplacePast(p: string, t: string, a: string, b: string)
    requires a != [] && forall k :: 0 <= k < |p| ==> !StartsWith((p + t)[k..], a)
    ensures ReplaceAll(p + t, a, b) == p + ReplaceAll(t, a, b)
    decreases |p|
  {
    if p != [] {
      assert (p + t)[0..] == p + t;
      assert p + t == [p[0]] + (p[1..] + t);
      ReplaceNotLeading(p[0], p[1..] + t, a, b);
      forall k | 0 <= k < |p[1..]|
        ensures !StartsWith((p[1..] + t)[k..], a)
      {
        assert (p[1..] + t)[k..] == (p + t)[k + 1..];
      }
      ReplacePast(p[1..], t, a, b);
      assert p == [p[0]] + p[1..];
    }
  }
}
