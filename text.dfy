/** String operations the generator relies on: the replace-all of
    StringBuilder.Replace, TrimEnd of one character, and comma lists. */
module Text {

  /** `pat` occurs in `s` starting at index `i`. */
  predicate OccursAt(s: string, pat: string, i: nat)
  {
    i + |pat| <= |s| && s[i..i + |pat|] == pat
  }

  /** `pat` occurs somewhere in `s`. */
  predicate Contains(s: string, pat: string)
  {
    exists i: nat | i <= |s| :: OccursAt(s, pat, i)
  }

  predicate EndsWith(s: string, suffix: string)
  {
    |suffix| <= |s| && s[|s| - |suffix|..] == suffix
  }

  /** A pattern placed between two texts occurs right after the first. */
  lemma OccursBetween(a: string, pat: string, b: string)
    ensures OccursAt(a + pat + b, pat, |a|)
    ensures Contains(a + pat + b, pat)
  {
    var s := a + pat + b;
    assert s[|a|..|a| + |pat|] == pat;
    assert OccursAt(s, pat, |a|) && |a| <= |s|;
  }

  /** No proper prefix of `pat` is also a suffix of it, so two occurrences
      of `pat` can never overlap. */
  predicate BorderFree(pat: string)
  {
    forall k: nat :: 0 < k < |pat| ==> pat[..k] != pat[|pat| - k..]
  }

  /** Replace every occurrence of `pat` by `rep`, scanning left to right and
      never rescanning replaced text (StringBuilder.Replace). */
  function ReplaceAll(s: string, pat: string, rep: string): string
    requires |pat| > 0
    decreases |s|
  {
    if |s| < |pat| then s
    else if s[..|pat|] == pat then rep + ReplaceAll(s[|pat|..], pat, rep)
    else [s[0]] + ReplaceAll(s[1..], pat, rep)
  }

  /** Text without an occurrence of the pattern is left as it is. */
  lemma {:induction false} ReplaceAllAbsent(s: string, pat: string, rep: string)
    requires |pat| > 0
    ensures !Contains(s, pat) ==> ReplaceAll(s, pat, rep) == s
    decreases |s|
  {
    if |s| >= |pat| {
      if s[..|pat|] == pat {
        assert OccursAt(s, pat, 0);
      } else {
        if Contains(s[1..], pat) {
          var i: nat :| i <= |s[1..]| && OccursAt(s[1..], pat, i);
          assert s[i + 1..i + 1 + |pat|] == s[1..][i..i + |pat|];
          assert OccursAt(s, pat, i + 1);
        }
        ReplaceAllAbsent(s[1..], pat, rep);
        assert s == [s[0]] + s[1..];
      }
    }
  }

  /** Text followed by a proper prefix `t` of a border-free pattern, or by
      the whole pattern: the rewrite of the text is unaffected and the tail is
      copied, or replaced when it is the pattern itself. */
  lemma {:induction false} ReplaceAllAppend(x: string, t: string, pat: string, rep: string)
    requires |pat| > 0 && BorderFree(pat) && t <= pat
    ensures ReplaceAll(x + t, pat, rep)
            == ReplaceAll(x, pat, rep) + (if t == pat then rep else t)
    decreases |x|
  {
    var s := x + t;
    if |x| == 0 {
      assert s == t;
      if t == pat {
        ReplaceAllMatch(s, pat, rep);
        assert s[|pat|..] == [];
      }
    } else if |s| < |pat| {
      assert t != pat;
    } else if s[..|pat|] == pat {
      if |x| >= |pat| {
        assert x[..|pat|] == s[..|pat|];
        assert s[|pat|..] == x[|pat|..] + t;
        ReplaceAllAppend(x[|pat|..], t, pat, rep);
        ReplaceAllMatch(x, pat, rep);
        ReplaceAllMatch(s, pat, rep);
      } else {
        OverlapIsBorder(x, t, pat);
        assert false;
      }
    } else {
      assert s[1..] == x[1..] + t;
      ReplaceAllAppend(x[1..], t, pat, rep);
      ReplaceAllSkip(s, pat, rep);
      assert |x| < |pat| || x[..|pat|] == s[..|pat|];
      ReplaceAllSkip(x, pat, rep);
    }
  }

  /** A match of `pat` starting inside `x` and running on into a `t` that
      begins the way `pat` does makes the overlap a border of `pat`. */
  lemma OverlapIsBorder(x: string, t: string, pat: string)
    ensures 0 < |x| < |pat| <= |x + t| && (x + t)[..|pat|] == pat
            && t[..|pat| - |x|] == pat[..|pat| - |x|]
            ==> pat[..|pat| - |x|] == pat[|pat| - (|pat| - |x|)..]
  {
    if 0 < |x| < |pat| <= |x + t| && (x + t)[..|pat|] == pat && t[..|pat| - |x|] == pat[..|pat| - |x|] {
      var k := |pat| - |x|;
      assert pat[|x|..] == (x + t)[|x|..|pat|] == t[..k];
    }
  }

  /** An occurrence of a border-free pattern splits the rewrite in two. */
  lemma ReplaceAllSplit(x: string, y: string, pat: string, rep: string)
    requires |pat| > 0 && BorderFree(pat)
    ensures ReplaceAll(x + pat + y, pat, rep)
            == ReplaceAll(x, pat, rep) + rep + ReplaceAll(y, pat, rep)
  {
    var t := pat + y;
    assert t[..|pat|] == pat && t[|pat|..] == y;
    ReplaceAllBeforeMatch(x, t, pat, rep);
    ReplaceAllMatch(t, pat, rep);
    assert x + pat + y == x + t;
  }

  /** Text followed by a match of a border-free pattern: the rewrite of the
      text ends where the match begins. */
  lemma {:induction false} ReplaceAllBeforeMatch(x: string, t: string, pat: string, rep: string)
    requires 0 < |pat| <= |t| && BorderFree(pat) && t[..|pat|] == pat
    ensures ReplaceAll(x + t, pat, rep) == ReplaceAll(x, pat, rep) + ReplaceAll(t, pat, rep)
    decreases |x|
  {
    var s := x + t;
    if |x| == 0 {
      assert s == t;
    } else if s[..|pat|] == pat {
      if |x| >= |pat| {
        assert x[..|pat|] == s[..|pat|];
        assert s[|pat|..] == x[|pat|..] + t;
        ReplaceAllBeforeMatch(x[|pat|..], t, pat, rep);
        ReplaceAllMatch(x, pat, rep);
        ReplaceAllMatch(s, pat, rep);
      } else {
        OverlapIsBorder(x, t, pat);
        assert false;
      }
    } else {
      assert s[1..] == x[1..] + t;
      ReplaceAllBeforeMatch(x[1..], t, pat, rep);
      ReplaceAllSkip(s, pat, rep);
      assert |x| < |pat| || x[..|pat|] == s[..|pat|];
      ReplaceAllSkip(x, pat, rep);
    }
  }

  /** No occurrence of `pat` can start inside `m`, whatever follows it: no
      suffix of `m` is a prefix of `pat`, nor the other way round. */
  predicate StartsNowhere(m: string, pat: string)
  {
    forall i | 0 <= i < |m| :: !(m[i..] <= pat) && !(pat <= m[i..])
  }

  /** No occurrence of `pat` that starts before `m` can reach into it: no
      proper suffix of `pat` is a prefix of `m`, nor the other way round. */
  predicate EndsNowhere(m: string, pat: string)
  {
    forall j | 0 < j < |pat| :: !(pat[j..] <= m) && !(m <= pat[j..])
  }

  /** A piece that no occurrence of the pattern starts in is copied
      unchanged, and the rewrite goes on after it. */
  lemma {:induction false} ReplaceAllPieceFirst(m: string, y: string, pat: string, rep: string)
    requires |pat| > 0 && StartsNowhere(m, pat)
    ensures ReplaceAll(m + y, pat, rep) == m + ReplaceAll(y, pat, rep)
    decreases |m|
  {
    var s := m + y;
    if |m| == 0 {
      assert s == y;
    } else {
      assert m[0..] == m;
      if |pat| <= |s| && s[..|pat|] == pat {
        StartingMatch(m, y, pat);
        assert false;
      }
      ReplaceAllSkip(s, pat, rep);
      forall i | 0 <= i < |m[1..]|
        ensures !(m[1..][i..] <= pat) && !(pat <= m[1..][i..])
      {
        assert m[1..][i..] == m[i + 1..];
      }
      assert s[1..] == m[1..] + y;
      ReplaceAllPieceFirst(m[1..], y, pat, rep);
      assert s[0] == m[0] && m == [m[0]] + m[1..];
    }
  }

  /** A match at the front of `m + y` makes `m` and the pattern prefixes of
      one another. */
  lemma StartingMatch(m: string, y: string, pat: string)
    ensures |pat| <= |m + y| && (m + y)[..|pat|] == pat ==> m <= pat || pat <= m
  {
    var s := m + y;
    if |pat| <= |s| && s[..|pat|] == pat {
      if |m| >= |pat| {
        assert m[..|pat|] == s[..|pat|];
      } else {
        assert m == s[..|m|] == pat[..|m|];
      }
    }
  }

  /** A match at the front of `x + t` that starts in a non-empty `x` and
      runs past it makes the rest of the pattern a prefix of `t`. */
  lemma CrossingMatch(x: string, t: string, pat: string)
    ensures 0 < |x| < |pat| <= |x + t| && (x + t)[..|pat|] == pat
            ==> pat[|x|..] <= t
  {
    var s := x + t;
    if 0 < |x| < |pat| <= |s| && s[..|pat|] == pat {
      var j := |x|;
      assert s[j..] == t;
      assert pat[j..] == s[j..|pat|] == t[..|pat| - j];
    }
  }

  /** Whatever follows a piece the pattern cannot reach into, the pattern
      cannot reach into the longer text either. */
  lemma EndsNowhereExtend(m: string, y: string, pat: string)
    requires EndsNowhere(m, pat)
    ensures EndsNowhere(m + y, pat)
  {
    forall j | 0 < j < |pat|
      ensures !(pat[j..] <= m + y) && !(m + y <= pat[j..])
    {
      PrefixOfLonger(pat[j..], m, y);
    }
  }

  /** A prefix of `m + y` is a prefix of `m` or has `m` as a prefix, and so
      does any text that `m + y` is a prefix of. */
  lemma PrefixOfLonger(a: string, m: string, y: string)
    ensures a <= m + y ==> a <= m || m <= a
    ensures m + y <= a ==> m <= a
  {
    if a <= m + y {
      if |a| <= |m| {
        assert a == (m + y)[..|a|] == m[..|a|];
      } else {
        assert m == (m + y)[..|m|] == a[..|m|];
      }
    }
    if m + y <= a {
      assert m == (m + y)[..|m|] == a[..|m|];
    }
  }

  /** Text followed by a piece the pattern cannot reach into from the left:
      the two are rewritten separately. */
  lemma {:induction false} ReplaceAllBeforePiece(x: string, t: string, pat: string, rep: string)
    requires |pat| > 0 && EndsNowhere(t, pat)
    ensures ReplaceAll(x + t, pat, rep) == ReplaceAll(x, pat, rep) + ReplaceAll(t, pat, rep)
    decreases |x|
  {
    var s := x + t;
    if |x| == 0 {
      assert s == t;
    } else if |pat| <= |s| && s[..|pat|] == pat {
      if |x| >= |pat| {
        assert x[..|pat|] == s[..|pat|];
        assert s[|pat|..] == x[|pat|..] + t;
        ReplaceAllBeforePiece(x[|pat|..], t, pat, rep);
        ReplaceAllMatch(x, pat, rep);
        ReplaceAllMatch(s, pat, rep);
      } else {
        CrossingMatch(x, t, pat);
        assert false;
      }
    } else {
      assert s[1..] == x[1..] + t;
      ReplaceAllBeforePiece(x[1..], t, pat, rep);
      ReplaceAllSkip(s, pat, rep);
      assert |x| < |pat| || x[..|pat|] == s[..|pat|];
      ReplaceAllSkip(x, pat, rep);
    }
  }

  /** A piece the pattern can neither start in nor reach into from the left
      splits the rewrite in two and survives it unchanged. */
  lemma ReplaceAllAround(x: string, m: string, y: string, pat: string, rep: string)
    requires |pat| > 0 && StartsNowhere(m, pat) && EndsNowhere(m, pat)
    ensures ReplaceAll(x + m + y, pat, rep)
            == ReplaceAll(x, pat, rep) + m + ReplaceAll(y, pat, rep)
  {
    EndsNowhereExtend(m, y, pat);
    ReplaceAllBeforePiece(x, m + y, pat, rep);
    ReplaceAllPieceFirst(m, y, pat, rep);
    assert x + m + y == x + (m + y);
  }

  /** Unfolding the rewrite at a match. */
  lemma ReplaceAllMatch(s: string, pat: string, rep: string)
    requires 0 < |pat| <= |s| && s[..|pat|] == pat
    ensures ReplaceAll(s, pat, rep) == rep + ReplaceAll(s[|pat|..], pat, rep)
  {
  }

  /** Unfolding the rewrite where no match starts: the first character is
      copied. */
  lemma ReplaceAllSkip(s: string, pat: string, rep: string)
    requires 0 < |pat| && 0 < |s| && !(|pat| <= |s| && s[..|pat|] == pat)
    ensures ReplaceAll(s, pat, rep) == [s[0]] + ReplaceAll(s[1..], pat, rep)
  {
    if |s| < |pat| {
      assert s == [s[0]] + s[1..];
    }
  }

  /** Strip every trailing occurrence of `c` (String.TrimEnd(c)). */
  function TrimEnd(s: string, c: char): (r: string)
    ensures r <= s
    ensures |r| == 0 || r[|r| - 1] != c
    ensures forall i :: |r| <= i < |s| ==> s[i] == c
    decreases |s|
  {
    if |s| > 0 && s[|s| - 1] == c then TrimEnd(s[..|s| - 1], c) else s
  }

  /** The items joined with `sep` between consecutive items and nothing after
      the last. */
  function Join(items: seq<string>, sep: string): string
    decreases |items|
  {
    if |items| == 0 then ""
    else if |items| == 1 then items[0]
    else items[0] + sep + Join(items[1..], sep)
  }

  /** Appending one item to a join adds the separator and then the item. */
  lemma {:induction false} JoinSnoc(items: seq<string>, x: string, sep: string)
    requires |items| > 0
    ensures Join(items + [x], sep) == Join(items, sep) + sep + x
    decreases |items|
  {
    if |items| > 1 {
      assert (items + [x])[1..] == items[1..] + [x];
      JoinSnoc(items[1..], x, sep);
    } else {
      assert (items + [x])[1..] == [x];
    }
  }

  /** The join of one more item of a sequence, as a loop over it extends it. */
  lemma JoinPrefixStep(items: seq<string>, i: nat, sep: string)
    requires i < |items|
    ensures Join(items[..i + 1], sep)
            == if i == 0 then items[0] else Join(items[..i], sep) + sep + items[i]
  {
    if i == 0 {
      assert items[..1] == [items[0]];
    } else {
      assert items[..i + 1] == items[..i] + [items[i]];
      JoinSnoc(items[..i], items[i], sep);
    }
  }

  /** Every item followed by `sep`: what a loop of `result += item + sep`
      accumulates. */
  function Terminated(items: seq<string>, sep: string): string
    decreases |items|
  {
    if |items| == 0 then "" else Terminated(items[..|items| - 1], sep) + items[|items| - 1] + sep
  }

  /** A comma list as the generator builds it: every item followed by a comma,
      then all trailing commas trimmed. */
  function CommaList(items: seq<string>): string
  {
    TrimEnd(Terminated(items, ","), ',')
  }

  lemma {:induction false} TerminatedIsJoin(items: seq<string>, sep: string)
    requires |items| > 0
    ensures Terminated(items, sep) == Join(items, sep) + sep
    decreases |items|
  {
    var n := |items|;
    if n > 1 {
      var init := items[..n - 1];
      TerminatedIsJoin(init, sep);
      assert items == init + [items[n - 1]];
      JoinSnoc(init, items[n - 1], sep);
    }
  }

  /** Trimming is unaffected by one more trailing `c`. */
  lemma TrimEndAppend(s: string, c: char)
    ensures TrimEnd(s + [c], c) == TrimEnd(s, c)
  {
    assert (s + [c])[..|s|] == s;
  }

  /** Trimming leaves a string unchanged exactly when it does not end in `c`. */
  lemma TrimEndIdentity(s: string, c: char)
    ensures TrimEnd(s, c) == s <==> !(|s| > 0 && s[|s| - 1] == c)
  {
  }

  /** No items, no text. */
  lemma CommaListEmpty()
    ensures CommaList([]) == ""
  {
  }

  /** A comma list of a non-empty sequence is the plain comma join exactly
      when that join does not itself end in a comma. */
  lemma CommaListIsJoin(items: seq<string>)
    requires |items| > 0
    ensures CommaList(items) == TrimEnd(Join(items, ","), ',')
    ensures CommaList(items) == Join(items, ",")
            <==> !EndsWith(Join(items, ","), ",")
  {
    TerminatedIsJoin(items, ",");
    TrimEndAppend(Join(items, ","), ',');
    TrimEndIdentity(Join(items, ","), ',');
    var j := Join(items, ",");
    assert EndsWith(j, ",") <==> |j| > 0 && j[|j| - 1] == ',' by {
      if |j| > 0 { assert j[|j| - 1..] == [j[|j| - 1]]; }
    }
  }

  /** The join ends with its last item (when that item is non-empty). */
  lemma {:induction false} JoinLast(items: seq<string>, sep: string)
    requires |items| > 0
    ensures EndsWith(Join(items, sep), items[|items| - 1])
    decreases |items|
  {
    if |items| > 1 {
      JoinLast(items[1..], sep);
      var j := Join(items[1..], sep);
      var last := items[|items| - 1];
      assert Join(items, sep) == items[0] + sep + j;
      assert (items[0] + sep + j)[|items[0] + sep + j| - |last|..] == j[|j| - |last|..];
    }
  }

  /** The usual reading: when the last item is non-empty and does not end in a
      comma, the comma list is the plain comma join. */
  lemma CommaListPlainJoin(items: seq<string>)
    requires |items| > 0
    requires |items[|items| - 1]| > 0 && !EndsWith(items[|items| - 1], ",")
    ensures CommaList(items) == Join(items, ",")
  {
    CommaListIsJoin(items);
    var j := Join(items, ",");
    var last := items[|items| - 1];
    JoinLast(items, ",");
    assert j[|j| - 1] == last[|last| - 1];
    if EndsWith(j, ",") {
      assert false;
    }
  }

  /** TrimEnd strips every trailing comma, not just the one the loop added:
      an empty final item is trimmed away together with its comma, and a final
      item that ends in a comma loses that comma. */
  lemma CommaListTrimsTrailingCommas()
    ensures CommaList(["a", ""]) == "a" && Join(["a", ""], ",") == "a,"
    ensures CommaList(["a", "b,"]) == "a,b" && Join(["a", "b,"], ",") == "a,b,"
  {
    EmptyLastTrimmed();
    CommaLastTrimmed();
  }

  /** The comma list of ["a", ""], evaluated step by step. */
  lemma EmptyLastTrimmed()
    ensures CommaList(["a", ""]) == "a"
  {
    assert Terminated(["a"], ",") == "a,";
    assert Terminated(["a", ""], ",") == "a,,";
    assert TrimEnd("a,,", ',') == TrimEnd("a,", ',') == TrimEnd("a", ',');
  }

  /** The comma list of ["a", "b,"], evaluated step by step. */
  lemma CommaLastTrimmed()
    ensures CommaList(["a", "b,"]) == "a,b"
  {
    assert Terminated(["a"], ",") == "a,";
    assert Terminated(["a", "b,"], ",") == "a,b,,";
    assert TrimEnd("a,b,,", ',') == TrimEnd("a,b,", ',') == TrimEnd("a,b", ',');
  }
}
