/** The string operations the generators are built from: `Array.prototype.join`,
    `String.prototype.split` with a one-character separator, and the view of a
    text as its lines. */
module Text {

  /** `parts.join(sep)`: the parts in order with `sep` between neighbours;
      the empty list joins to the empty string. */
  function Join(parts: seq<string>, sep: string): string
  {
    if |parts| == 0 then ""
    else if |parts| == 1 then parts[0]
    else parts[0] + sep + Join(parts[1..], sep)
  }

  /** `s.split(c)`: the maximal runs of `s` between occurrences of `c`,
      empty runs included, so there is always at least one piece. */
  function Split(s: string, c: char): (pieces: seq<string>)
    ensures |pieces| >= 1
  {
    if |s| == 0 then [""]
    else
      var rest := Split(s[1..], c);
      if s[0] == c then [""] + rest
      else [[s[0]] + rest[0]] + rest[1..]
  }

  /** The lines of a text: the runs between newline characters. */
  function Lines(s: string): seq<string>
  {
    Split(s, '\n')
  }

  /** The position of the first `c` in `s`, or `|s|` when there is none. */
  function IndexOf(s: string, c: char): (i: nat)
    ensures i <= |s|
    ensures forall k :: 0 <= k < i ==> s[k] != c
    ensures i < |s| ==> s[i] == c
  {
    if |s| == 0 then 0
    else if s[0] == c then 0
    else 1 + IndexOf(s[1..], c)
  }

  /** A list of blocks of lines laid out with one blank line between
      consecutive blocks. */
  function Paragraphs(blocks: seq<seq<string>>): seq<string>
  {
    if |blocks| == 0 then []
    else if |blocks| == 1 then blocks[0]
    else blocks[0] + [""] + Paragraphs(blocks[1..])
  }

  /** Three blocks laid out: each neighbour pair has a blank line between. */
  lemma ParagraphsThree(a: seq<string>, b: seq<string>, c: seq<string>)
    ensures Paragraphs([a, b, c]) == a + [""] + b + [""] + c
  {
    assert [a, b, c][1..] == [b, c];
    assert [b, c][1..] == [c];
    assert Paragraphs([b, c]) == b + [""] + c;
    assert Paragraphs([a, b, c]) == a + [""] + (b + [""] + c);
  }

  /** The lines of each of the texts, in order. */
  function LinesOfEach(texts: seq<string>): (r: seq<seq<string>>)
    ensures |r| == |texts|
    ensures forall k :: 0 <= k < |texts| ==> r[k] == Lines(texts[k])
  {
    seq(|texts|, k requires 0 <= k < |texts| => Lines(texts[k]))
  }

  /** No part contains `c`. */
  predicate NoneContains(parts: seq<string>, c: char)
  {
    forall k :: 0 <= k < |parts| ==> c !in parts[k]
  }

  // ---------------------------------------------------------------------
  // Split

  /** A text without the separator is one piece. */
  lemma {:induction false} SplitFree(s: string, c: char)
    requires c !in s
    ensures Split(s, c) == [s]
  {
    if |s| > 0 {
      assert c !in s[1..];
      SplitFree(s[1..], c);
      assert [s[0]] + s[1..] == s;
    }
  }

  /** No piece of a split contains the separator. */
  lemma {:induction false} SplitPiecesFree(s: string, c: char)
    ensures NoneContains(Split(s, c), c)
  {
    if |s| > 0 {
      SplitPiecesFree(s[1..], c);
      var rest := Split(s[1..], c);
      var r := Split(s, c);
      if s[0] == c {
        assert r == [""] + rest;
        forall k | 0 <= k < |r| ensures c !in r[k] {
          if k > 0 { assert r[k] == rest[k - 1]; }
        }
      } else {
        assert r == [[s[0]] + rest[0]] + rest[1..];
        forall k | 0 <= k < |r| ensures c !in r[k] {
          if k > 0 { assert r[k] == rest[k]; } else { assert c !in rest[0]; }
        }
      }
    }
  }

  /** A character absent from a text is absent from every piece of its
      split. */
  lemma {:induction false} SplitKeepsFree(s: string, c: char, d: char)
    requires d !in s
    ensures NoneContains(Split(s, c), d)
  {
    if |s| > 0 {
      assert d !in s[1..];
      SplitKeepsFree(s[1..], c, d);
      var rest := Split(s[1..], c);
      var r := Split(s, c);
      if s[0] == c {
        assert r == [""] + rest;
        forall k | 0 <= k < |r| ensures d !in r[k] {
          if k > 0 { assert r[k] == rest[k - 1]; }
        }
      } else {
        assert r == [[s[0]] + rest[0]] + rest[1..];
        forall k | 0 <= k < |r| ensures d !in r[k] {
          if k > 0 { assert r[k] == rest[k]; } else { assert d !in rest[0]; }
        }
      }
    }
  }

  /** A text holding the separator splits into two pieces or more. */
  lemma {:induction false} SplitSeveral(s: string, c: char)
    requires c in s
    ensures |Split(s, c)| >= 2
  {
    if s[0] != c {
      assert c in s[1..] by {
        var i :| 0 <= i < |s| && s[i] == c;
        assert s[1..][i - 1] == c;
      }
      SplitSeveral(s[1..], c);
    }
  }

  /** Splitting distributes over a separator: the text before it and the text
      after it are split independently. */
  lemma {:induction false} SplitAround(a: string, c: char, b: string)
    ensures Split(a + [c] + b, c) == Split(a, c) + Split(b, c)
  {
    var s := a + [c] + b;
    if |a| == 0 {
      assert s == [c] + b;
      assert s[1..] == b;
    } else {
      assert s[0] == a[0];
      assert s[1..] == a[1..] + [c] + b;
      SplitAround(a[1..], c, b);
      SplitStep(a, c, Split(b, c));
    }
  }

  /** The first step of a split, for a text whose rest splits into the rest
      of `a`'s pieces followed by `tail`. */
  lemma SplitStep(a: string, c: char, tail: seq<string>)
    requires |a| >= 1
    ensures var ra := Split(a[1..], c);
      (if a[0] == c then [""] + (ra + tail) else [[a[0]] + (ra + tail)[0]] + (ra + tail)[1..])
      == Split(a, c) + tail
  {
    var ra := Split(a[1..], c);
    if a[0] != c {
      assert (ra + tail)[0] == ra[0];
      assert (ra + tail)[1..] == ra[1..] + tail;
    }
  }

  /** Joining the pieces of a split with the separator gives the text back. */
  lemma {:induction false} JoinSplit(s: string, c: char)
    ensures Join(Split(s, c), [c]) == s
  {
    if |s| > 0 {
      JoinSplit(s[1..], c);
      var rest := Split(s[1..], c);
      if s[0] == c {
        assert ([""] + rest)[1..] == rest;
        assert s == [c] + s[1..];
      } else {
        var r := [[s[0]] + rest[0]] + rest[1..];
        if |rest| == 1 {
          assert s == [s[0]] + s[1..];
        } else {
          assert r[1..] == rest[1..];
          assert Join(rest, [c]) == rest[0] + [c] + Join(rest[1..], [c]);
          assert s == [s[0]] + s[1..];
        }
      }
    }
  }

  /** Splitting parts joined with the separator gives the parts back, provided
      none of them holds the separator. */
  lemma {:induction false} SplitJoin(parts: seq<string>, c: char)
    requires |parts| >= 1
    requires NoneContains(parts, c)
    ensures Split(Join(parts, [c]), c) == parts
  {
    SplitFree(parts[0], c);
    if |parts| > 1 {
      SplitJoin(parts[1..], c);
      SplitAround(parts[0], c, Join(parts[1..], [c]));
      assert parts == [parts[0]] + parts[1..];
    }
  }

  // ---------------------------------------------------------------------
  // Lines

  /** A text with no newline is a single line. */
  lemma OneLine(s: string)
    requires '\n' !in s
    ensures Lines(s) == [s]
  {
    SplitFree(s, '\n');
  }

  /** Text joined by one newline has the lines of both sides. */
  lemma LinesAround(a: string, b: string)
    ensures Lines(a + "\n" + b) == Lines(a) + Lines(b)
  {
    SplitAround(a, '\n', b);
  }

  /** Text joined by a blank line has the lines of both sides with one empty
      line between them. */
  lemma LinesAroundBlank(a: string, b: string)
    ensures Lines(a + "\n\n" + b) == Lines(a) + [""] + Lines(b)
  {
    assert a + "\n\n" + b == a + ['\n'] + ("" + ['\n'] + b);
    SplitAround(a, '\n', "" + ['\n'] + b);
    SplitAround("", '\n', b);
  }

  /** The lines of texts joined by newlines are those texts, when no text holds
      a newline itself. */
  lemma LinesOfJoin(parts: seq<string>)
    requires |parts| >= 1
    requires NoneContains(parts, '\n')
    ensures Lines(Join(parts, "\n")) == parts
  {
    assert "\n" == ['\n'];
    SplitJoin(parts, '\n');
  }

  /** Texts joined by blank lines: the lines of each, one blank line between
      consecutive texts. */
  lemma {:induction false} LinesOfJoinBlank(parts: seq<string>)
    requires |parts| >= 1
    ensures Lines(Join(parts, "\n\n")) == Paragraphs(LinesOfEach(parts))
  {
    if |parts| > 1 {
      LinesOfJoinBlank(parts[1..]);
      LinesAroundBlank(parts[0], Join(parts[1..], "\n\n"));
      assert LinesOfEach(parts)[1..] == LinesOfEach(parts[1..]);
    }
  }

  // ---------------------------------------------------------------------
  // Join

  /** A character that is in no part and not in the separator is not in the
      joined text. */
  lemma {:induction false} JoinFree(parts: seq<string>, sep: string, c: char)
    requires NoneContains(parts, c)
    requires c !in sep
    ensures c !in Join(parts, sep)
  {
    if |parts| > 1 {
      JoinFree(parts[1..], sep, c);
    }
  }

  /** A join ends with the last character of its last part, when that part is
      not empty. */
  lemma {:induction false} JoinLast(parts: seq<string>, sep: string)
    requires |parts| >= 1 && |parts[|parts| - 1]| >= 1
    ensures var j := Join(parts, sep); var p := parts[|parts| - 1];
      |j| >= 1 && j[|j| - 1] == p[|p| - 1]
  {
    if |parts| > 1 {
      JoinLast(parts[1..], sep);
    }
  }

  /** Two parts joined: the first, the separator, the second. */
  lemma JoinTwo(a: string, b: string, sep: string)
    ensures Join([a, b], sep) == a + sep + b
  {
    assert [a, b][1..] == [b];
  }

  /** Three parts joined: each neighbour pair has a separator between. */
  lemma JoinThree(a: string, b: string, c: string, sep: string)
    ensures Join([a, b, c], sep) == a + sep + b + sep + c
  {
    assert [a, b, c][1..] == [b, c];
    JoinTwo(b, c, sep);
  }

  // ---------------------------------------------------------------------
  // IndexOf

  /** The first `c` in `t + rest` is at `|t|` when `t` has none and `rest`
      is empty or starts with `c`. */
  lemma {:induction false} IndexOfAfter(t: string, c: char, rest: string)
    requires c !in t
    requires rest == [] || rest[0] == c
    ensures IndexOf(t + rest, c) == |t|
  {
    if |t| == 0 {
      assert t + rest == rest;
    } else {
      assert t[0] in t;
      assert (t + rest)[1..] == t[1..] + rest;
      IndexOfAfter(t[1..], c, rest);
    }
  }
}
