/**
  Python `str` operations used by the summariser, on `seq<char>`:
  whitespace as `str.isspace` sees it, `rstrip()`/`strip()`,
  `split(sep)` with a one-character separator, `sep.join(...)`,
  the code-point order that `<` on `str` uses, and ASCII `upper()`.
*/
module Text {
  import opened Seqs

  /** The characters for which Python's `str.isspace()` is true. */
  predicate IsSpace(c: char)
  {
    || c == ' ' || c == '\t' || c == '\n' || c == '\r'
    || c == '\U{000B}' || c == '\U{000C}'
    || ('\U{001C}' <= c <= '\U{001F}')
    || c == '\U{0085}' || c == '\U{00A0}' || c == '\U{1680}'
    || ('\U{2000}' <= c <= '\U{200A}')
    || c == '\U{2028}' || c == '\U{2029}' || c == '\U{202F}'
    || c == '\U{205F}' || c == '\U{3000}'
  }

  predicate IsVisible(c: char)
  {
    !IsSpace(c)
  }

  /** True of `s` when `s.strip()` is empty, i.e. `not s.strip()`. */
  predicate IsBlank(s: string)
  {
    forall i :: 0 <= i < |s| ==> IsSpace(s[i])
  }

  lemma NotBlankAt(s: string, i: nat)
    requires i < |s| && !IsSpace(s[i])
    ensures !IsBlank(s)
  {
  }

  /** A concatenation is blank exactly when both halves are. */
  lemma BlankAppend(a: string, b: string)
    ensures IsBlank(a + b) <==> IsBlank(a) && IsBlank(b)
  {
    assert forall k :: 0 <= k < |a| ==> (a + b)[k] == a[k];
    assert forall k :: 0 <= k < |b| ==> (a + b)[|a| + k] == b[k];
  }

  /** `s.rstrip()`: the longest prefix of `s` that does not end in whitespace. */
  function RStrip(s: string): (r: string)
    ensures r <= s
    ensures r == "" || !IsSpace(r[|r| - 1])
    ensures forall i :: |r| <= i < |s| ==> IsSpace(s[i])
  {
    if s == [] || !IsSpace(s[|s| - 1]) then s else RStrip(s[..|s| - 1])
  }

  /** `s.lstrip()`: the longest suffix of `s` that does not start with whitespace. */
  function LStrip(s: string): (r: string)
    ensures |r| <= |s| && r == s[|s| - |r|..]
    ensures r == "" || !IsSpace(r[0])
    ensures forall i :: 0 <= i < |s| - |r| ==> IsSpace(s[i])
  {
    if s == [] || !IsSpace(s[0]) then s else LStrip(s[1..])
  }

  /** `s.strip()` */
  function Strip(s: string): string
  {
    LStrip(RStrip(s))
  }

  lemma StripEmptyIffBlank(s: string)
    ensures Strip(s) == "" <==> IsBlank(s)
  {
    var r := RStrip(s);
    assert forall k :: 0 <= k < |r| ==> r[k] == s[k];
    if !IsBlank(s) {
      var i :| 0 <= i < |s| && !IsSpace(s[i]);
      assert i < |r|;
      assert r[i] == s[i];
      assert |LStrip(r)| > 0;
    }
  }

  /** The text with every whitespace character removed. */
  function NoSpace(s: string): string
  {
    Filter(s, IsVisible)
  }

  lemma NoSpaceAppend(a: string, b: string)
    ensures NoSpace(a + b) == NoSpace(a) + NoSpace(b)
  {
    FilterAppend(a, b, IsVisible);
  }

  lemma NoSpaceOfBlank(s: string)
    requires IsBlank(s)
    ensures NoSpace(s) == ""
  {
    FilterNone(s, IsVisible);
  }

  lemma NoSpaceOfRStrip(s: string)
    ensures NoSpace(RStrip(s)) == NoSpace(s)
  {
    var r := RStrip(s);
    assert s == r + s[|r|..];
    NoSpaceAppend(r, s[|r|..]);
    NoSpaceOfBlank(s[|r|..]);
  }

  /** A text is blank exactly when nothing is left once whitespace is removed. */
  lemma BlankIffNoSpaceEmpty(s: string)
    ensures IsBlank(s) <==> NoSpace(s) == ""
  {
    if IsBlank(s) {
      NoSpaceOfBlank(s);
    } else {
      var i :| 0 <= i < |s| && !IsSpace(s[i]);
      assert s[i] in NoSpace(s);
    }
  }

  lemma {:induction false} ConcatBlank(ls: seq<string>)
    ensures IsBlank(Concat(ls)) <==> forall k :: 0 <= k < |ls| ==> IsBlank(ls[k])
    decreases |ls|
  {
    if ls != [] {
      var init := ls[..|ls| - 1];
      var last := ls[|ls| - 1];
      ConcatBlank(init);
      var c := Concat(ls);
      assert c == Concat(init) + last;
      assert IsBlank(c) <==> IsBlank(Concat(init)) && IsBlank(last) by {
        assert forall k :: 0 <= k < |Concat(init)| ==> c[k] == Concat(init)[k];
        assert forall k :: 0 <= k < |last| ==> c[|Concat(init)| + k] == last[k];
      }
      assert forall k :: 0 <= k < |init| ==> init[k] == ls[k];
    }
  }

  /** Whatever follows, `s.rstrip()` is a prefix of `(s + t).rstrip()`. */
  lemma RStripPrefix(s: string, t: string)
    ensures RStrip(s) <= RStrip(s + t)
  {
    var q := RStrip(s);
    assert forall k :: 0 <= k < |q| ==> (s + t)[k] == q[k];
    assert forall k :: 0 <= k < |RStrip(s + t)| ==> (s + t)[k] == RStrip(s + t)[k];
  }

  /** Trailing whitespace is only cut from the last visible character on. */
  lemma RStripKeepsVisible(x: string, y: string)
    requires !IsBlank(y)
    ensures RStrip(x + y) == x + RStrip(y)
  {
    var i :| 0 <= i < |y| && !IsSpace(y[i]);
    var r := RStrip(x + y);
    assert (x + y)[|x| + i] == y[i];
    assert |x| + i < |r|;
    var r' := RStrip(y);
    assert i < |r'|;
    assert (x + y)[|x| + |r'| - 1] == r'[|r'| - 1];
    assert forall j :: |x| + |r'| <= j < |x + y| ==> IsSpace((x + y)[j]);
    assert r[|r| - 1] == (x + y)[|r| - 1];
    assert forall k :: 0 <= k < |r| ==> r[k] == (x + y)[k];
  }

  lemma RStripDropsNewline(s: string)
    requires s != [] && s[|s| - 1] == '\n'
    ensures |RStrip(s)| < |s|
  {
  }

  /** `s.split(sep)`: never empty; splitting `""` gives `[""]`. */
  function SplitOn(s: string, sep: char): (r: seq<string>)
    ensures |r| >= 1
    ensures forall k :: 0 <= k < |r| ==> sep !in r[k]
  {
    if s == [] then [""]
    else
      var r := SplitOn(s[..|s| - 1], sep);
      var c := s[|s| - 1];
      if c == sep then r + [""] else r[..|r| - 1] + [r[|r| - 1] + [c]]
  }

  /** `sep.join(ls)` */
  function Join(ls: seq<string>, sep: string): string
  {
    if |ls| == 0 then ""
    else if |ls| == 1 then ls[0]
    else Join(ls[..|ls| - 1], sep) + sep + ls[|ls| - 1]
  }

  /** Joining the pieces of a split with the separator gives the text back. */
  lemma {:induction false} JoinSplitOn(s: string, sep: char)
    ensures Join(SplitOn(s, sep), [sep]) == s
    decreases |s|
  {
    if s != [] {
      var init := s[..|s| - 1];
      var c := s[|s| - 1];
      var r := SplitOn(init, sep);
      assert s == init + [c];
      if c == sep {
        calc {
          Join(SplitOn(s, sep), [sep]);
          { SplitOnSnocSep(init, sep); }
          Join(r + [""], [sep]);
          { JoinSnoc(r, "", [sep]); }
          Join(r, [sep]) + [sep] + "";
          { JoinSplitOn(init, sep); }
          init + [c];
        }
      } else {
        calc {
          Join(SplitOn(s, sep), [sep]);
          { SplitOnSnocOther(init, c, sep); }
          Join(r[..|r| - 1] + [r[|r| - 1] + [c]], [sep]);
          { JoinExtendLast(r, [c], [sep]); }
          Join(r, [sep]) + [c];
          { JoinSplitOn(init, sep); }
          init + [c];
        }
      }
    }
  }

  /** Extending the last piece extends the joined text by the same amount. */
  lemma JoinExtendLast(ls: seq<string>, x: string, sep: string)
    requires ls != []
    ensures Join(ls[..|ls| - 1] + [ls[|ls| - 1] + x], sep) == Join(ls, sep) + x
  {
    var init := ls[..|ls| - 1];
    var last := ls[|ls| - 1];
    if init == [] {
      assert init + [last + x] == [last + x];
    } else {
      JoinSnoc(init, last + x, sep);
      JoinSnoc(init, last, sep);
      assert init + [last] == ls;
      assert Join(init, sep) + sep + (last + x) == Join(init, sep) + sep + last + x;
    }
  }

  lemma SplitOnSnocSep(t: string, sep: char)
    ensures SplitOn(t + [sep], sep) == SplitOn(t, sep) + [""]
  {
    assert (t + [sep])[..|t|] == t;
  }

  lemma SplitOnSnocOther(t: string, c: char, sep: char)
    requires c != sep
    ensures var r := SplitOn(t, sep); SplitOn(t + [c], sep) == r[..|r| - 1] + [r[|r| - 1] + [c]]
  {
    assert (t + [c])[..|t|] == t;
  }

  /** A last field without the separator is split off whole. */
  lemma {:induction false} SplitOnLastField(t: string, u: string, sep: char)
    requires sep !in u
    ensures SplitOn(t + [sep] + u, sep) == SplitOn(t, sep) + [u]
    decreases |u|
  {
    if u == [] {
      SplitOnSnocSep(t, sep);
      assert t + [sep] + u == t + [sep];
    } else {
      var u' := u[..|u| - 1];
      var c := u[|u| - 1];
      var s := t + [sep] + u';
      SplitOnLastField(t, u', sep);
      SplitOnSnocOther(s, c, sep);
      assert t + [sep] + u == s + [c];
      assert u == u' + [c];
    }
  }

  lemma {:induction false} SplitOnWithoutSep(u: string, sep: char)
    requires sep !in u
    ensures SplitOn(u, sep) == [u]
    decreases |u|
  {
    if u != [] {
      SplitOnWithoutSep(u[..|u| - 1], sep);
      assert u == u[..|u| - 1] + [u[|u| - 1]];
    }
  }

  /** A join ends with its last piece. */
  lemma JoinEndsWithLast(ls: seq<string>, sep: string)
    requires ls != []
    ensures |Join(ls, sep)| >= |ls[|ls| - 1]|
  {
  }

  /** Joining one more piece adds the separator and the piece. */
  lemma JoinSnoc(ls: seq<string>, x: string, sep: string)
    requires ls != []
    ensures Join(ls + [x], sep) == Join(ls, sep) + sep + x
  {
    assert (ls + [x])[..|ls|] == ls;
  }

  /** Splitting a join gives back the pieces when none holds the separator. */
  lemma {:induction false} SplitOnJoin(ls: seq<string>, sep: char)
    requires |ls| >= 1
    requires forall k :: 0 <= k < |ls| ==> sep !in ls[k]
    ensures SplitOn(Join(ls, [sep]), sep) == ls
    decreases |ls|
  {
    if |ls| == 1 {
      SplitOnWithoutSep(ls[0], sep);
    } else {
      var init := ls[..|ls| - 1];
      SplitOnJoin(init, sep);
      SplitOnLastField(Join(init, [sep]), ls[|ls| - 1], sep);
      assert ls == init + [ls[|ls| - 1]];
    }
  }

  /** A whitespace separator disappears along with all other whitespace. */
  lemma {:induction false} NoSpaceJoin(ls: seq<string>, sep: string)
    requires IsBlank(sep)
    ensures NoSpace(Join(ls, sep)) == NoSpace(Concat(ls))
    decreases |ls|
  {
    if |ls| == 1 {
      assert ls[..0] == [];
      assert Concat(ls) == Concat(ls[..0]) + ls[0];
      assert Concat(ls) == ls[0];
    } else if |ls| > 1 {
      var init := ls[..|ls| - 1];
      var last := ls[|ls| - 1];
      NoSpaceJoin(init, sep);
      NoSpaceAppend(Join(init, sep) + sep, last);
      NoSpaceAppend(Join(init, sep), sep);
      NoSpaceOfBlank(sep);
      NoSpaceAppend(Concat(init), last);
    }
  }

  /** `a < b` on Python `str`: lexicographic by code point. */
  predicate LexLess(a: string, b: string)
  {
    if b == [] then false
    else if a == [] then true
    else if a[0] != b[0] then a[0] < b[0]
    else LexLess(a[1..], b[1..])
  }

  lemma {:induction false} LexLessIrreflexive(a: string)
    ensures !LexLess(a, a)
    decreases |a|
  {
    if a != [] {
      LexLessIrreflexive(a[1..]);
    }
  }

  lemma {:induction false} LexLessTransitive(a: string, b: string, c: string)
    requires LexLess(a, b) && LexLess(b, c)
    ensures LexLess(a, c)
    decreases |a|
  {
    if a != [] && a[0] == b[0] == c[0] {
      LexLessTransitive(a[1..], b[1..], c[1..]);
    }
  }

  lemma {:induction false} LexLessTotal(a: string, b: string)
    ensures a == b || LexLess(a, b) || LexLess(b, a)
    decreases |a|
  {
    if a != [] && b != [] && a[0] == b[0] {
      LexLessTotal(a[1..], b[1..]);
      if a[1..] == b[1..] {
        assert a == [a[0]] + a[1..] && b == [b[0]] + b[1..];
      }
    }
  }

  /** Python's `str.upper()` on ASCII letters. */
  function ToUpper(s: string): (r: string)
    ensures |r| == |s|
    ensures forall i :: 0 <= i < |s| ==> !('a' <= r[i] <= 'z')
    ensures forall i :: 0 <= i < |s| && !('a' <= s[i] <= 'z') ==> r[i] == s[i]
  {
    if s == [] then []
    else
      var c := s[0];
      [if 'a' <= c <= 'z' then (c as int - 32) as char else c] + ToUpper(s[1..])
  }
}
