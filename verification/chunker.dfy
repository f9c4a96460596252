/**
  `split_message` (utils.py): cutting a summary into Discord-sized parts.

  A message that fits is sent as it is.  Otherwise its lines are packed
  greedily into chunks; a chunk is cut when the next line (plus its
  newline) would make it longer than the limit, and is sent right-stripped.
  A line that is itself longer than the limit is sent on its own as
  consecutive slices of the limit's length.  Empty parts are dropped.

  The loop of the source is specified by a fold over the lines
  (`Place`/`Arrange`) whose state is the list of finished groups and the
  lines of the chunk being filled; the parts are the rendering of the groups.
*/
module Chunker {
  import opened Seqs
  import opened Text

  /** The default `max_length`, Discord's message limit. */
  const DefaultMaxLength: nat := 2000

  function Min(a: int, b: int): int
  {
    if a <= b then a else b
  }

  /** Every line followed by a newline: the text the source keeps in `current`. */
  function Terminated(ls: seq<string>): (r: string)
    ensures ls == [] <==> r == []
    ensures ls != [] ==> r[|r| - 1] == '\n'
  {
    if ls == [] then "" else Terminated(ls[..|ls| - 1]) + ls[|ls| - 1] + "\n"
  }

  /** A finished unit of output: a chunk of whole lines, or one over-long line. */
  datatype Group = Packed(lines: seq<string>) | Long(line: string)

  /** The state of the packing loop: finished groups and the chunk being filled. */
  datatype Layout = Layout(groups: seq<Group>, pending: seq<string>)

  /** Whether `line` plus its newline still fits after the chunk `pending`. */
  predicate Fits(pending: seq<string>, line: string, maxLength: nat)
  {
    |Terminated(pending)| + |line| + 1 <= maxLength
  }

  /** The finished groups once the chunk being filled is closed (if it holds anything). */
  function Flush(st: Layout): seq<Group>
  {
    if st.pending != [] then st.groups + [Packed(st.pending)] else st.groups
  }

  /** One iteration of the loop over the lines. */
  function Place(st: Layout, line: string, maxLength: nat): Layout
  {
    if Fits(st.pending, line, maxLength) then Layout(st.groups, st.pending + [line])
    else if |line| > maxLength then Layout(Flush(st) + [Long(line)], [])
    else Layout(Flush(st), [line])
  }

  /** The loop run over `lines` from the empty state. */
  function Arrange(lines: seq<string>, maxLength: nat): Layout
  {
    if lines == [] then Layout([], [])
    else Place(Arrange(lines[..|lines| - 1], maxLength), lines[|lines| - 1], maxLength)
  }

  /** All groups, the last chunk flushed. */
  function Groups(lines: seq<string>, maxLength: nat): seq<Group>
  {
    Flush(Arrange(lines, maxLength))
  }

  /** `[line[i:i+maxLength] for i in range(from, len(line), maxLength)]` */
  function Slices(line: string, from: nat, maxLength: nat): seq<string>
    requires maxLength > 0
    decreases |line| - from
  {
    if from >= |line| then []
    else [line[from..Min(from + maxLength, |line|)]] + Slices(line, from + maxLength, maxLength)
  }

  /** The parts a group is sent as. */
  function Render(g: Group, maxLength: nat): seq<string>
    requires maxLength > 0
  {
    match g
    case Packed(ls) => [RStrip(Terminated(ls))]
    case Long(line) => Slices(line, 0, maxLength)
  }

  function RenderAll(gs: seq<Group>, maxLength: nat): seq<string>
    requires maxLength > 0
  {
    if gs == [] then [] else RenderAll(gs[..|gs| - 1], maxLength) + Render(gs[|gs| - 1], maxLength)
  }

  /** The lines a group was built from. */
  function GroupLines(g: Group): seq<string>
  {
    match g
    case Packed(ls) => ls
    case Long(line) => [line]
  }

  function Lines(gs: seq<Group>): seq<string>
  {
    if gs == [] then [] else Lines(gs[..|gs| - 1]) + GroupLines(gs[|gs| - 1])
  }

  predicate NonEmptyText(s: string)
  {
    s != ""
  }

  /** What `split_message(message, maxLength)` returns. */
  function Split(message: string, maxLength: nat): seq<string>
    requires maxLength > 0
  {
    if |message| <= maxLength then [message]
    else Filter(RenderAll(Groups(SplitOn(message, '\n'), maxLength), maxLength), NonEmptyText)
  }

  /** `split_message`, imperatively as in the source. */
  method SplitMessage(message: string, maxLength: nat) returns (parts: seq<string>)
    requires maxLength > 0
    ensures parts == Split(message, maxLength)
    ensures |message| <= maxLength ==> parts == [message]
    ensures forall k :: 0 <= k < |parts| ==> |parts[k]| <= maxLength
    ensures |message| > maxLength ==> forall k :: 0 <= k < |parts| ==> parts[k] != ""
    ensures NoSpace(Concat(parts)) == NoSpace(message)
  {
    if |message| <= maxLength {
      parts := [message];
    } else {
      parts := [];
      var lines := SplitOn(message, '\n');
      var current := "";
      var i := 0;
      while i < |lines|
        invariant 0 <= i <= |lines|
        invariant parts == RenderAll(Arrange(lines[..i], maxLength).groups, maxLength)
        invariant current == Terminated(Arrange(lines[..i], maxLength).pending)
      {
        ArrangeSnoc(lines, i, maxLength);
        parts, current := PlaceLine(parts, current, lines[i], maxLength, Arrange(lines[..i], maxLength));
        i := i + 1;
      }
      assert lines[..i] == lines;
      parts := FlushPart(parts, current, maxLength, Arrange(lines, maxLength));
      parts := Filter(parts, NonEmptyText);
    }
    SplitBounds(message, maxLength);
    SplitKeepsText(message, maxLength);
  }

  /** The body of the loop over the lines of `split_message`. */
  method PlaceLine(parts: seq<string>, current: string, line: string, maxLength: nat, ghost st: Layout)
    returns (parts': seq<string>, current': string)
    requires maxLength > 0
    requires parts == RenderAll(st.groups, maxLength) && current == Terminated(st.pending)
    ensures parts' == RenderAll(Place(st, line, maxLength).groups, maxLength)
    ensures current' == Terminated(Place(st, line, maxLength).pending)
  {
    if |current| + |line| + 1 > maxLength {
      assert !Fits(st.pending, line, maxLength);
      parts' := FlushPart(parts, current, maxLength, st);
      if |line| > maxLength {
        assert Place(st, line, maxLength) == Layout(Flush(st) + [Long(line)], []);
        parts' := AppendSlices(parts', line, maxLength);
        RenderAllSnoc(Flush(st), Long(line), maxLength);
        current' := "";
      } else {
        assert Place(st, line, maxLength) == Layout(Flush(st), [line]);
        current' := line + "\n";
        TerminatedSnoc([], line);
      }
    } else {
      assert Place(st, line, maxLength) == Layout(st.groups, st.pending + [line]);
      parts', current' := parts, current + line + "\n";
      TerminatedSnoc(st.pending, line);
    }
  }

  /** `if current: parts.append(current.rstrip())`: closing the chunk being filled. */
  method FlushPart(parts: seq<string>, current: string, maxLength: nat, ghost st: Layout) returns (parts': seq<string>)
    requires maxLength > 0
    requires parts == RenderAll(st.groups, maxLength) && current == Terminated(st.pending)
    ensures parts' == RenderAll(Flush(st), maxLength)
  {
    parts' := parts;
    if current != "" {
      parts' := parts' + [RStrip(current)];
      RenderAllSnoc(st.groups, Packed(st.pending), maxLength);
    }
  }

  /** `for i in range(0, len(line), maxLength): parts.append(line[i:i+maxLength])` */
  method AppendSlices(parts: seq<string>, line: string, maxLength: nat) returns (parts': seq<string>)
    requires maxLength > 0
    ensures parts' == parts + Slices(line, 0, maxLength)
  {
    parts' := parts;
    var j := 0;
    while j < |line|
      invariant parts' + Slices(line, j, maxLength) == parts + Slices(line, 0, maxLength)
    {
      parts' := parts' + [line[j..Min(j + maxLength, |line|)]];
      j := j + maxLength;
    }
  }

  lemma ArrangeSnoc(lines: seq<string>, i: nat, maxLength: nat)
    requires i < |lines|
    ensures Arrange(lines[..i + 1], maxLength) == Place(Arrange(lines[..i], maxLength), lines[i], maxLength)
  {
    assert lines[..i + 1][..i] == lines[..i];
  }

  lemma RenderAllSnoc(gs: seq<Group>, g: Group, maxLength: nat)
    requires maxLength > 0
    ensures RenderAll(gs + [g], maxLength) == RenderAll(gs, maxLength) + Render(g, maxLength)
  {
    assert (gs + [g])[..|gs|] == gs;
  }

  lemma LinesSnoc(gs: seq<Group>, g: Group)
    ensures Lines(gs + [g]) == Lines(gs) + GroupLines(g)
  {
    assert (gs + [g])[..|gs|] == gs;
  }

  lemma TerminatedSnoc(ls: seq<string>, line: string)
    ensures Terminated(ls + [line]) == Terminated(ls) + line + "\n"
  {
    assert (ls + [line])[..|ls|] == ls;
  }

  lemma {:induction false} TerminatedAppend(a: seq<string>, b: seq<string>)
    ensures Terminated(a + b) == Terminated(a) + Terminated(b)
    decreases |b|
  {
    if b == [] {
      assert a + b == a;
    } else {
      var b' := b[..|b| - 1];
      var x := b[|b| - 1];
      calc {
        Terminated(a + b);
        { assert a + b == (a + b') + [x]; }
        Terminated((a + b') + [x]);
        { TerminatedSnoc(a + b', x); }
        Terminated(a + b') + x + "\n";
        { TerminatedAppend(a, b'); }
        Terminated(a) + Terminated(b') + x + "\n";
        { Regroup(Terminated(a), Terminated(b'), x, "\n"); }
        Terminated(a) + (Terminated(b') + (x + "\n"));
        { TerminatedSnoc(b', x); assert b == b' + [x]; }
        Terminated(a) + Terminated(b);
      }
    }
  }

  // ---------------------------------------------------------------
  // Shape of the packing
  // ---------------------------------------------------------------

  predicate ShortLines(ls: seq<string>, maxLength: nat)
  {
    forall k :: 0 <= k < |ls| ==> |ls[k]| <= maxLength
  }

  /**
    A chunk holds at least one line, no line longer than the limit, and
    its text (newlines included) is at most one over the limit; an
    over-long line is longer than the limit.
  */
  predicate GoodGroup(g: Group, maxLength: nat)
  {
    match g
    case Packed(ls) => ls != [] && ShortLines(ls, maxLength) && |Terminated(ls)| <= maxLength + 1
    case Long(line) => |line| > maxLength
  }

  predicate GoodGroups(gs: seq<Group>, maxLength: nat)
  {
    forall k :: 0 <= k < |gs| ==> GoodGroup(gs[k], maxLength)
  }

  predicate GoodLayout(st: Layout, maxLength: nat)
  {
    && GoodGroups(st.groups, maxLength)
    && ShortLines(st.pending, maxLength)
    && |Terminated(st.pending)| <= maxLength + 1
  }

  /** One step of the loop keeps the state well formed. */
  lemma PlaceGood(st: Layout, line: string, maxLength: nat)
    requires GoodLayout(st, maxLength)
    ensures GoodLayout(Place(st, line, maxLength), maxLength)
  {
    if Fits(st.pending, line, maxLength) {
      TerminatedSnoc(st.pending, line);
    } else {
      var flushed := Flush(st);
      assert GoodGroups(flushed, maxLength);
      if |line| <= maxLength {
        TerminatedSnoc([], line);
      }
    }
  }

  /** One step of the loop accounts for the line it consumed. */
  lemma PlaceCovers(st: Layout, line: string, maxLength: nat)
    ensures Lines(Place(st, line, maxLength).groups) + Place(st, line, maxLength).pending
         == Lines(st.groups) + st.pending + [line]
  {
    if !Fits(st.pending, line, maxLength) {
      var flushed := Flush(st);
      if st.pending != [] {
        LinesSnoc(st.groups, Packed(st.pending));
      }
      assert Lines(flushed) == Lines(st.groups) + st.pending;
      if |line| > maxLength {
        LinesSnoc(flushed, Long(line));
      }
    }
  }

  /** Every state of the loop is well formed and accounts for exactly the lines consumed. */
  lemma {:induction false} ArrangeInvariant(lines: seq<string>, maxLength: nat)
    ensures GoodLayout(Arrange(lines, maxLength), maxLength)
    ensures Lines(Arrange(lines, maxLength).groups) + Arrange(lines, maxLength).pending == lines
    decreases |lines|
  {
    if lines != [] {
      var init := lines[..|lines| - 1];
      var line := lines[|lines| - 1];
      assert lines == init + [line];
      ArrangeInvariant(init, maxLength);
      PlaceGood(Arrange(init, maxLength), line, maxLength);
      PlaceCovers(Arrange(init, maxLength), line, maxLength);
    }
  }

  /** The groups cover the lines exactly, in order, and are well formed. */
  lemma GroupsInvariant(lines: seq<string>, maxLength: nat)
    ensures GoodGroups(Groups(lines, maxLength), maxLength)
    ensures Lines(Groups(lines, maxLength)) == lines
  {
    ArrangeInvariant(lines, maxLength);
    var st := Arrange(lines, maxLength);
    if st.pending != [] {
      LinesSnoc(st.groups, Packed(st.pending));
    }
  }

  // ---------------------------------------------------------------
  // Slicing an over-long line
  // ---------------------------------------------------------------

  /**
    The slices of an over-long line are non-empty, all of the limit's
    length except possibly the last, and concatenate back to the line.
  */
  lemma SlicesSpan(line: string, from: nat, maxLength: nat)
    requires maxLength > 0 && from <= |line|
    ensures Concat(Slices(line, from, maxLength)) == line[from..]
    ensures forall k :: 0 <= k < |Slices(line, from, maxLength)| ==>
      0 < |Slices(line, from, maxLength)[k]| <= maxLength
    ensures forall k :: 0 <= k < |Slices(line, from, maxLength)| - 1 ==>
      |Slices(line, from, maxLength)[k]| == maxLength
  {
    SlicesConcat(line, from, maxLength);
    SlicesSizes(line, from, maxLength);
  }

  lemma {:induction false} SlicesConcat(line: string, from: nat, maxLength: nat)
    requires maxLength > 0 && from <= |line|
    ensures Concat(Slices(line, from, maxLength)) == line[from..]
    decreases |line| - from
  {
    if from < |line| {
      var head := line[from..Min(from + maxLength, |line|)];
      var rest := Slices(line, from + maxLength, maxLength);
      calc {
        Concat(Slices(line, from, maxLength));
        Concat([head] + rest);
        { ConcatAppend([head], rest); ConcatSingle(head); }
        head + Concat(rest);
        { if from + maxLength < |line| { SlicesConcat(line, from + maxLength, maxLength); } }
        line[from..];
      }
    }
  }

  lemma {:induction false} SlicesSizes(line: string, from: nat, maxLength: nat)
    requires maxLength > 0 && from <= |line|
    ensures forall k :: 0 <= k < |Slices(line, from, maxLength)| ==>
      0 < |Slices(line, from, maxLength)[k]| <= maxLength
    ensures forall k :: 0 <= k < |Slices(line, from, maxLength)| - 1 ==>
      |Slices(line, from, maxLength)[k]| == maxLength
    decreases |line| - from
  {
    if from < |line| {
      var head := line[from..Min(from + maxLength, |line|)];
      var rest := Slices(line, from + maxLength, maxLength);
      var all := Slices(line, from, maxLength);
      assert all == [head] + rest;
      if from + maxLength < |line| {
        SlicesSizes(line, from + maxLength, maxLength);
        assert |head| == maxLength;
        assert forall k :: 0 <= k < |rest| ==> 0 < |rest[k]| <= maxLength;
        assert forall k :: 0 <= k < |rest| - 1 ==> |rest[k]| == maxLength;
        forall k | 1 <= k < |all|
          ensures 0 < |all[k]| <= maxLength && (k < |all| - 1 ==> |all[k]| == maxLength)
        {
          assert all[k] == rest[k - 1];
        }
      } else {
        assert rest == [];
      }
    }
  }

  // ---------------------------------------------------------------
  // What the parts contain
  // ---------------------------------------------------------------

  /** Every part fits in one message. */
  lemma {:induction false} RenderAllFits(gs: seq<Group>, maxLength: nat)
    requires maxLength > 0 && GoodGroups(gs, maxLength)
    ensures forall k :: 0 <= k < |RenderAll(gs, maxLength)| ==> |RenderAll(gs, maxLength)[k]| <= maxLength
    decreases |gs|
  {
    if gs != [] {
      RenderAllFits(gs[..|gs| - 1], maxLength);
      match gs[|gs| - 1]
      case Packed(ls) =>
        RStripDropsNewline(Terminated(ls));
      case Long(line) =>
        SlicesSpan(line, 0, maxLength);
    }
  }

  lemma {:induction false} NoSpaceTerminated(ls: seq<string>)
    ensures NoSpace(Terminated(ls)) == NoSpace(Concat(ls))
    decreases |ls|
  {
    if ls != [] {
      var init := ls[..|ls| - 1];
      var last := ls[|ls| - 1];
      NoSpaceTerminated(init);
      NoSpaceAppend(Terminated(init) + last, "\n");
      NoSpaceAppend(Terminated(init), last);
      NoSpaceAppend(Concat(init), last);
      NoSpaceOfBlank("\n");
    }
  }

  lemma NoSpaceRender(g: Group, maxLength: nat)
    requires maxLength > 0
    ensures NoSpace(Concat(Render(g, maxLength))) == NoSpace(Concat(GroupLines(g)))
  {
    match g
    case Packed(ls) =>
      ConcatSingle(RStrip(Terminated(ls)));
      NoSpaceOfRStrip(Terminated(ls));
      NoSpaceTerminated(ls);
    case Long(line) =>
      SlicesSpan(line, 0, maxLength);
      ConcatSingle(line);
  }

  /** Rendering keeps every visible character of the lines, in order. */
  lemma {:induction false} NoSpaceRenderAll(gs: seq<Group>, maxLength: nat)
    requires maxLength > 0
    ensures NoSpace(Concat(RenderAll(gs, maxLength))) == NoSpace(Concat(Lines(gs)))
    decreases |gs|
  {
    if gs != [] {
      var init := gs[..|gs| - 1];
      var g := gs[|gs| - 1];
      NoSpaceRenderAll(init, maxLength);
      NoSpaceRender(g, maxLength);
      ConcatAppend(RenderAll(init, maxLength), Render(g, maxLength));
      ConcatAppend(Lines(init), GroupLines(g));
      NoSpaceAppend(Concat(RenderAll(init, maxLength)), Concat(Render(g, maxLength)));
      NoSpaceAppend(Concat(Lines(init)), Concat(GroupLines(g)));
    }
  }

  /** Every part fits, and when the message is cut no part is empty. */
  lemma SplitBounds(message: string, maxLength: nat)
    requires maxLength > 0
    ensures forall k :: 0 <= k < |Split(message, maxLength)| ==> |Split(message, maxLength)[k]| <= maxLength
    ensures |message| > maxLength ==> forall k :: 0 <= k < |Split(message, maxLength)| ==> Split(message, maxLength)[k] != ""
  {
    if |message| > maxLength {
      var lines := SplitOn(message, '\n');
      var gs := Groups(lines, maxLength);
      var all := RenderAll(gs, maxLength);
      assert forall k :: 0 <= k < |all| ==> |all[k]| <= maxLength by {
        GroupsInvariant(lines, maxLength);
        RenderAllFits(gs, maxLength);
      }
      var parts := Filter(all, NonEmptyText);
      assert Split(message, maxLength) == parts;
      forall k | 0 <= k < |parts|
        ensures |parts[k]| <= maxLength && parts[k] != ""
      {
        assert parts[k] in all;
      }
    }
  }

  /**
    Only whitespace is lost or gained: the visible characters of the parts,
    read in order, are those of the message.
  */
  lemma SplitKeepsText(message: string, maxLength: nat)
    requires maxLength > 0
    ensures NoSpace(Concat(Split(message, maxLength))) == NoSpace(message)
  {
    if |message| <= maxLength {
      ConcatSingle(message);
    } else {
      var lines := SplitOn(message, '\n');
      var gs := Groups(lines, maxLength);
      ConcatDropsEmpty(RenderAll(gs, maxLength), NonEmptyText);
      NoSpaceRenderAll(gs, maxLength);
      GroupsInvariant(lines, maxLength);
      NoSpaceJoin(lines, "\n");
      JoinSplitOn(message, '\n');
    }
  }

  /** A message with any visible character yields at least one part. */
  lemma SplitNonEmpty(message: string, maxLength: nat)
    requires maxLength > 0 && !IsBlank(message)
    ensures Split(message, maxLength) != []
  {
    SplitKeepsText(message, maxLength);
    var i :| 0 <= i < |message| && !IsSpace(message[i]);
    assert message[i] in NoSpace(message);
    assert Concat(Split(message, maxLength)) != [];
  }

  /**
    A line with visible text is never cut inside a chunk: the chunk's part
    starts with the lines before it and then the line itself, trailing
    whitespace aside.
  */
  lemma PackedLineIntact(ls: seq<string>, k: nat)
    requires k < |ls| && !IsBlank(ls[k])
    ensures Terminated(ls[..k]) + RStrip(ls[k]) <= RStrip(Terminated(ls))
  {
    var x := Terminated(ls[..k]);
    var rest := Terminated(ls[k + 1..]);
    var y := ls[k] + ("\n" + rest);
    TerminatedAround(ls, k);
    assert !IsBlank(y) by {
      var i :| 0 <= i < |ls[k]| && !IsSpace(ls[k][i]);
      assert y[i] == ls[k][i];
    }
    RStripKeepsVisible(x, y);
    RStripPrefix(ls[k], "\n" + rest);
    PrefixExtend(x, RStrip(ls[k]), RStrip(y));
  }

  lemma TerminatedAround(ls: seq<string>, k: nat)
    requires k < |ls|
    ensures Terminated(ls) == Terminated(ls[..k]) + (ls[k] + ("\n" + Terminated(ls[k + 1..])))
  {
    var pre := ls[..k];
    var post := ls[k + 1..];
    var line := ls[k];
    calc {
      Terminated(ls);
      { SplitAround(ls, k); }
      Terminated((pre + [line]) + post);
      { TerminatedAppend(pre + [line], post); }
      Terminated(pre + [line]) + Terminated(post);
      { TerminatedSnoc(pre, line); }
      Terminated(pre) + line + "\n" + Terminated(post);
      { Regroup(Terminated(pre), line, "\n", Terminated(post)); }
      Terminated(pre) + (line + ("\n" + Terminated(post)));
    }
  }

  lemma Regroup(a: string, b: string, c: string, d: string)
    ensures a + b + c + d == a + (b + (c + d))
  {
  }

  lemma PrefixExtend(x: string, a: string, b: string)
    requires a <= b
    ensures x + a <= x + b
  {
    assert (x + b)[..|x| + |a|] == x + a;
  }

  /** `sub` appears in `s` at some offset. */
  predicate Occurs(sub: string, s: string)
  {
    exists i :: 0 <= i <= |s| && sub <= s[i..]
  }

  /** Line `k` of group `j` is line `i` of all the groups' lines. */
  predicate LineSlot(gs: seq<Group>, j: int, k: int, i: int)
  {
    0 <= j < |gs| && 0 <= k < |GroupLines(gs[j])| && |Lines(gs[..j])| + k == i
  }

  /** Every line of the groups has its slot: the group and the position in it. */
  lemma {:induction false} LineAt(gs: seq<Group>, i: nat)
    requires i < |Lines(gs)|
    ensures exists j, k :: LineSlot(gs, j, k, i) && GroupLines(gs[j])[k] == Lines(gs)[i]
  {
    var init := gs[..|gs| - 1];
    var last := gs[|gs| - 1];
    assert Lines(gs) == Lines(init) + GroupLines(last);
    if i < |Lines(init)| {
      LineAt(init, i);
      var j, k :| LineSlot(init, j, k, i) && GroupLines(init[j])[k] == Lines(init)[i];
      assert init[..j] == gs[..j];
      assert LineSlot(gs, j, k, i);
    } else {
      assert LineSlot(gs, |gs| - 1, i - |Lines(init)|, i);
    }
  }

  /** The parts of one group are among the parts of all groups. */
  lemma {:induction false} RenderedIn(gs: seq<Group>, g: Group, maxLength: nat)
    requires maxLength > 0 && g in gs
    ensures forall p :: p in Render(g, maxLength) ==> p in RenderAll(gs, maxLength)
  {
    var init := gs[..|gs| - 1];
    if g != gs[|gs| - 1] {
      var i :| 0 <= i < |gs| && gs[i] == g;
      assert init[i] == g;
      RenderedIn(init, g, maxLength);
    }
  }

  /** A chunk's part holds each of its visible lines, right-stripped. */
  lemma ChunkHoldsLine(ls: seq<string>, line: string)
    requires line in ls && !IsBlank(line)
    ensures RStrip(Terminated(ls)) != "" && Occurs(RStrip(line), RStrip(Terminated(ls)))
  {
    var m :| 0 <= m < |ls| && ls[m] == line;
    PackedLineIntact(ls, m);
    var p := RStrip(Terminated(ls));
    var off := |Terminated(ls[..m])|;
    assert RStrip(line) <= p[off..];
    assert RStrip(line) != "" by {
      var i :| 0 <= i < |line| && !IsSpace(line[i]);
    }
  }

  /**
    When a message is cut, line `i` is never cut if it fits and has
    visible text: it is line `k` of a chunk, after the lines before it, and
    that chunk's part holds it whole, trailing whitespace aside.
  */
  lemma ShortLineKept(message: string, maxLength: nat, i: nat)
    requires maxLength > 0 && |message| > maxLength
    requires i < |SplitOn(message, '\n')|
    requires |SplitOn(message, '\n')[i]| <= maxLength && !IsBlank(SplitOn(message, '\n')[i])
    ensures var gs := Groups(SplitOn(message, '\n'), maxLength);
      exists j, k :: LineSlot(gs, j, k, i) && gs[j].Packed?
        && gs[j].lines[k] == SplitOn(message, '\n')[i]
        && Terminated(gs[j].lines[..k]) + RStrip(gs[j].lines[k]) <= RStrip(Terminated(gs[j].lines))
        && RStrip(Terminated(gs[j].lines)) in Split(message, maxLength)
  {
    var lines := SplitOn(message, '\n');
    var gs := Groups(lines, maxLength);
    assert Split(message, maxLength) == Filter(RenderAll(gs, maxLength), NonEmptyText);
    GroupsInvariant(lines, maxLength);
    LineAt(gs, i);
    var j, k :| LineSlot(gs, j, k, i) && GroupLines(gs[j])[k] == Lines(gs)[i];
    assert GoodGroup(gs[j], maxLength);
    assert gs[j].Packed?;
    var ls := gs[j].lines;
    PackedLineIntact(ls, k);
    ChunkHoldsLine(ls, ls[k]);
    RenderedIn(gs, gs[j], maxLength);
    assert RStrip(Terminated(ls)) in Render(gs[j], maxLength);
    assert RStrip(Terminated(ls)) in Split(message, maxLength);
  }

  // ---------------------------------------------------------------
  // Greedy packing
  // ---------------------------------------------------------------

  /** The first line a group was built from. */
  function FirstLine(g: Group): string
  {
    match g
    case Packed(ls) => if ls == [] then "" else ls[0]
    case Long(line) => line
  }

  /** A chunk is only closed when the next line would not have fitted in it. */
  predicate ClosedByOverflow(gs: seq<Group>, maxLength: nat)
  {
    forall k :: 0 <= k < |gs| - 1 && gs[k].Packed? ==>
      !Fits(gs[k].lines, FirstLine(gs[k + 1]), maxLength)
  }

  /** Appending a group keeps the chunks closed when the last chunk could not take its first line. */
  lemma ClosedSnoc(gs: seq<Group>, g: Group, maxLength: nat)
    requires ClosedByOverflow(gs, maxLength)
    requires gs != [] && gs[|gs| - 1].Packed? ==> !Fits(gs[|gs| - 1].lines, FirstLine(g), maxLength)
    ensures ClosedByOverflow(gs + [g], maxLength)
  {
    var r := gs + [g];
    forall k | 0 <= k < |r| - 1 && r[k].Packed?
      ensures !Fits(r[k].lines, FirstLine(r[k + 1]), maxLength)
    {
      if k < |gs| - 1 {
        assert r[k] == gs[k] && r[k + 1] == gs[k + 1];
      } else {
        assert r[k] == gs[|gs| - 1] && r[k + 1] == g;
      }
    }
  }

  /** The greedy facts the loop keeps about its state. */
  predicate GreedyLayout(st: Layout, maxLength: nat)
  {
    && ClosedByOverflow(st.groups, maxLength)
    && (st.pending != [] && st.groups != [] && st.groups[|st.groups| - 1].Packed? ==>
          !Fits(st.groups[|st.groups| - 1].lines, st.pending[0], maxLength))
    && (st.pending == [] ==> st.groups == [] || st.groups[|st.groups| - 1].Long?)
  }

  /** Closing the chunk being filled keeps the chunks closed. */
  lemma FlushClosed(st: Layout, maxLength: nat)
    requires GreedyLayout(st, maxLength)
    ensures ClosedByOverflow(Flush(st), maxLength)
  {
    if st.pending != [] {
      ClosedSnoc(st.groups, Packed(st.pending), maxLength);
    }
  }

  /** One line placed: the greedy facts still hold. */
  lemma PlaceGreedy(st: Layout, line: string, maxLength: nat)
    requires GreedyLayout(st, maxLength)
    ensures GreedyLayout(Place(st, line, maxLength), maxLength)
  {
    if Fits(st.pending, line, maxLength) {
      if st.pending != [] {
        assert (st.pending + [line])[0] == st.pending[0];
      }
    } else {
      FlushClosed(st, maxLength);
      var flushed := Flush(st);
      assert flushed != [] && flushed[|flushed| - 1].Packed? ==>
        !Fits(flushed[|flushed| - 1].lines, line, maxLength);
      if |line| > maxLength {
        ClosedSnoc(flushed, Long(line), maxLength);
      }
    }
  }

  lemma {:induction false} ArrangeGreedy(lines: seq<string>, maxLength: nat)
    ensures GreedyLayout(Arrange(lines, maxLength), maxLength)
    decreases |lines|
  {
    if lines != [] {
      var init := lines[..|lines| - 1];
      ArrangeGreedy(init, maxLength);
      PlaceGreedy(Arrange(init, maxLength), lines[|lines| - 1], maxLength);
    }
  }

  /** Consecutive groups of the result: no chunk could have taken the next line. */
  lemma GroupsGreedy(lines: seq<string>, maxLength: nat)
    ensures ClosedByOverflow(Groups(lines, maxLength), maxLength)
  {
    ArrangeGreedy(lines, maxLength);
    FlushClosed(Arrange(lines, maxLength), maxLength);
  }
}
