/** The previewed diff of a patch (internal/agentops/write.go: writeEditDiff,
    locateChangedLines, splitLines). */
module Diff {

  const CONTEXT_LINES := 3

  type Lines = seq<string>

  // ---------------------------------------------------------------- changed region

  /** The lines from `start` on, `removed` of them in the old list and `added` in the
      new one, are all that separates the two lists. */
  ghost predicate Differs(was: Lines, now: Lines, start: nat, removed: nat, added: nat) {
    && start + removed <= |was| && start + added <= |now|
    && was[..start] == now[..start]
    && was[start + removed..] == now[start + added..]
  }

  /** The common prefix is as long as can be, and so is the common suffix beside it. */
  ghost predicate Tight(was: Lines, now: Lines, start: nat, removed: nat, added: nat)
    requires start + removed <= |was| && start + added <= |now|
  {
    && (start == |was| || start == |now| || was[start] != now[start])
    && (removed > 0 && added > 0 ==> was[start + removed - 1] != now[start + added - 1])
  }

  /** Finds the changed region by counting common lines from both ends. */
  method LocateChangedLines(was: Lines, now: Lines) returns (start: nat, removed: nat, added: nat)
    ensures Differs(was, now, start, removed, added) && Tight(was, now, start, removed, added)
  {
    var prefix := 0;
    while prefix < |was| && prefix < |now| && was[prefix] == now[prefix]
      invariant 0 <= prefix <= |was| && prefix <= |now|
      invariant was[..prefix] == now[..prefix]
    {
      prefix := prefix + 1;
    }
    var suffix := 0;
    while suffix < |was| - prefix && suffix < |now| - prefix
        && was[|was| - 1 - suffix] == now[|now| - 1 - suffix]
      invariant 0 <= suffix <= |was| - prefix && suffix <= |now| - prefix
      invariant was[|was| - suffix..] == now[|now| - suffix..]
    {
      assert was[|was| - 1 - suffix..] == [was[|was| - 1 - suffix]] + was[|was| - suffix..];
      assert now[|now| - 1 - suffix..] == [now[|now| - 1 - suffix]] + now[|now| - suffix..];
      suffix := suffix + 1;
    }
    start := prefix;
    removed := |was| - prefix - suffix;
    added := |now| - prefix - suffix;
  }

  /** A tight region is the smallest: every region that separates the two lists has at
      least as many removed and as many added lines. */
  lemma TightIsSmallest(was: Lines, now: Lines, start: nat, removed: nat, added: nat, s: nat, r: nat, a: nat)
    requires Differs(was, now, start, removed, added) && Tight(was, now, start, removed, added)
    requires Differs(was, now, s, r, a)
    ensures removed <= r && added <= a
  {
    assert |was| - start - removed == |now| - start - added;
    assert |was| - s - r == |now| - s - a;
    if removed > 0 && added > 0 {
      assert forall i :: 0 <= i < s ==> was[i] == was[..s][i] == now[i];
      assert forall i :: s + r <= i < |was| ==> was[i] == was[s + r..][i - s - r] == now[i + a - r];
    }
  }

  /** There is only one tight region. */
  lemma TightUnique(was: Lines, now: Lines, start: nat, removed: nat, added: nat, s: nat, r: nat, a: nat)
    requires Differs(was, now, start, removed, added) && Tight(was, now, start, removed, added)
    requires Differs(was, now, s, r, a) && Tight(was, now, s, r, a)
    ensures s == start && r == removed && a == added
  {
    assert forall i :: 0 <= i < s ==> was[i] == was[..s][i] == now[i];
    assert forall i :: 0 <= i < start ==> was[i] == was[..start][i] == now[i];
    TightIsSmallest(was, now, start, removed, added, s, r, a);
    TightIsSmallest(was, now, s, r, a, start, removed, added);
  }

  // -------------------------------------------------------------------------- hunks

  /** A hunk as it is printed: the header's four numbers and the body's four parts. */
  datatype Hunk = Hunk(
    oldStart: nat, oldCount: nat, newStart: nat, newCount: nat,
    before: Lines, removed: Lines, added: Lines, after: Lines)

  /** The hunk of a replacement, with up to three lines of context on each side. */
  method ReplaceHunk(was: Lines, now: Lines) returns (h: Hunk)
    ensures Faithful(was, now, h) && FullContext(was, h) && EndsDiffer(h.removed, h.added)
    ensures forall start: nat, removed: nat, added: nat ::
      Differs(was, now, start, removed, added) && Tight(was, now, start, removed, added) ==>
        h == HunkOf(was, now, start, removed, added)
        && (h.newCount == NewLines(h) <==> CountComesOut(|was|, start, removed))
  {
    var start, removed, added := LocateChangedLines(was, now);
    h := BuildHunk(was, now, start, removed, added);
    RegionHunk(was, now, start, removed, added);
    OnlyRegion(was, now, start, removed, added);
  }

  /** The numbers and lines printed for a changed region. */
  method BuildHunk(was: Lines, now: Lines, start: nat, removed: nat, added: nat) returns (h: Hunk)
    requires start + removed <= |was| && start + added <= |now|
    ensures h == HunkOf(was, now, start, removed, added)
  {
    var from := start - CONTEXT_LINES;
    if from < 0 {
      from := 0;
    }
    var to := start + removed + CONTEXT_LINES;
    if to > |was| {
      to := |was|;
    }
    var before := was[from..start];
    var after := was[start + removed..to];
    var changed := now[start..start + added];
    var gone := RemovedLines(was, start, removed);
    h := Hunk(from + 1, to - from, from + 1, from + |changed|, before, gone, changed, after);
  }

  lemma RegionHunk(was: Lines, now: Lines, start: nat, removed: nat, added: nat)
    requires Differs(was, now, start, removed, added) && Tight(was, now, start, removed, added)
    ensures var h := HunkOf(was, now, start, removed, added);
      Faithful(was, now, h) && FullContext(was, h) && EndsDiffer(h.removed, h.added)
  {
    var h := HunkOf(was, now, start, removed, added);
    HunkFaithful(was, now, start, removed, added, h.oldStart - 1, h.oldStart - 1 + h.oldCount, h);
    HunkTight(was, now, start, removed, added);
  }

  lemma OnlyRegion(was: Lines, now: Lines, start: nat, removed: nat, added: nat)
    requires Differs(was, now, start, removed, added) && Tight(was, now, start, removed, added)
    ensures var h := HunkOf(was, now, start, removed, added);
      forall s: nat, r: nat, a: nat :: Differs(was, now, s, r, a) && Tight(was, now, s, r, a) ==>
        h == HunkOf(was, now, s, r, a) && (h.newCount == NewLines(h) <==> CountComesOut(|was|, s, r))
  {
    var h := HunkOf(was, now, start, removed, added);
    HeaderCountIff(was, now, start, removed, added);
    forall s: nat, r: nat, a: nat | Differs(was, now, s, r, a) && Tight(was, now, s, r, a)
      ensures h == HunkOf(was, now, s, r, a) && (h.newCount == NewLines(h) <==> CountComesOut(|was|, s, r))
    {
      TightUnique(was, now, start, removed, added, s, r, a);
    }
  }

  /** The hunk of a changed region. */
  function HunkOf(was: Lines, now: Lines, start: nat, removed: nat, added: nat): Hunk
    requires start + removed <= |was| && start + added <= |now|
  {
    var from := if start < CONTEXT_LINES then 0 else start - CONTEXT_LINES;
    var to := if start + removed + CONTEXT_LINES > |was| then |was| else start + removed + CONTEXT_LINES;
    Hunk(from + 1, to - from, from + 1, from + added,
         was[from..start], was[start..start + removed], now[start..start + added], was[start + removed..to])
  }

  function RemovedLines(lines: Lines, start: nat, count: nat): (r: Lines)
    ensures start + count <= |lines| ==> r == lines[start..start + count]
  {
    if count <= 0 || start + count > |lines| then [] else lines[start..start + count]
  }

  /** A removed and an added block that neither start nor end with the same line. */
  ghost predicate EndsDiffer(removed: Lines, added: Lines) {
    removed != [] && added != [] ==>
      removed[0] != added[0] && removed[|removed| - 1] != added[|added| - 1]
  }

  lemma HunkTight(was: Lines, now: Lines, start: nat, removed: nat, added: nat)
    requires start + removed <= |was| && start + added <= |now| && Tight(was, now, start, removed, added)
    ensures EndsDiffer(was[start..start + removed], now[start..start + added])
  {
  }

  lemma HunkFaithful(was: Lines, now: Lines, start: nat, removed: nat, added: nat, from: nat, to: nat, h: Hunk)
    requires Differs(was, now, start, removed, added)
    requires from <= start <= from + CONTEXT_LINES && start + removed <= to <= start + removed + CONTEXT_LINES
    requires to <= |was| && h.oldStart == from + 1 == h.newStart && h.oldCount == to - from
    requires h.before == was[from..start] && h.after == was[start + removed..to]
    requires h.removed == was[start..start + removed] && h.added == now[start..start + added]
    ensures Faithful(was, now, h)
  {
    WindowFaithful(was, now, start, removed, added, from, to);
  }

  /** The printed body is a window of the old lines, and putting the new side in its
      place gives exactly the new lines. */
  ghost predicate Faithful(was: Lines, now: Lines, h: Hunk) {
    && 1 <= h.oldStart == h.newStart && h.oldStart - 1 + h.oldCount <= |was|
    && |h.before| <= CONTEXT_LINES && |h.after| <= CONTEXT_LINES
    && was[h.oldStart - 1..h.oldStart - 1 + h.oldCount] == h.before + h.removed + h.after
    && now == was[..h.oldStart - 1] + (h.before + h.added + h.after) + was[h.oldStart - 1 + h.oldCount..]
  }

  /** Three lines of context on each side unless the file ends earlier. */
  ghost predicate FullContext(was: Lines, h: Hunk) {
    && (h.oldStart == 1 || |h.before| == CONTEXT_LINES)
    && (h.oldStart - 1 + h.oldCount == |was| || |h.after| == CONTEXT_LINES)
  }

  lemma WindowFaithful(was: Lines, now: Lines, start: nat, removed: nat, added: nat, from: nat, to: nat)
    requires Differs(was, now, start, removed, added)
    requires from <= start && start + removed <= to <= |was|
    ensures was[from..to] == was[from..start] + was[start..start + removed] + was[start + removed..to]
    ensures now == was[..from]
      + (was[from..start] + now[start..start + added] + was[start + removed..to]) + was[to..]
  {
    assert was[..from] + was[from..start] == was[..start];
    assert was[start + removed..to] + was[to..] == was[start + removed..];
    assert now == now[..start] + now[start..start + added] + now[start + added..];
  }

  /** The number of new lines the body shows. */
  function NewLines(h: Hunk): nat {
    |h.before| + |h.added| + |h.after|
  }

  /** Where the changed region must lie for the header's new count to be right: the whole
      file was replaced, or six lines and as many as follow, up to three, precede it. */
  predicate CountComesOut(total: nat, start: nat, removed: nat) {
    var rest := total - start - removed;
    || (start == 0 && removed == total)
    || start == 2 * CONTEXT_LINES + (if rest < CONTEXT_LINES then rest else CONTEXT_LINES)
  }

  /** The header gives the lines before the window plus the added ones as the new count.
      For every changed region this is the number of new lines shown if and only if the
      region lies as `CountComesOut` says. */
  lemma HeaderCountIff(was: Lines, now: Lines, start: nat, removed: nat, added: nat)
    requires Differs(was, now, start, removed, added)
    ensures var h := HunkOf(was, now, start, removed, added);
      h.newCount == NewLines(h) <==> CountComesOut(|was|, start, removed)
  {
  }

  /** Changing the fifth line of five announces two new lines and shows four. */
  lemma HeaderCountWrong()
    ensures var was, now := ["a", "b", "c", "d", "e"], ["a", "b", "c", "d", "x"];
      && Differs(was, now, 4, 1, 1) && Tight(was, now, 4, 1, 1)
      && HunkOf(was, now, 4, 1, 1).newCount == 2 && NewLines(HunkOf(was, now, 4, 1, 1)) == 4
  {
    var was, now := ["a", "b", "c", "d", "e"], ["a", "b", "c", "d", "x"];
    assert was[..4] == now[..4] && was[5..] == now[5..];
    assert was[4] == "e" && now[4] == "x" && "e"[0] != "x"[0];
  }

  // ---------------------------------------------------------------------- rendering

  function Tagged(tag: char, lines: Lines): Lines {
    if lines == [] then [] else [[tag] + lines[0]] + Tagged(tag, lines[1..])
  }

  /** The body of a hunk as printed. */
  function Body(h: Hunk): Lines {
    Tagged(' ', h.before) + Tagged('-', h.removed) + Tagged('+', h.added) + Tagged(' ', h.after)
  }

  /** The lines a reader gets from a body by skipping those marked `skip`. */
  function Side(body: Lines, skip: char): Lines {
    if body == [] then []
    else if body[0] != "" && body[0][0] == skip then Side(body[1..], skip)
    else [if body[0] == "" then "" else body[0][1..]] + Side(body[1..], skip)
  }

  lemma {:induction false} SideConcat(a: Lines, b: Lines, skip: char)
    ensures Side(a + b, skip) == Side(a, skip) + Side(b, skip)
    decreases |a|
  {
    if a == [] {
      assert a + b == b;
    } else {
      assert (a + b)[1..] == a[1..] + b;
      SideConcat(a[1..], b, skip);
    }
  }

  lemma {:induction false} SideTagged(tag: char, lines: Lines, skip: char)
    ensures Side(Tagged(tag, lines), skip) == if tag == skip then [] else lines
    decreases |lines|
  {
    if lines != [] {
      SideTagged(tag, lines[1..], skip);
      var body := Tagged(tag, lines);
      assert body[1..] == Tagged(tag, lines[1..]);
      assert body[0][1..] == lines[0];
    }
  }

  lemma SideBody(h: Hunk, skip: char)
    ensures Side(Body(h), skip) == Side(Tagged(' ', h.before), skip) + Side(Tagged('-', h.removed), skip)
      + Side(Tagged('+', h.added), skip) + Side(Tagged(' ', h.after), skip)
  {
    var b, r, a, f := Tagged(' ', h.before), Tagged('-', h.removed), Tagged('+', h.added), Tagged(' ', h.after);
    SideConcat(b + r + a, f, skip);
    SideConcat(b + r, a, skip);
    SideConcat(b, r, skip);
  }

  /** What the reader of a printed hunk sees is the truth: skipping the added lines
      gives the window of the old file, and putting what is left after skipping the
      removed lines in its place gives the new file. */
  lemma PrintedDiffIsFaithful(was: Lines, now: Lines, h: Hunk)
    requires Faithful(was, now, h)
    ensures var at := h.oldStart - 1;
      && Side(Body(h), '+') == was[at..at + h.oldCount]
      && now == was[..at] + Side(Body(h), '-') + was[at + h.oldCount..]
  {
    OldSide(h);
    NewSide(h);
  }

  lemma OldSide(h: Hunk)
    ensures Side(Body(h), '+') == h.before + h.removed + h.after
  {
    SideBody(h, '+');
    SideTagged(' ', h.before, '+');
    SideTagged('-', h.removed, '+');
    SideTagged('+', h.added, '+');
    SideTagged(' ', h.after, '+');
  }

  lemma NewSide(h: Hunk)
    ensures Side(Body(h), '-') == h.before + h.added + h.after
  {
    SideBody(h, '-');
    SideTagged(' ', h.before, '-');
    SideTagged('-', h.removed, '-');
    SideTagged('+', h.added, '-');
    SideTagged(' ', h.after, '-');
  }

  // --------------------------------------------------------------------- splitting

  /** strings.Split at newlines. */
  function Split(s: string): (lines: Lines)
    ensures lines != []
  {
    if s == "" then [""]
    else if s[0] == '\n' then [""] + Split(s[1..])
    else
      var rest := Split(s[1..]);
      [[s[0]] + rest[0]] + rest[1..]
  }

  function Join(lines: Lines): string
    requires lines != []
  {
    if |lines| == 1 then lines[0] else lines[0] + "\n" + Join(lines[1..])
  }

  function TrimNewline(s: string): string {
    if s != "" && s[|s| - 1] == '\n' then s[..|s| - 1] else s
  }

  function SplitLines(content: string): Lines {
    if content == "" then [] else Split(TrimNewline(content))
  }

  lemma {:induction false} JoinSplit(s: string)
    ensures Join(Split(s)) == s
    decreases |s|
  {
    if s != "" {
      JoinSplit(s[1..]);
      if s[0] == '\n' {
        JoinBreak(Split(s[1..]));
      } else {
        JoinLonger(s[0], Split(s[1..]));
      }
      assert s == [s[0]] + s[1..];
    }
  }

  ghost predicate NoBreaks(lines: Lines) {
    forall i :: 0 <= i < |lines| ==> '\n' !in lines[i]
  }

  /** No line holds a newline, and lines without any are what their text splits into. */
  lemma {:induction false} SplitHasNoBreaks(s: string)
    ensures NoBreaks(Split(s))
    decreases |s|
  {
    if s != "" {
      SplitHasNoBreaks(s[1..]);
    }
  }

  lemma {:induction false} SplitLine(line: string, rest: string)
    requires '\n' !in line
    ensures Split(line) == [line]
    ensures Split(line + "\n" + rest) == [line] + Split(rest)
  {
    var s := line + "\n" + rest;
    if line == "" {
      assert s == "\n" + rest && s[1..] == rest;
    } else {
      SplitLine(line[1..], rest);
      assert s[1..] == line[1..] + "\n" + rest;
      assert line == [line[0]] + line[1..];
    }
  }

  lemma {:induction false} SplitJoin(lines: Lines)
    requires lines != [] && NoBreaks(lines)
    ensures Split(Join(lines)) == lines
    decreases |lines|
  {
    if |lines| == 1 {
      SplitLine(lines[0], "");
    } else {
      SplitJoin(lines[1..]);
      SplitLine(lines[0], Join(lines[1..]));
      assert lines == [lines[0]] + lines[1..];
    }
  }

  lemma JoinBreak(rest: Lines)
    requires rest != []
    ensures Join([""] + rest) == "\n" + Join(rest)
  {
    var lines: Lines := [""] + rest;
    assert lines[1..] == rest;
    assert "" + "\n" == "\n";
  }

  lemma JoinLonger(c: char, rest: Lines)
    requires rest != []
    ensures Join([[c] + rest[0]] + rest[1..]) == [c] + Join(rest)
  {
    var first: string := [c] + rest[0];
    var lines := [first] + rest[1..];
    assert lines[1..] == rest[1..];
    if |rest| > 1 {
      assert first + "\n" + Join(rest[1..]) == [c] + (rest[0] + "\n" + Join(rest[1..]));
    }
  }

  /** The lines of a file are newline-free, and together with a newline after each, the
      last one's left out if the file leaves it out, they are the file. An empty file has
      none. */
  lemma SplitLinesMeaning(content: string)
    ensures content == "" <==> SplitLines(content) == []
    ensures NoBreaks(SplitLines(content))
    ensures content != "" ==>
      content == Join(SplitLines(content)) + (if content[|content| - 1] == '\n' then "\n" else "")
  {
    JoinSplit(TrimNewline(content));
    SplitHasNoBreaks(TrimNewline(content));
    if content != "" {
      assert content == content[..|content| - 1] + [content[|content| - 1]];
    }
  }

  /** `b` is `a` with a newline added at its end. */
  predicate AddsFinalNewline(a: string, b: string) {
    a != "" && a[|a| - 1] != '\n' && b == a + "\n"
  }

  /** The preview shows two contents as the same lines if and only if they are equal or
      differ only in the newline at the very end. */
  lemma SplitLinesEqualIff(a: string, b: string)
    ensures SplitLines(a) == SplitLines(b) <==> a == b || AddsFinalNewline(a, b) || AddsFinalNewline(b, a)
  {
    JoinSplit(TrimNewline(a));
    JoinSplit(TrimNewline(b));
    SameTrimmed(a, b);
  }

  lemma SameTrimmed(a: string, b: string)
    ensures (a == "" <==> b == "") && TrimNewline(a) == TrimNewline(b) <==>
      a == b || AddsFinalNewline(a, b) || AddsFinalNewline(b, a)
  {
    TrimmedFrom(a);
    TrimmedFrom(b);
  }

  lemma TrimmedFrom(s: string)
    ensures s == TrimNewline(s) || s == TrimNewline(s) + "\n"
    ensures s == TrimNewline(s) + "\n" <==> s != "" && s[|s| - 1] == '\n'
  {
    var t := TrimNewline(s);
    assert s != "" ==> s == s[..|s| - 1] + [s[|s| - 1]];
    assert s == t + "\n" ==> s[|t|] == '\n';
  }
}
