/** The incremental index over an append-only JSONL session file, shared by the
    Codex and OMP adapters (internal/agentops/codex_session.go, omp_session.go). */
module SessionIndex {
  import opened Wire
  import P = Paging

  const NEWLINE: Byte := 10
  /** What an adapter takes for a record: its JSON check, and its bound on the bytes of a
      line. */
  datatype Format = Format(valid: Bytes -> bool, max: nat)

  const CODEX_MAX := 8 * 1024 * 1024
  const OMP_MAX := 4 * 1024 * 1024

  function Codex(valid: Bytes -> bool): Format {
    Format(valid, CODEX_MAX)
  }

  function OMP(valid: Bytes -> bool): Format {
    Format(valid, OMP_MAX)
  }

  const DEFAULT_READ_LIMIT := 200
  const MAX_READ_LIMIT := 2000

  // -------------------------------------------------------------------- trimming

  predicate IsSpace(b: Byte) {
    9 <= b <= 13 || b == 32
  }

  ghost predicate Blank(s: Bytes) {
    forall i :: 0 <= i < |s| ==> IsSpace(s[i])
  }

  function TrimLeft(s: Bytes): Bytes {
    if s != [] && IsSpace(s[0]) then TrimLeft(s[1..]) else s
  }

  function TrimRight(s: Bytes): Bytes {
    if s != [] && IsSpace(s[|s| - 1]) then TrimRight(s[..|s| - 1]) else s
  }

  function Trim(s: Bytes): Bytes {
    TrimRight(TrimLeft(s))
  }

  lemma BlankTail(s: Bytes)
    requires s != [] && IsSpace(s[0])
    ensures Blank(s) <==> Blank(s[1..])
  {
    forall i | 0 <= i < |s| && Blank(s[1..]) ensures IsSpace(s[i]) {
      assert i > 0 ==> s[i] == s[1..][i - 1];
    }
  }

  lemma {:induction false} TrimLeftConcat(p: Bytes, r: Bytes)
    ensures Blank(p) ==> TrimLeft(p + r) == TrimLeft(r)
    ensures !Blank(p) ==> TrimLeft(p + r) == TrimLeft(p) + r && TrimLeft(p) != []
    decreases |p|
  {
    if p == [] {
      assert p + r == r;
    } else if IsSpace(p[0]) {
      assert (p + r)[1..] == p[1..] + r;
      TrimLeftConcat(p[1..], r);
      BlankTail(p);
    }
  }

  lemma {:induction false} TrimRightConcat(p: Bytes, r: Bytes)
    ensures Blank(r) ==> TrimRight(p + r) == TrimRight(p)
    ensures !Blank(r) ==> TrimRight(p + r) == p + TrimRight(r) && TrimRight(r) != []
    decreases |r|
  {
    if r == [] {
      assert p + r == p;
    } else if IsSpace(r[|r| - 1]) {
      var r' := r[..|r| - 1];
      assert (p + r)[..|p + r| - 1] == p + r';
      TrimRightConcat(p, r');
      assert Blank(r) <==> Blank(r');
    }
  }

  lemma {:induction false} TrimRightPrefix(s: Bytes)
    ensures TrimRight(s) <= s
    decreases |s|
  {
    if s != [] && IsSpace(s[|s| - 1]) {
      TrimRightPrefix(s[..|s| - 1]);
    }
  }

  lemma {:induction false} TrimSolid(s: Bytes)
    requires s != [] && !IsSpace(s[0])
    ensures TrimRight(s) != [] && TrimRight(s)[0] == s[0]
    decreases |s|
  {
    if IsSpace(s[|s| - 1]) {
      TrimSolid(s[..|s| - 1]);
    }
  }

  lemma {:induction false} TrimLeftSolid(s: Bytes)
    ensures TrimLeft(s) != [] ==> !IsSpace(TrimLeft(s)[0])
    ensures TrimLeft(s) == [] <==> Blank(s)
    decreases |s|
  {
    if s != [] && IsSpace(s[0]) {
      TrimLeftSolid(s[1..]);
      BlankTail(s);
    }
  }

  lemma TrimBlank(s: Bytes)
    ensures Trim(s) == [] <==> Blank(s)
  {
    TrimLeftSolid(s);
    if TrimLeft(s) != [] {
      TrimSolid(TrimLeft(s));
    }
  }

  /** Trimming takes white space, the six ASCII characters, off both ends and nothing
      else. */
  lemma TrimMeaning(s: Bytes) returns (pre: Bytes, post: Bytes)
    ensures s == pre + Trim(s) + post
    ensures forall b: Byte :: b in pre || b in post ==> b in [9, 10, 11, 12, 13, 32]
    ensures Trim(s) != [] ==>
      Trim(s)[0] !in [9, 10, 11, 12, 13, 32] && Trim(s)[|Trim(s)| - 1] !in [9, 10, 11, 12, 13, 32]
  {
    pre := TrimLeftMeaning(s);
    post := TrimRightMeaning(TrimLeft(s));
    TrimLeftSolid(s);
    if TrimLeft(s) != [] {
      TrimSolid(TrimLeft(s));
    }
    assert s == pre + (Trim(s) + post);
  }

  lemma {:induction false} TrimLeftMeaning(s: Bytes) returns (pre: Bytes)
    ensures s == pre + TrimLeft(s) && Blank(pre)
    decreases |s|
  {
    if s != [] && IsSpace(s[0]) {
      pre := TrimLeftMeaning(s[1..]);
      pre := [s[0]] + pre;
    } else {
      pre := [];
    }
  }

  lemma {:induction false} TrimRightMeaning(s: Bytes) returns (post: Bytes)
    ensures s == TrimRight(s) + post && Blank(post)
    ensures TrimRight(s) != [] ==> !IsSpace(TrimRight(s)[|TrimRight(s)| - 1])
    decreases |s|
  {
    if s != [] && IsSpace(s[|s| - 1]) {
      post := TrimRightMeaning(s[..|s| - 1]);
      assert s == s[..|s| - 1] + [s[|s| - 1]];
      post := post + [s[|s| - 1]];
    } else {
      post := [];
    }
  }

  /** Trailing white space that arrives later does not change a record; anything
      else that arrives later makes the earlier text a proper prefix. */
  lemma TrimExtend(p: Bytes, r: Bytes)
    ensures Blank(r) ==> Trim(p + r) == Trim(p)
    ensures !Blank(p) && !Blank(r) ==> Trim(p) <= Trim(p + r) && Trim(p) != Trim(p + r)
  {
    TrimLeftConcat(p, r);
    TrimLeftSolid(p);
    TrimLeftSolid(r);
    if Blank(p) {
      if Blank(r) {
        assert TrimLeft(r) == [] && TrimLeft(p) == [];
      }
    } else {
      TrimRightConcat(TrimLeft(p), r);
      TrimRightPrefix(TrimLeft(p));
    }
  }

  // ----------------------------------------------------------------------- lines

  /** The end of the line that goes on at `i`: after its newline, or the end of the text. */
  function EndFrom(x: Bytes, i: nat): (e: nat)
    requires i < |x|
    ensures i < e <= |x| && (e == |x| || x[e - 1] == NEWLINE)
    ensures forall k :: i <= k < e - 1 ==> x[k] != NEWLINE
    decreases |x| - i
  {
    if x[i] == NEWLINE || i + 1 == |x| then i + 1 else EndFrom(x, i + 1)
  }

  function LineEnd(x: Bytes): (e: nat)
    requires x != []
    ensures 1 <= e <= |x|
  {
    EndFrom(x, 0)
  }

  predicate Terminated(line: Bytes)
    requires line != []
  {
    line[|line| - 1] == NEWLINE
  }

  lemma LineEndIs(x: Bytes, e: nat)
    requires 1 <= e <= |x| && NEWLINE !in x[..e - 1] && (e == |x| || x[e - 1] == NEWLINE)
    ensures LineEnd(x) == e
  {
    assert forall i :: 0 <= i < e - 1 ==> x[..e - 1][i] == x[i];
  }

  // -------------------------------------------------------------------- scanning

  /** The result of one pass over a text: how much of it was consumed, the trimmed
      records found, and whether no bad line was met. */
  datatype Scanned = Scanned(used: nat, found: seq<Bytes>, ok: bool)

  /** Whether a line is a record as far as the scan can tell. */
  predicate Complete(fmt: Format, line: Bytes)
    requires line != []
  {
    Terminated(line) || (Trim(line) != [] && fmt.valid(Trim(line)))
  }

  predicate BadLine(fmt: Format, line: Bytes)
    requires line != []
  {
    |line| > fmt.max || (Terminated(line) && Trim(line) != [] && !fmt.valid(Trim(line)))
  }

  function RecordOf(line: Bytes): seq<Bytes> {
    if Trim(line) == [] then [] else [Trim(line)]
  }

  /** What becomes of a line: it fails the scan, waits for more, or is taken. */
  datatype Verdict = Bad | Partial | Whole(record: seq<Bytes>)

  function Judge(fmt: Format, line: Bytes): Verdict {
    if line == [] then Partial
    else if BadLine(fmt, line) then Bad
    else if !Complete(fmt, line) then Partial
    else Whole(RecordOf(line))
  }

  /** A line that is too long fails the scan. A finished line is skipped if it is blank,
      taken if its text is a valid record, and fails the scan otherwise. An unfinished one
      is taken once its text is a valid record and waits until then. */
  lemma JudgeMeaning(fmt: Format, line: Bytes)
    requires line != []
    ensures |line| > fmt.max ==> Judge(fmt, line) == Bad
    ensures |line| <= fmt.max && Blank(line) ==>
      Judge(fmt, line) == if line[|line| - 1] == 10 then Whole([]) else Partial
    ensures |line| <= fmt.max && !Blank(line) && fmt.valid(Trim(line)) ==> Judge(fmt, line) == Whole([Trim(line)])
    ensures |line| <= fmt.max && !Blank(line) && !fmt.valid(Trim(line)) ==>
      Judge(fmt, line) == if line[|line| - 1] == 10 then Bad else Partial
  {
    TrimBlank(line);
  }

  /** The first line of a text: its length and what becomes of it. */
  datatype Line = Line(length: nat, verdict: Verdict)

  function FirstLine(fmt: Format, x: Bytes): Line {
    if x == [] then Line(0, Partial) else Line(LineEnd(x), Judge(fmt, x[..LineEnd(x)]))
  }

  /** How a reader takes lines off a text. */
  function Reading(fmt: Format): Bytes -> Line {
    (x: Bytes) => FirstLine(fmt, x)
  }

  /** A scan whose first line, `n` bytes long, is judged `v` and whose remainder scans
      to `rest`. */
  function After(v: Verdict, n: nat, rest: Scanned): Scanned {
    match v
    case Bad => Scanned(0, [], false)
    case Partial => Scanned(0, [], true)
    case Whole(record) => Scanned(n + rest.used, record + rest.found, rest.ok)
  }

  /** One pass over a text, taking lines off with `next`. */
  function ScanText(next: Bytes -> Line, x: Bytes): (r: Scanned)
    ensures r.used <= |x|
    decreases |x|
  {
    var line := next(x);
    if 1 <= line.length <= |x|
    then After(line.verdict, line.length, ScanText(next, x[line.length..]))
    else Scanned(0, [], true)
  }

  /** The two adapters judge a line alike unless it is longer than 4 MiB; then OMP fails
      the scan whatever Codex makes of it. */
  lemma AdaptersAgreeIff(valid: Bytes -> bool, line: Bytes)
    ensures Judge(Codex(valid), line) == Judge(OMP(valid), line)
      <==> |line| <= 4 * 1024 * 1024 || Judge(Codex(valid), line) == Bad
    ensures |line| > 8 * 1024 * 1024 ==> Judge(Codex(valid), line) == Bad
  {
  }

  // ------------------------------------------------------------- well-formed files

  /** One line of a finished session file: a newline at its end only, not oversized,
      and blank or a valid record. */
  ghost predicate GoodLine(fmt: Format, line: Bytes) {
    && line != [] && Terminated(line) && NEWLINE !in line[..|line| - 1]
    && |line| <= fmt.max
    && (Trim(line) == [] || fmt.valid(Trim(line)))
  }

  ghost predicate Legal(fmt: Format, lines: seq<Bytes>) {
    forall i :: 0 <= i < |lines| ==> GoodLine(fmt, lines[i])
  }

  /** The file these lines make up. */
  function File(lines: seq<Bytes>): Bytes {
    if lines == [] then [] else lines[0] + File(lines[1..])
  }

  /** The text of a record that fits on a line of its own. */
  ghost predicate IsRecord(fmt: Format, q: Bytes) {
    q != [] && Trim(q) == q && NEWLINE !in q && |q| < fmt.max && fmt.valid(q)
  }

  /** No valid record is a proper prefix of another. */
  ghost predicate PrefixFree(fmt: Format) {
    forall p, q :: IsRecord(fmt, p) && IsRecord(fmt, q) && p <= q ==> p == q
  }

  /** Offset `c` is one the index may rest at: a line start, or a place inside a line
      whose record is over, with only white space to come. */
  ghost predicate Safe(lines: seq<Bytes>, c: nat)
    decreases |lines|
  {
    c == 0 || (lines != [] &&
      if |lines[0]| <= c then Safe(lines[1..], c - |lines[0]|)
      else !Blank(lines[0][..c]) && Blank(lines[0][c..]))
  }

  lemma TrimIsRecord(s: Bytes)
    ensures Trim(Trim(s)) == Trim(s) && |Trim(s)| <= |s|
    ensures forall b :: b in Trim(s) ==> b in s
  {
    TrimLeftSolid(s);
    TrimLeftInside(s);
    TrimRightInside(TrimLeft(s));
    if TrimLeft(s) != [] {
      TrimSolid(TrimLeft(s));
    }
  }

  lemma {:induction false} TrimLeftInside(s: Bytes)
    ensures |TrimLeft(s)| <= |s| && forall b :: b in TrimLeft(s) ==> b in s
    decreases |s|
  {
    if s != [] && IsSpace(s[0]) {
      TrimLeftInside(s[1..]);
    }
  }

  lemma {:induction false} TrimRightInside(s: Bytes)
    ensures |TrimRight(s)| <= |s| && forall b :: b in TrimRight(s) ==> b in s
    ensures TrimRight(TrimRight(s)) == TrimRight(s)
    decreases |s|
  {
    if s != [] && IsSpace(s[|s| - 1]) {
      TrimRightInside(s[..|s| - 1]);
    }
  }

  /** The record of a good line, without its newline, is a record text. */
  lemma LineRecord(fmt: Format, line: Bytes)
    requires GoodLine(fmt, line) && Trim(line) != []
    ensures IsRecord(fmt, Trim(line))
  {
    var body := line[..|line| - 1];
    assert line == body + [NEWLINE];
    TrimExtend(body, [NEWLINE]);
    TrimIsRecord(body);
  }

  /** A record seen at the end of an unfinished line is the whole record of the line. */
  lemma RecordIsOver(fmt: Format, p: Bytes, r: Bytes)
    requires PrefixFree(fmt) && GoodLine(fmt, p + r) && r != []
    requires Trim(p) != [] && fmt.valid(Trim(p))
    ensures !Blank(p) && Blank(r) && Trim(p) == Trim(p + r)
  {
    var line := p + r;
    TrimExtend(p, r);
    TrimBlank(p);
    if !Blank(r) {
      assert p <= line[..|line| - 1];
      assert forall b :: b in p ==> b in line[..|line| - 1];
      TrimIsRecord(p);
      LineRecord(fmt, line);
      assert IsRecord(fmt, Trim(p));
    }
  }

  /** What remains of a line whose record is over is itself a blank line. */
  lemma BlankRemainder(fmt: Format, p: Bytes, r: Bytes)
    requires GoodLine(fmt, p + r) && r != [] && Blank(r) && !Blank(p)
    ensures GoodLine(fmt, r) && Trim(r) == []
    ensures Trim(p) == Trim(p + r) && Trim(p) != [] && fmt.valid(Trim(p))
  {
    TrimExtend(p, r);
    TrimBlank(p);
    TrimBlank(r);
    var line := p + r;
    assert line[..|line| - 1] == p + r[..|r| - 1];
  }

  lemma ScanLine(fmt: Format, line: Bytes, f: Bytes)
    requires GoodLine(fmt, line)
    ensures var rest := ScanText(Reading(fmt), f);
      ScanText(Reading(fmt), line + f) == Scanned(|line| + rest.used, RecordOf(line) + rest.found, rest.ok)
  {
    var x := line + f;
    assert x[..|line| - 1] == line[..|line| - 1];
    LineEndIs(x, |line|);
    assert x[..|line|] == line && x[|line|..] == f;
    ReadingIs(fmt, x, |line|, line);
    ScanStep(Reading(fmt), x, |line|, Judge(fmt, line), f);
  }

  lemma ScanTail(fmt: Format, t: Bytes)
    requires NEWLINE !in t && |t| <= fmt.max
    ensures ScanText(Reading(fmt), t)
         == if Trim(t) != [] && fmt.valid(Trim(t)) then Scanned(|t|, [Trim(t)], true) else Scanned(0, [], true)
  {
    if t == [] {
      TrimBlank(t);
    } else {
      LineEndLast(t);
      WholeSlices(t);
      ReadingIs(fmt, t, |t|, t);
      ScanStep(Reading(fmt), t, |t|, Judge(fmt, t), []);
    }
  }

  lemma LineEndLast(t: Bytes)
    requires t != [] && NEWLINE !in t
    ensures LineEnd(t) == |t| && !Terminated(t)
  {
    assert forall b :: b in t[..|t| - 1] ==> b in t;
    LineEndIs(t, |t|);
  }

  lemma WholeSlices(t: Bytes)
    ensures t[..|t|] == t && t[|t|..] == []
  {
  }

  /** One step of the scan, with the pieces of the text given by name. */
  lemma ScanStep(next: Bytes -> Line, x: Bytes, n: nat, v: Verdict, rest: Bytes)
    requires next(x) == Line(n, v) && 1 <= n <= |x| && x[n..] == rest
    ensures ScanText(next, x) == After(v, n, ScanText(next, rest))
  {
  }

  lemma ReadingIs(fmt: Format, x: Bytes, e: nat, line: Bytes)
    requires x != [] && LineEnd(x) == e && x[..e] == line
    ensures Reading(fmt)(x) == Line(e, Judge(fmt, line))
  {
  }

  lemma ScanNothing(fmt: Format)
    ensures ScanText(Reading(fmt), []) == Scanned(0, [], true)
  {
  }

  lemma Assoc(a: Bytes, b: Bytes, c: Bytes)
    ensures (a + b) + c == a + (b + c)
  {
  }

  lemma TakeConcat(a: Bytes, b: Bytes, n: nat)
    requires n <= |b|
    ensures (a + b)[..|a| + n] == a + b[..n]
    ensures (a + b)[..|a|] == a && (a + b)[|a|..] == b
  {
  }

  /** A proper prefix of a good line holds no newline and is not oversized. */
  lemma NoNewlineInside(fmt: Format, a: Bytes, r: Bytes)
    requires GoodLine(fmt, a + r) && r != []
    ensures NEWLINE !in a && |a| <= fmt.max
  {
    var line := a + r;
    assert forall i :: 0 <= i < |a| ==> line[..|line| - 1][i] == a[i];
  }

  // ---------------------------------------------------------------- resuming a scan

  /** A scan of `b` picks up where a scan of `a` rested: together they find what one
      scan of `a + b` finds, and the new offset is again a resting place with the
      same records before it. */
  ghost predicate Resumes(fmt: Format, lines: seq<Bytes>, a: Bytes, b: Bytes) {
    ScanResumes(Scanning(fmt), lines, a, b)
  }

  ghost predicate ScanResumes(scan: Bytes -> Scanned, lines: seq<Bytes>, a: Bytes, b: Bytes) {
    var r := scan(b);
    r.used <= |b| && Fits(lines, |a|, scan(a), r, scan(a + b), scan(a + b[..r.used]))
  }

  function Scanning(fmt: Format): Bytes -> Scanned {
    (x: Bytes) => ScanText(Reading(fmt), x)
  }

  ghost predicate Fits(lines: seq<Bytes>, n: nat, first: Scanned, second: Scanned, whole: Scanned, upto: Scanned) {
    && whole.ok && second.ok
    && whole.found == first.found + second.found
    && Safe(lines, n + second.used)
    && upto.found == whole.found
  }

  lemma {:induction false} ResumeScan(fmt: Format, lines: seq<Bytes>, a: Bytes, b: Bytes)
    requires PrefixFree(fmt) && Legal(fmt, lines) && a + b <= File(lines) && Safe(lines, |a|)
    ensures Resumes(fmt, lines, a, b)
    decreases |lines|
  {
    if lines == [] {
      assert a == [] && b == [] && a + b == [];
    } else {
      var l, rest := lines[0], lines[1..];
      if |l| <= |a| {
        var a' := a[|l|..];
        CutAfter(a, b, l, File(rest));
        ResumeScan(fmt, rest, a', b);
        AfterLine(fmt, lines, a', b);
      } else if |l| <= |a| + |b| {
        var b' := b[|l| - |a|..];
        CutAcross(a, b, l, File(rest));
        FromNothing(b');
        ResumeScan(fmt, rest, [], b');
        AcrossLine(fmt, lines, a, l[|a|..], b');
      } else {
        CutInside(a, b, l, File(rest));
        if a == [] {
          FromNothing(b);
          InsideFirst(fmt, lines, b, l[|b|..]);
        } else {
          InsideLater(fmt, lines, a, b, l[|a| + |b|..]);
        }
      }
    }
  }

  lemma CutAfter(a: Bytes, b: Bytes, l: Bytes, w: Bytes)
    requires a + b <= l + w && |l| <= |a|
    ensures a == l + a[|l|..] && a[|l|..] + b <= w
  {
    assert forall i :: 0 <= i < |a + b| ==> (a + b)[i] == (l + w)[i];
    assert forall i :: 0 <= i < |l| ==> a[i] == (a + b)[i];
    assert a[|l|..] + b == (a + b)[|l|..];
  }

  lemma CutAcross(a: Bytes, b: Bytes, l: Bytes, w: Bytes)
    requires a + b <= l + w && |a| <= |l| <= |a| + |b|
    ensures l == a + l[|a|..] && b == l[|a|..] + b[|l| - |a|..] && b[|l| - |a|..] <= w
  {
    assert forall i :: 0 <= i < |a + b| ==> (a + b)[i] == (l + w)[i];
    assert forall i :: 0 <= i < |a| ==> a[i] == (a + b)[i];
    assert forall i :: 0 <= i < |b| ==> b[i] == (a + b)[|a| + i];
    assert b[|l| - |a|..] == (a + b)[|l|..];
  }

  lemma CutInside(a: Bytes, b: Bytes, l: Bytes, w: Bytes)
    requires a + b <= l + w && |a| + |b| <= |l|
    ensures l == a + b + l[|a| + |b|..]
  {
    assert forall i :: 0 <= i < |a + b| ==> (a + b)[i] == (l + w)[i] == l[i];
  }

  lemma AfterLine(fmt: Format, lines: seq<Bytes>, a: Bytes, b: Bytes)
    requires lines != [] && GoodLine(fmt, lines[0]) && Resumes(fmt, lines[1..], a, b)
    ensures Resumes(fmt, lines, lines[0] + a, b)
  {
    var l, r := lines[0], ScanText(Reading(fmt), b);
    Assoc(l, a, b);
    Assoc(l, a, b[..r.used]);
    ScanLine(fmt, l, a);
    ScanLine(fmt, l, a + b);
    ScanLine(fmt, l, a + b[..r.used]);
    Assoc3(RecordOf(l), ScanText(Reading(fmt), a).found, r.found);
  }

  lemma Assoc3<T>(a: seq<T>, b: seq<T>, c: seq<T>)
    ensures (a + b) + c == a + (b + c)
  {
  }

  lemma AcrossLine(fmt: Format, lines: seq<Bytes>, a: Bytes, r: Bytes, b: Bytes)
    requires PrefixFree(fmt) && lines != [] && GoodLine(fmt, lines[0]) && lines[0] == a + r && r != []
    requires Safe(lines, |a|) && Resumes(fmt, lines[1..], [], b)
    ensures Resumes(fmt, lines, a, r + b)
  {
    var l, used := lines[0], ScanText(Reading(fmt), b).used;
    StartOfLine(fmt, a, r, lines);
    FitsFromStart(fmt, lines[1..], b);
    ScanLine(fmt, l, b);
    ScanLine(fmt, l, b[..used]);
    ScanLine(fmt, r, b);
    AcrossBy(Scanning(fmt), lines, a, r, b, RecordOf(r), RecordOf(l));
  }

  /** Prefixing a text by a line that scans to `record`. */
  ghost predicate Prefixes(scan: Bytes -> Scanned, line: Bytes, text: Bytes, record: seq<Bytes>) {
    scan(line + text) == Scanned(|line| + scan(text).used, record + scan(text).found, scan(text).ok)
  }

  lemma AcrossBy(scan: Bytes -> Scanned, lines: seq<Bytes>, a: Bytes, r: Bytes, b: Bytes,
                 part: seq<Bytes>, record: seq<Bytes>)
    requires lines != [] && lines[0] == a + r && scan(a).found + part == record && scan(b).used <= |b|
    requires Prefixes(scan, r, b, part) && Prefixes(scan, a + r, b, record)
    requires Prefixes(scan, a + r, b[..scan(b).used], record)
    requires Fits(lines[1..], 0, Scanned(0, [], true), scan(b), scan(b), scan(b[..scan(b).used]))
    ensures ScanResumes(scan, lines, a, r + b)
  {
    FitsAcross(lines, |a|, |r|, scan(a), scan(b), scan(b[..scan(b).used]), part, record);
    AcrossPieces(scan, lines, a, r, b);
  }

  lemma FitsFromStart(fmt: Format, lines: seq<Bytes>, b: Bytes)
    requires Resumes(fmt, lines, [], b)
    ensures var s := ScanText(Reading(fmt), b);
      Fits(lines, 0, Scanned(0, [], true), s, s, ScanText(Reading(fmt), b[..s.used]))
  {
    FromNothing(b);
    FromNothing(b[..ScanText(Reading(fmt), b).used]);
  }

  lemma AcrossPieces(scan: Bytes -> Scanned, lines: seq<Bytes>, a: Bytes, r: Bytes, b: Bytes)
    requires scan(b).used <= |b| && scan(r + b).used == |r| + scan(b).used
    requires Fits(lines, |a|, scan(a), scan(r + b), scan((a + r) + b), scan((a + r) + b[..scan(b).used]))
    ensures ScanResumes(scan, lines, a, r + b)
  {
    Regroup(a, r, b, scan(b).used);
  }

  lemma Regroup(a: Bytes, r: Bytes, b: Bytes, n: nat)
    requires n <= |b|
    ensures a + (r + b) == (a + r) + b
    ensures a + (r + b)[..|r| + n] == (a + r) + b[..n]
  {
    TakeConcat(r, b, n);
  }

  lemma FitsAcross(lines: seq<Bytes>, n: nat, m: nat, first: Scanned, rest: Scanned, upto: Scanned,
                   fromRest: seq<Bytes>, fromLine: seq<Bytes>)
    requires lines != [] && |lines[0]| == n + m && first.found + fromRest == fromLine
    requires Fits(lines[1..], 0, Scanned(0, [], true), rest, rest, upto)
    ensures Fits(lines, n, first, Scanned(m + rest.used, fromRest + rest.found, rest.ok),
                 Scanned(n + m + rest.used, fromLine + rest.found, rest.ok),
                 Scanned(n + m + upto.used, fromLine + upto.found, upto.ok))
  {
    Assoc3(first.found, fromRest, rest.found);
  }

  lemma FromNothing(b: Bytes)
    ensures [] + b == b && b + [] == b
  {
  }

  /** The two pieces a resting place cuts a line into hold the line's record once. */
  lemma StartOfLine(fmt: Format, a: Bytes, r: Bytes, lines: seq<Bytes>)
    requires lines != [] && GoodLine(fmt, lines[0]) && lines[0] == a + r && r != [] && Safe(lines, |a|)
    ensures GoodLine(fmt, r) && ScanText(Reading(fmt), a).found + RecordOf(r) == RecordOf(a + r)
  {
    if a == [] {
      FromNothing(r);
    } else {
      TakeConcat(a, r, 0);
      BlankRemainder(fmt, a, r);
      NoNewlineInside(fmt, a, r);
      ScanTail(fmt, a);
    }
  }

  lemma InsideFirst(fmt: Format, lines: seq<Bytes>, b: Bytes, r: Bytes)
    requires PrefixFree(fmt) && lines != [] && GoodLine(fmt, lines[0]) && lines[0] == b + r && r != []
    ensures Resumes(fmt, lines, [], b)
  {
    NoNewlineInside(fmt, b, r);
    ScanTail(fmt, b);
    ScanNothing(fmt);
    SafeAfterRecord(fmt, lines, b, r);
    FirstFits(Scanning(fmt), lines, b);
  }

  /** A scan that takes all of a text or nothing of it, from the start of a line. */
  lemma FirstFits(scan: Bytes -> Scanned, lines: seq<Bytes>, b: Bytes)
    requires scan([]) == Scanned(0, [], true) && scan(b).ok
    requires scan(b).used == |b| || (scan(b).used == 0 && scan(b).found == [])
    requires Safe(lines, scan(b).used)
    ensures ScanResumes(scan, lines, [], b)
  {
    assert [] + b == b && b[..|b|] == b && b[..0] == [];
    NothingBefore(scan(b).found);
  }

  lemma NothingBefore<T>(a: seq<T>)
    ensures [] + a == a
  {
  }

  lemma SafeAfterRecord(fmt: Format, lines: seq<Bytes>, b: Bytes, r: Bytes)
    requires PrefixFree(fmt) && lines != [] && GoodLine(fmt, lines[0]) && lines[0] == b + r && r != []
    ensures Trim(b) != [] && fmt.valid(Trim(b)) ==> Safe(lines, |b|)
  {
    if Trim(b) != [] && fmt.valid(Trim(b)) {
      RecordIsOver(fmt, b, r);
      TakeConcat(b, r, 0);
    }
  }

  lemma InsideLater(fmt: Format, lines: seq<Bytes>, a: Bytes, b: Bytes, r: Bytes)
    requires lines != [] && GoodLine(fmt, lines[0]) && lines[0] == a + b + r && r != [] && a != []
    requires Safe(lines, |a|)
    ensures Resumes(fmt, lines, a, b)
  {
    Assoc(a, b, r);
    TakeConcat(a, b + r, 0);
    BlankRemainder(fmt, a, b + r);
    NoNewlineInside(fmt, a, b + r);
    NoNewlineInside(fmt, b, r);
    NoNewlineInside(fmt, a + b, r);
    assert Blank(b) by {
      assert forall i :: 0 <= i < |b| ==> b[i] == (b + r)[i];
    }
    TrimExtend(a, b);
    TrimBlank(b);
    ScanTail(fmt, a);
    ScanTail(fmt, b);
    ScanTail(fmt, a + b);
    assert b[..0] == [];
    FromNothing(a);
  }

  // ---------------------------------------------------------------- growing files

  /** The cached index, by the contents of its records. */
  datatype Progress = Progress(offset: nat, found: seq<Bytes>, ok: bool)

  function Refresh(fmt: Format, p: Progress, f: Bytes): Progress {
    var from := if |f| < p.offset then Progress(0, [], true) else p;
    var r := ScanText(Reading(fmt), f[from.offset..]);
    Progress(from.offset + r.used, from.found + r.found, r.ok)
  }

  /** The index after a request at each stage of a file's growth. */
  function RefreshAll(fmt: Format, stages: seq<Bytes>): Progress {
    if stages == [] then Progress(0, [], true)
    else Refresh(fmt, RefreshAll(fmt, stages[..|stages| - 1]), stages[|stages| - 1])
  }

  /** Stages of one file that only grows, cut anywhere. */
  ghost predicate Growth(stages: seq<Bytes>, g: Bytes) {
    && (forall i :: 0 <= i < |stages| ==> stages[i] <= g)
    && (forall i, j :: 0 <= i <= j < |stages| ==> stages[i] <= stages[j])
  }

  /** The index rests at a safe offset of the file and holds the records before it. */
  ghost predicate Rests(fmt: Format, lines: seq<Bytes>, p: Progress, f: Bytes) {
    ScanRests(Scanning(fmt), lines, p, f)
  }

  ghost predicate ScanRests(scan: Bytes -> Scanned, lines: seq<Bytes>, p: Progress, f: Bytes) {
    p.offset <= |f| && Holds(lines, p, scan(f), scan(f[..p.offset]))
  }

  ghost predicate Holds(lines: seq<Bytes>, p: Progress, whole: Scanned, upto: Scanned) {
    p.ok && Safe(lines, p.offset) && p.found == upto.found && p.found == whole.found
  }

  lemma SplitLater(earlier: Bytes, f: Bytes, n: nat)
    requires earlier <= f && n <= |earlier|
    ensures f[..n] == earlier[..n] && f[..n] + f[n..] == f
  {
  }

  lemma RefreshRests(fmt: Format, lines: seq<Bytes>, p: Progress, earlier: Bytes, f: Bytes)
    requires PrefixFree(fmt) && Legal(fmt, lines) && earlier <= f <= File(lines) && Rests(fmt, lines, p, earlier)
    ensures Rests(fmt, lines, Refresh(fmt, p, f), f)
    ensures p.found <= Refresh(fmt, p, f).found
  {
    var a, b := f[..p.offset], f[p.offset..];
    SplitLater(earlier, f, p.offset);
    ResumeScan(fmt, lines, a, b);
    RefreshValue(fmt, p, a, b);
    RestsAfter(Scanning(fmt), lines, p, a, b, Refresh(fmt, p, f), f);
  }

  lemma RefreshValue(fmt: Format, p: Progress, a: Bytes, b: Bytes)
    requires |a| == p.offset
    ensures var r := ScanText(Reading(fmt), b);
      Refresh(fmt, p, a + b) == Progress(|a| + r.used, p.found + r.found, r.ok)
  {
    TakeConcat(a, b, 0);
  }

  lemma RestsAfter(scan: Bytes -> Scanned, lines: seq<Bytes>, p: Progress, a: Bytes, b: Bytes, p': Progress, f: Bytes)
    requires |a| == p.offset && p.ok && p.found == scan(a).found && scan(b).used <= |b|
    requires ScanResumes(scan, lines, a, b) && f == a + b
    requires p' == Progress(|a| + scan(b).used, p.found + scan(b).found, scan(b).ok)
    ensures ScanRests(scan, lines, p', f)
  {
    PrefixOfConcat(a, b, scan(b).used);
    FitsHolds(lines, |a|, scan(a), scan(b), scan(f), scan(f[..p'.offset]));
  }

  lemma PrefixOfConcat(a: Bytes, b: Bytes, n: nat)
    requires n <= |b|
    ensures (a + b)[..|a| + n] == a + b[..n] && |a + b| == |a| + |b|
  {
  }

  lemma FitsHolds(lines: seq<Bytes>, n: nat, first: Scanned, second: Scanned, whole: Scanned, upto: Scanned)
    requires Fits(lines, n, first, second, whole, upto)
    ensures Holds(lines, Progress(n + second.used, first.found + second.found, second.ok), whole, upto)
  {
  }

  lemma {:induction false} IncrementalState(fmt: Format, lines: seq<Bytes>, stages: seq<Bytes>)
    requires PrefixFree(fmt) && Legal(fmt, lines) && Growth(stages, File(lines))
    ensures Rests(fmt, lines, RefreshAll(fmt, stages), if stages == [] then [] else stages[|stages| - 1])
    decreases |stages|
  {
    var nothing: Bytes := [];
    assert nothing[..0] == nothing;
    if stages != [] {
      var before := stages[..|stages| - 1];
      IncrementalState(fmt, lines, before);
      var last := if before == [] then nothing else before[|before| - 1];
      RefreshRests(fmt, lines, RefreshAll(fmt, before), last, stages[|stages| - 1]);
    }
  }

  /** However a well-formed file is cut into growth steps, the incremental index
      holds the same records as one scan of the file as it stands. */
  lemma IncrementalAgrees(fmt: Format, lines: seq<Bytes>, stages: seq<Bytes>)
    requires PrefixFree(fmt) && Legal(fmt, lines) && Growth(stages, File(lines)) && stages != []
    ensures RefreshAll(fmt, stages).ok
    ensures RefreshAll(fmt, stages).found == ScanText(Reading(fmt), stages[|stages| - 1]).found
  {
    IncrementalState(fmt, lines, stages);
  }

  /** One scan of the finished file finds the records of its lines, in order. */
  lemma {:induction false} ScanFindsLines(fmt: Format, lines: seq<Bytes>)
    requires Legal(fmt, lines)
    ensures ScanText(Reading(fmt), File(lines)).ok
    ensures ScanText(Reading(fmt), File(lines)).found == RecordsOf(lines)
    decreases |lines|
  {
    if lines != [] {
      ScanFindsLines(fmt, lines[1..]);
      ScanLine(fmt, lines[0], File(lines[1..]));
    }
  }

  function RecordsOf(lines: seq<Bytes>): seq<Bytes> {
    if lines == [] then [] else RecordOf(lines[0]) + RecordsOf(lines[1..])
  }

  ghost predicate AgreesAt(fmt: Format, stages: seq<Bytes>) {
    stages != [] ==> RefreshAll(fmt, stages).found == ScanText(Reading(fmt), stages[|stages| - 1]).found
  }

  ghost predicate AlwaysAgrees(fmt: Format) {
    forall lines, stages {:trigger Growth(stages, File(lines))} ::
      Legal(fmt, lines) && Growth(stages, File(lines)) ==> AgreesAt(fmt, stages)
  }

  /** The incremental index is exact for every well-formed file and every way of
      cutting it if and only if no valid record is a proper prefix of another. */
  lemma AgreesIffPrefixFree(fmt: Format)
    ensures AlwaysAgrees(fmt) <==> PrefixFree(fmt)
  {
    if PrefixFree(fmt) {
      forall lines, stages | Legal(fmt, lines) && Growth(stages, File(lines)) ensures AgreesAt(fmt, stages) {
        if stages != [] {
          IncrementalAgrees(fmt, lines, stages);
        }
      }
    } else {
      var p, q :| IsRecord(fmt, p) && IsRecord(fmt, q) && p <= q && p != q;
      var g := q + [NEWLINE];
      CutInsideRecord(fmt, p, q);
      FileOfOne(g);
      RecordLine(fmt, q);
      assert Legal(fmt, [g]) && Growth([p, g], File([g]));
    }
  }

  lemma RecordLine(fmt: Format, q: Bytes)
    requires IsRecord(fmt, q)
    ensures GoodLine(fmt, q + [NEWLINE]) && Trim(q + [NEWLINE]) == q
    ensures ScanText(Reading(fmt), q) == Scanned(|q|, [q], true)
  {
    var g := q + [NEWLINE];
    assert g[..|g| - 1] == q;
    TrimExtend(q, [NEWLINE]);
    ScanTail(fmt, q);
  }

  /** If one record is a proper prefix of another, a request that arrives when only
      the shorter one is on disk leaves the index wrong. */
  lemma CutInsideRecord(fmt: Format, p: Bytes, q: Bytes)
    requires IsRecord(fmt, p) && IsRecord(fmt, q) && p <= q && p != q
    ensures Growth([p, q + [NEWLINE]], q + [NEWLINE]) && !AgreesAt(fmt, [p, q + [NEWLINE]])
  {
    var g := q + [NEWLINE];
    assert p <= g;
    TwoStages(fmt, p, g);
    OneLine(fmt, q);
  }

  /** Bare numbers, as a JSON validator accepts them. */
  predicate Digits(s: Bytes) {
    s != [] && forall i :: 0 <= i < |s| ==> 48 <= s[i] <= 57
  }

  /** A file that holds the number 12, asked for when only the 1 is on disk, is indexed as
      the record 1. */
  lemma NumberCutShort(max: nat)
    requires 3 <= max
    ensures var fmt := Format(Digits, max);
      && Legal(fmt, [[49, 50, NEWLINE]]) && Growth([[49], [49, 50, NEWLINE]], File([[49, 50, NEWLINE]]))
      && !AgreesAt(fmt, [[49], [49, 50, NEWLINE]])
  {
    var fmt := Format(Digits, max);
    var p: Bytes, q: Bytes := [49], [49, 50];
    assert q + [NEWLINE] == [49, 50, NEWLINE];
    NumberIsRecord(fmt, p);
    NumberIsRecord(fmt, q);
    CutInsideRecord(fmt, p, q);
    FileOfOne(q + [NEWLINE]);
    RecordLine(fmt, q);
  }

  lemma NumberIsRecord(fmt: Format, s: Bytes)
    requires fmt.valid == Digits && Digits(s) && |s| < fmt.max
    ensures IsRecord(fmt, s)
  {
    assert !IsSpace(s[0]) && !IsSpace(s[|s| - 1]);
  }

  lemma FileOfOne(line: Bytes)
    ensures File([line]) == line
  {
    var lines := [line];
    assert lines[1..] == [] && File(lines[1..]) == [];
    FromNothing(line);
  }

  lemma OneLine(fmt: Format, q: Bytes)
    requires IsRecord(fmt, q)
    ensures ScanText(Reading(fmt), q + [NEWLINE]).found != [] && ScanText(Reading(fmt), q + [NEWLINE]).found[0] == q
  {
    var g := q + [NEWLINE];
    RecordLine(fmt, q);
    ScanLine(fmt, g, []);
    FromNothing(g);
  }

  lemma TwoStages(fmt: Format, p: Bytes, g: Bytes)
    requires IsRecord(fmt, p) && p <= g
    ensures Growth([p, g], g)
    ensures [p] <= RefreshAll(fmt, [p, g]).found
  {
    GrowthOfTwo(p, g);
    OneStage(fmt, p);
    RefreshLast(fmt, [p], g, [p, g]);
    RefreshKeeps(fmt, Progress(|p|, [p], true), g);
  }

  lemma GrowthOfTwo(p: Bytes, g: Bytes)
    requires p <= g
    ensures Growth([p, g], g)
  {
  }

  lemma RefreshLast(fmt: Format, before: seq<Bytes>, f: Bytes, stages: seq<Bytes>)
    requires stages == before + [f]
    ensures RefreshAll(fmt, stages) == Refresh(fmt, RefreshAll(fmt, before), f)
  {
    assert stages[..|before|] == before;
  }

  lemma RefreshKeeps(fmt: Format, p: Progress, f: Bytes)
    requires p.offset <= |f|
    ensures p.found <= Refresh(fmt, p, f).found
  {
  }

  lemma OneStage(fmt: Format, p: Bytes)
    requires IsRecord(fmt, p)
    ensures RefreshAll(fmt, [p]) == Progress(|p|, [p], true)
  {
    RecordLine(fmt, p);
    var none: seq<Bytes> := [p][..0];
    assert none == [];
    assert RefreshAll(fmt, none) == Progress(0, [], true);
    assert p[0..] == p;
  }

  /** The contents behind a number never change: a later index extends an earlier one. */
  lemma {:induction false} SeqKeepsMeaning(fmt: Format, lines: seq<Bytes>, stages: seq<Bytes>, i: nat)
    requires PrefixFree(fmt) && Legal(fmt, lines) && Growth(stages, File(lines)) && 0 < i <= |stages|
    ensures RefreshAll(fmt, stages[..i]).found <= RefreshAll(fmt, stages).found
    decreases |stages|
  {
    if i == |stages| {
      assert stages[..i] == stages;
    } else {
      var n := |stages| - 1;
      EarlierGrowth(stages, File(lines), n);
      SeqKeepsMeaning(fmt, lines, stages[..n], i);
      PrefixTwice(stages, n, i);
      StageKeepsMeaning(fmt, lines, stages[..n], stages[n], stages);
    }
  }

  lemma PrefixTwice<T>(s: seq<T>, n: nat, i: nat)
    requires i <= n <= |s|
    ensures s[..n][..i] == s[..i] && (n + 1 == |s| ==> s == s[..n] + [s[n]])
  {
  }

  lemma StageKeepsMeaning(fmt: Format, lines: seq<Bytes>, before: seq<Bytes>, f: Bytes, stages: seq<Bytes>)
    requires PrefixFree(fmt) && Legal(fmt, lines) && Growth(before, File(lines)) && before != []
    requires before[|before| - 1] <= f <= File(lines) && stages == before + [f]
    ensures RefreshAll(fmt, before).found <= RefreshAll(fmt, stages).found
  {
    LastKeepsMeaning(fmt, lines, before, f);
    RefreshLast(fmt, before, f, stages);
  }

  lemma LastKeepsMeaning(fmt: Format, lines: seq<Bytes>, before: seq<Bytes>, f: Bytes)
    requires PrefixFree(fmt) && Legal(fmt, lines) && Growth(before, File(lines)) && before != []
    requires before[|before| - 1] <= f <= File(lines)
    ensures RefreshAll(fmt, before).found <= Refresh(fmt, RefreshAll(fmt, before), f).found
  {
    IncrementalState(fmt, lines, before);
    RefreshRests(fmt, lines, RefreshAll(fmt, before), before[|before| - 1], f);
  }

  // ------------------------------------------------------------------- the adapter

  datatype Pos = Pos(seqNo: int, offset: nat, length: nat)

  datatype FileIndex = FileIndex(offset: nat, records: seq<Pos>)

  const EMPTY_INDEX := FileIndex(0, [])

  datatype IndexError = RecordTooLarge | InvalidRecord(at: nat)

  datatype Raw = Raw(seqNo: int, payload: Bytes)

  datatype SessionPage = SessionPage(records: seq<Raw>, nextCursor: int, eof: bool)

  /** Record positions lie below the offset and are numbered from 1. */
  ghost predicate IndexOK(idx: FileIndex) {
    && (forall i :: 0 <= i < |idx.records| ==> idx.records[i].seqNo == i + 1)
    && Within(idx.records, idx.offset)
  }

  ghost predicate Within(records: seq<Pos>, n: nat) {
    forall i :: 0 <= i < |records| ==> records[i].offset + records[i].length <= n
  }

  /** The text a position points at. */
  function TextAt(file: Bytes, pos: Pos): Bytes {
    if pos.offset + pos.length <= |file| then file[pos.offset..pos.offset + pos.length] else []
  }

  /** The trimmed contents the positions of an index point at. */
  function Contents(trim: Bytes -> Bytes, file: Bytes, records: seq<Pos>): (found: seq<Bytes>)
    ensures |found| == |records|
    ensures forall i :: 0 <= i < |records| ==> found[i] == trim(TextAt(file, records[i]))
  {
    seq(|records|, i requires 0 <= i < |records| => trim(TextAt(file, records[i])))
  }

  /** The index as the analysis above sees it. */
  function View(file: Bytes, idx: FileIndex): Progress
    requires IndexOK(idx) && idx.offset <= |file|
  {
    Progress(idx.offset, Contents(Trim, file, idx.records), true)
  }

  function Numbered(found: seq<Bytes>): (log: seq<Raw>)
    ensures |log| == |found|
  {
    seq(|found|, i requires 0 <= i < |found| => Raw(i + 1, found[i]))
  }

  function RawSeq(r: Raw): int { r.seqNo }

  /** The line the next read returns. */
  function NextLine(file: Bytes, cursor: nat): (line: Bytes)
    requires cursor < |file|
    ensures line != [] && cursor + |line| <= |file|
  {
    file[cursor..][..LineEnd(file[cursor..])]
  }

  lemma NextLineFacts(file: Bytes, cursor: nat, n: nat)
    requires cursor < |file|
    ensures var line := NextLine(file, cursor); TextAt(file, Pos(n, cursor, |line|)) == line
  {
  }

  /** What is left of the file from `cursor` on. */
  function Rest(file: Bytes, cursor: nat): Bytes {
    if cursor <= |file| then file[cursor..] else []
  }

  lemma TextStep(next: Bytes -> Line, file: Bytes, cursor: nat, n: nat, v: Verdict)
    requires cursor < |file| && next(Rest(file, cursor)) == Line(n, v) && 1 <= n <= |file| - cursor
    ensures ScanText(next, Rest(file, cursor)) == After(v, n, ScanText(next, Rest(file, cursor + n)))
  {
    DropTwice(file, cursor, n);
    ScanStep(next, Rest(file, cursor), n, v, Rest(file, cursor + n));
  }

  lemma ReadingNext(fmt: Format, file: Bytes, cursor: nat, line: Bytes)
    requires cursor < |file| && line == NextLine(file, cursor)
    ensures Reading(fmt)(Rest(file, cursor)) == Line(|line|, Judge(fmt, line))
  {
    ReadingIs(fmt, Rest(file, cursor), |line|, line);
  }

  lemma EndStep(fmt: Format, file: Bytes)
    ensures ScanText(Reading(fmt), Rest(file, |file|)) == Scanned(0, [], true)
  {
    assert Rest(file, |file|) == [];
    ScanNothing(fmt);
  }

  lemma DropTwice(s: Bytes, c: nat, n: nat)
    requires c + n <= |s|
    ensures s[c..][n..] == s[c + n..]
  {
  }

  lemma ContentsAppend(trim: Bytes -> Bytes, file: Bytes, records: seq<Pos>, pos: Pos)
    ensures Contents(trim, file, records + [pos]) == Contents(trim, file, records) + [trim(TextAt(file, pos))]
  {
  }

  /** What a partly updated index has still to find, together with what it holds,
      is what the whole pass over the file from `from` finds. */
  ghost predicate Progressing(next: Bytes -> Line, trim: Bytes -> Bytes, file: Bytes,
                              from: FileIndex, idx: FileIndex)
  {
    OnTheWay(trim, file, from, idx, ScanText(next, Rest(file, from.offset)), ScanText(next, Rest(file, idx.offset)))
  }

  /** The same, with the scans from both offsets given. */
  ghost predicate OnTheWay(trim: Bytes -> Bytes, file: Bytes, from: FileIndex, idx: FileIndex,
                           whole: Scanned, rest: Scanned)
  {
    && IndexOK(from) && IndexOK(idx)
    && from.offset <= idx.offset <= |file| && from.records <= idx.records
    && Leads(idx.offset, Contents(trim, file, idx.records), rest,
             from.offset, Contents(trim, file, from.records), whole)
  }

  ghost predicate Leads(c: nat, held: seq<Bytes>, rest: Scanned, c0: nat, held0: seq<Bytes>, whole: Scanned) {
    && c + rest.used == c0 + whole.used
    && held + rest.found == held0 + whole.found
    && rest.ok == whole.ok
  }

  lemma LeadsStep(c: nat, held: seq<Bytes>, rest: Scanned, c0: nat, held0: seq<Bytes>, whole: Scanned,
                  n: nat, found: seq<Bytes>, rest': Scanned)
    requires Leads(c, held, rest, c0, held0, whole)
    requires rest == Scanned(n + rest'.used, found + rest'.found, rest'.ok)
    ensures Leads(c + n, held + found, rest', c0, held0, whole)
  {
    Assoc3(held, found, rest'.found);
  }

  /** The index after a complete line of `n` bytes at its offset, blank or not. */
  function Taken(idx: FileIndex, n: nat, blank: bool): FileIndex {
    FileIndex(idx.offset + n,
      if blank then idx.records else idx.records + [Pos(|idx.records| + 1, idx.offset, n)])
  }

  lemma TakenOK(from: FileIndex, idx: FileIndex, n: nat, blank: bool)
    requires IndexOK(idx) && from.records <= idx.records
    ensures IndexOK(Taken(idx, n, blank)) && from.records <= Taken(idx, n, blank).records
  {
  }

  lemma TakenContents(trim: Bytes -> Bytes, file: Bytes, idx: FileIndex, n: nat, blank: bool)
    ensures Contents(trim, file, Taken(idx, n, blank).records)
         == Contents(trim, file, idx.records)
            + (if blank then [] else [trim(TextAt(file, Pos(|idx.records| + 1, idx.offset, n)))])
  {
    NothingAdded(Contents(trim, file, idx.records));
    ContentsAppend(trim, file, idx.records, Pos(|idx.records| + 1, idx.offset, n));
  }

  lemma NothingAdded<T>(a: seq<T>)
    ensures a + [] == a
  {
  }

  lemma TakeStep(trim: Bytes -> Bytes, file: Bytes, from: FileIndex, idx: FileIndex, line: Bytes, blank: bool,
                 whole: Scanned, rest: Scanned, rest': Scanned, next: FileIndex)
    requires OnTheWay(trim, file, from, idx, whole, rest) && idx.offset + |line| <= |file|
    requires TextAt(file, Pos(|idx.records| + 1, idx.offset, |line|)) == line
    requires rest == After(Whole(if blank then [] else [trim(line)]), |line|, rest')
    requires next == Taken(idx, |line|, blank)
    ensures OnTheWay(trim, file, from, next, whole, rest') && next.offset == idx.offset + |line|
  {
    TakenOK(from, idx, |line|, blank);
    TakenContents(trim, file, idx, |line|, blank);
    LeadsStep(idx.offset, Contents(trim, file, idx.records), rest, from.offset, Contents(trim, file, from.records),
              whole, |line|, if blank then [] else [trim(line)], rest');
  }

  lemma TakeLine(next: Bytes -> Line, trim: Bytes -> Bytes, file: Bytes, from: FileIndex, idx: FileIndex,
                 line: Bytes, blank: bool)
    requires Progressing(next, trim, file, from, idx) && idx.offset < |file|
    requires line != [] && TextAt(file, Pos(|idx.records| + 1, idx.offset, |line|)) == line
    requires next(Rest(file, idx.offset)) == Line(|line|, Whole(if blank then [] else [trim(line)]))
    requires idx.offset + |line| <= |file|
    ensures Progressing(next, trim, file, from, Taken(idx, |line|, blank))
  {
    var taken, end := Taken(idx, |line|, blank), idx.offset + |line|;
    TextStep(next, file, idx.offset, |line|, Whole(if blank then [] else [trim(line)]));
    TakeStep(trim, file, from, idx, line, blank, ScanText(next, Rest(file, from.offset)),
             ScanText(next, Rest(file, idx.offset)), ScanText(next, Rest(file, end)), taken);
  }

  lemma TakeNextLine(fmt: Format, file: Bytes, from: FileIndex, idx: FileIndex, line: Bytes, blank: bool)
    requires Progressing(Reading(fmt), Trim, file, from, idx) && idx.offset < |file|
    requires line == NextLine(file, idx.offset) && Judge(fmt, line) == Whole(if blank then [] else [Trim(line)])
    ensures Progressing(Reading(fmt), Trim, file, from, Taken(idx, |line|, blank))
  {
    ReadingNext(fmt, file, idx.offset, line);
    NextLineFacts(file, idx.offset, |idx.records| + 1);
    TakeLine(Reading(fmt), Trim, file, from, idx, line, blank);
  }

  /** A pass that stopped at `idx` for good left the index `Refresh` describes. */
  ghost predicate Stopped(fmt: Format, file: Bytes, from: FileIndex, idx: FileIndex, ok: bool) {
    && IndexOK(from) && IndexOK(idx) && from.offset <= |file| && idx.offset <= |file|
    && from.records <= idx.records
    && Refresh(fmt, View(file, from), file) == View(file, idx).(ok := ok)
  }

  lemma StopHere(held: seq<Bytes>, c: nat, rest: Scanned, held0: seq<Bytes>, c0: nat, whole: Scanned, ok: bool)
    requires Leads(c, held, rest, c0, held0, whole) && rest == Scanned(0, [], ok)
    ensures c == c0 + whole.used && whole.ok == ok && held == held0 + whole.found
  {
    NothingAdded(held);
  }

  lemma StopIsRefresh(fmt: Format, file: Bytes, from: FileIndex, idx: FileIndex, ok: bool)
    requires Progressing(Reading(fmt), Trim, file, from, idx)
    requires ScanText(Reading(fmt), Rest(file, idx.offset)) == Scanned(0, [], ok)
    ensures Stopped(fmt, file, from, idx, ok)
  {
    StopHere(Contents(Trim, file, idx.records), idx.offset, ScanText(Reading(fmt), Rest(file, idx.offset)),
             Contents(Trim, file, from.records), from.offset, ScanText(Reading(fmt), Rest(file, from.offset)), ok);
  }

  lemma StopAtLine(fmt: Format, file: Bytes, from: FileIndex, idx: FileIndex, line: Bytes, ok: bool)
    requires Progressing(Reading(fmt), Trim, file, from, idx) && idx.offset < |file|
    requires line == NextLine(file, idx.offset) && Judge(fmt, line) == if ok then Partial else Bad
    ensures Stopped(fmt, file, from, idx, ok)
  {
    ReadingNext(fmt, file, idx.offset, line);
    TextStep(Reading(fmt), file, idx.offset, |line|, Judge(fmt, line));
    StopIsRefresh(fmt, file, from, idx, ok);
  }

  /** The error names the line the index stopped at. */
  ghost predicate ErrorAt(fmt: Format, file: Bytes, offset: nat, err: IndexError) {
    && offset < |file|
    && err == if |NextLine(file, offset)| > fmt.max then RecordTooLarge else InvalidRecord(offset)
  }

  /** Reads one line at the index's offset and decides what to do with it. */
  method ReadLine(fmt: Format, file: Bytes, ghost from: FileIndex, idx: FileIndex)
    returns (idx': FileIndex, stop: bool, err: Option<IndexError>)
    requires Progressing(Reading(fmt), Trim, file, from, idx) && idx.offset < |file|
    ensures stop ==> Stopped(fmt, file, from, idx', err.None?)
    ensures err.Some? ==> ErrorAt(fmt, file, idx'.offset, err.value)
    ensures !stop ==> err.None? && idx.offset < idx'.offset
    ensures !stop ==> Progressing(Reading(fmt), Trim, file, from, idx')
  {
    var cursor := idx.offset;
    var line := NextLine(file, cursor);
    if |line| > fmt.max {
      StopAtLine(fmt, file, from, idx, line, false);
      return idx, true, Some(RecordTooLarge);
    }
    var verdict := JudgeLine(fmt, line);
    match verdict
    case Partial =>
      StopAtLine(fmt, file, from, idx, line, true);
      return idx, true, None;
    case Bad =>
      StopAtLine(fmt, file, from, idx, line, false);
      return idx, true, Some(InvalidRecord(cursor));
    case Whole(record) =>
      TakeNextLine(fmt, file, from, idx, line, record == []);
      idx' := idx;
      if record != [] {
        idx' := idx'.(records := idx'.records + [Pos(|idx'.records| + 1, cursor, |line|)]);
      }
      idx' := idx'.(offset := cursor + |line|);
      assert idx' == Taken(idx, |line|, record == []);
      return idx', false, None;
  }

  /** The tests on one line that is not too long. */
  method JudgeLine(fmt: Format, line: Bytes) returns (verdict: Verdict)
    requires line != [] && |line| <= fmt.max
    ensures verdict == Judge(fmt, line)
    ensures verdict.Whole? ==> verdict.record == if Trim(line) == [] then [] else [Trim(line)]
  {
    var trimmed := Trim(line);
    var complete := Terminated(line);
    if !complete && trimmed != [] && fmt.valid(trimmed) {
      complete := true;
    }
    if !complete {
      return Partial;
    }
    if trimmed != [] && !fmt.valid(trimmed) {
      return Bad;
    }
    return Whole(if trimmed == [] then [] else [trimmed]);
  }

  /** Reads the file line by line from the offset of `from`. */
  method ScanFile(fmt: Format, file: Bytes, from: FileIndex)
    returns (idx: FileIndex, err: Option<IndexError>)
    requires IndexOK(from) && from.offset <= |file|
    ensures Stopped(fmt, file, from, idx, err.None?)
    ensures err.Some? ==> ErrorAt(fmt, file, idx.offset, err.value)
  {
    idx := from;
    while idx.offset < |file|
      invariant Progressing(Reading(fmt), Trim, file, from, idx)
      decreases |file| - idx.offset
    {
      var stop;
      idx, stop, err := ReadLine(fmt, file, from, idx);
      if stop {
        return;
      }
    }
    EndStep(fmt, file);
    StopIsRefresh(fmt, file, from, idx, true);
    err := None;
  }

  /** A cached index is used unless the file has become shorter than its offset. */
  function Resumed(idx: FileIndex, file: Bytes): FileIndex {
    if idx.offset <= |file| then idx else EMPTY_INDEX
  }

  class SessionIndexer {
    var indexes: map<string, FileIndex>

    ghost predicate Valid() reads this {
      forall path :: path in indexes ==> IndexOK(indexes[path])
    }

    /** Where a request on a file that now holds `file` starts from. */
    static function Resume(indexes: map<string, FileIndex>, path: string, file: Bytes): FileIndex {
      Resumed(if path in indexes then indexes[path] else EMPTY_INDEX, file)
    }

    /** Brings the index of `path` up to date with the file and returns its records.
        The index changes exactly as `Refresh` says; when a bad line is met it keeps
        what came before that line and the request fails. */
    method IndexSnapshot(fmt: Format, path: string, file: Bytes)
      returns (res: Result<seq<Pos>, IndexError>)
      requires Valid()
      modifies this
      ensures Valid()
      ensures path in indexes && indexes == old(indexes)[path := indexes[path]]
      ensures var cached := path in old(indexes) && old(indexes)[path].offset <= |file|;
        Stopped(fmt, file, if cached then old(indexes)[path] else FileIndex(0, []), indexes[path], res.Ok?)
      ensures res.Err? ==> ErrorAt(fmt, file, indexes[path].offset, res.error)
      ensures res.Ok? ==> res.value == indexes[path].records
    {
      var idx, err := ScanFile(fmt, file, Resume(indexes, path, file));
      indexes := indexes[path := idx];
      return if err.Some? then Err(err.value) else Ok(idx.records);
    }

    /** One page of a session: the records numbered above `after`, as many as asked
        for within the limits, each with the trimmed text the index found. */
    method Read(fmt: Format, path: string, file: Bytes, after: int, limit: int)
      returns (res: Result<SessionPage, IndexError>)
      requires Valid()
      modifies this
      ensures Valid()
      ensures path in indexes && indexes == old(indexes)[path := indexes[path]]
      ensures var cached := path in old(indexes) && old(indexes)[path].offset <= |file|;
        Stopped(fmt, file, if cached then old(indexes)[path] else FileIndex(0, []), indexes[path], res.Ok?)
      ensures res.Err? ==> ErrorAt(fmt, file, indexes[path].offset, res.error)
      ensures res.Ok? ==> IsPage(Numbered(Contents(Trim, file, indexes[path].records)), after, ReadLimit(limit), res.value)
    {
      var snapshot := IndexSnapshot(fmt, path, file);
      if snapshot.Err? {
        return Err(snapshot.error);
      }
      var page := BuildPage(file, snapshot.value, after, ReadLimit(limit));
      return Ok(page);
    }
  }

  /** `page` is the answer to a request for `limit` entries of `log` after `after`. */
  ghost predicate IsPage(log: seq<Raw>, after: int, limit: nat, page: SessionPage) {
    && page.records == P.Page(log, RawSeq, after, limit)
    && page.nextCursor == P.NextCursor(page.records, RawSeq, after)
    && (page.eof <==> P.Cut(log, RawSeq, page.nextCursor) == |log|)
  }

  method BuildPage(file: Bytes, positions: seq<Pos>, after: int, limit: nat) returns (page: SessionPage)
    requires forall i :: 0 <= i < |positions| ==> positions[i].seqNo == i + 1
    requires Within(positions, |file|)
    requires 1 <= limit
    ensures IsPage(Numbered(Contents(Trim, file, positions)), after, limit, page)
  {
    ghost var log := Numbered(Contents(Trim, file, positions));
    var start := Search(positions, after);
    var end := start + limit;
    if end > |positions| {
      end := |positions|;
    }
    NumberedCut(Contents(Trim, file, positions), positions, after, start);
    var out := Collect(file, positions, start, end);
    var next := if out == [] then after else out[|out| - 1].seqNo;
    page := SessionPage(out, next, end == |positions|);
    PageBuilt(log, after, limit, start, end, page);
  }

  lemma PageBuilt(log: seq<Raw>, after: int, limit: nat, start: nat, end: nat, page: SessionPage)
    requires P.Sorted(log, RawSeq) && P.Cut(log, RawSeq, after) == start && 1 <= limit
    requires end == if start + limit <= |log| then start + limit else |log|
    requires page.records == log[start..end] && page.eof == (end == |log|)
    requires page.nextCursor == P.NextCursor(page.records, RawSeq, after)
    ensures IsPage(log, after, limit, page)
  {
    PageEnds(log, after, limit, start);
  }

  method Collect(file: Bytes, positions: seq<Pos>, start: nat, end: nat) returns (out: seq<Raw>)
    requires start <= end <= |positions|
    requires forall i :: 0 <= i < |positions| ==> positions[i].seqNo == i + 1
    requires Within(positions, |file|)
    ensures out == Numbered(Contents(Trim, file, positions))[start..end]
  {
    ghost var log := Numbered(Contents(Trim, file, positions));
    out := [];
    for i := start to end
      invariant out == log[start..i]
    {
      var pos := positions[i];
      var raw := Raw(pos.seqNo, Trim(file[pos.offset..pos.offset + pos.length]));
      assert raw == log[i];
      out := out + [raw];
    }
  }

  lemma PageEnds(log: seq<Raw>, after: int, limit: nat, start: nat)
    requires P.Sorted(log, RawSeq) && P.Cut(log, RawSeq, after) == start && 1 <= limit
    ensures var end := if start + limit <= |log| then start + limit else |log|;
            var page := P.Page(log, RawSeq, after, limit);
      && page == log[start..end]
      && (end == |log| <==> P.Cut(log, RawSeq, P.NextCursor(page, RawSeq, after)) == |log|)
  {
    P.PageStep(log, RawSeq, after, limit);
    var end := if start + limit <= |log| then start + limit else |log|;
    if start < end {
      P.CutOfKey(log, RawSeq, end - 1);
    }
  }

  /** 200 records unless a limit is given, and never more than 2000. */
  function ReadLimit(limit: int): (most: nat)
    ensures limit <= 0 ==> most == 200
    ensures 1 <= limit <= 2000 ==> most == limit
    ensures limit > 2000 ==> most == 2000
  {
    if limit <= 0 then DEFAULT_READ_LIMIT else if limit > MAX_READ_LIMIT then MAX_READ_LIMIT else limit
  }

  /** Binary search for the first record numbered above `after`. */
  method Search(positions: seq<Pos>, after: int) returns (start: nat)
    requires forall i :: 0 <= i < |positions| ==> positions[i].seqNo == i + 1
    ensures start <= |positions|
    ensures forall i :: 0 <= i < |positions| ==> (positions[i].seqNo > after <==> start <= i)
  {
    var lo, hi := 0, |positions|;
    while lo < hi
      invariant 0 <= lo <= hi <= |positions|
      invariant forall i :: 0 <= i < lo ==> positions[i].seqNo <= after
      invariant forall i :: hi <= i < |positions| ==> positions[i].seqNo > after
    {
      var mid := (lo + hi) / 2;
      if positions[mid].seqNo > after {
        hi := mid;
      } else {
        lo := mid + 1;
      }
    }
    start := lo;
  }

  lemma NumberedSorted(found: seq<Bytes>)
    ensures P.Sorted(Numbered(found), RawSeq)
  {
  }

  lemma NumberedCut(found: seq<Bytes>, positions: seq<Pos>, after: int, start: nat)
    requires |found| == |positions| && start <= |positions|
    requires forall i :: 0 <= i < |positions| ==> positions[i].seqNo == i + 1
    requires forall i :: 0 <= i < |positions| ==> (positions[i].seqNo > after <==> start <= i)
    ensures P.Sorted(Numbered(found), RawSeq) && P.Cut(Numbered(found), RawSeq, after) == start
  {
    var log := Numbered(found);
    assert forall i :: 0 <= i < |log| ==> log[i].seqNo == positions[i].seqNo;
    StartIsCut(log, after, start);
  }

  lemma StartIsCut(log: seq<Raw>, after: int, start: nat)
    requires start <= |log| && forall i :: 0 <= i < |log| ==> log[i].seqNo == i + 1
    requires forall i :: 0 <= i < |log| ==> (log[i].seqNo > after <==> start <= i)
    ensures P.Sorted(log, RawSeq) && P.Cut(log, RawSeq, after) == start
  {
    P.CutUnique(log, RawSeq, after, start);
  }

  /** Following NextCursor while the file grows reads every record numbered above the
      first cursor exactly once and in order, up to the last cursor reached. */
  lemma FollowReadsEachRecordOnce(
      fmt: Format, lines: seq<Bytes>, stages: seq<Bytes>, limits: seq<nat>, after: int)
    requires PrefixFree(fmt) && Legal(fmt, lines) && Growth(stages, File(lines))
    requires |limits| == |stages| > 0 && forall i :: 0 <= i < |limits| ==> 1 <= limits[i]
    ensures var rounds := Requests(fmt, stages, limits);
            var log := Numbered(ScanText(Reading(fmt), stages[|stages| - 1]).found);
            var last := P.Reached(rounds, RawSeq, after);
      && P.Cut(log, RawSeq, after) <= P.Cut(log, RawSeq, last)
      && P.Collected(rounds, RawSeq, after) == log[P.Cut(log, RawSeq, after)..P.Cut(log, RawSeq, last)]
  {
    var rounds := Requests(fmt, stages, limits);
    var log := Numbered(ScanText(Reading(fmt), stages[|stages| - 1]).found);
    RequestsGrow(fmt, lines, stages, limits);
    NumberedSorted(ScanText(Reading(fmt), stages[|stages| - 1]).found);
    P.FollowEnumerates(rounds, log, RawSeq, after);
  }

  lemma RequestsGrow(fmt: Format, lines: seq<Bytes>, stages: seq<Bytes>, limits: seq<nat>)
    requires PrefixFree(fmt) && Legal(fmt, lines) && Growth(stages, File(lines))
    requires |limits| == |stages| > 0 && forall i :: 0 <= i < |limits| ==> 1 <= limits[i]
    ensures var rounds := Requests(fmt, stages, limits);
            var log := Numbered(ScanText(Reading(fmt), stages[|stages| - 1]).found);
      P.Growing(rounds, RawSeq) && forall i :: 0 <= i < |rounds| ==> rounds[i].log <= log
  {
    var rounds := Requests(fmt, stages, limits);
    forall i, j | 0 <= i <= j < |rounds| ensures rounds[i].log <= rounds[j].log {
      LaterLogExtends(fmt, lines, stages, i, j);
    }
    forall i | 0 <= i < |rounds| ensures P.Sorted(rounds[i].log, RawSeq) {
      NumberedSorted(RefreshAll(fmt, stages[..i + 1]).found);
    }
    IncrementalAgrees(fmt, lines, stages);
    assert stages[..|stages|] == stages;
    assert rounds[|rounds| - 1].log == Numbered(ScanText(Reading(fmt), stages[|stages| - 1]).found);
  }

  lemma LaterLogExtends(fmt: Format, lines: seq<Bytes>, stages: seq<Bytes>, i: nat, j: nat)
    requires PrefixFree(fmt) && Legal(fmt, lines) && Growth(stages, File(lines)) && i <= j < |stages|
    ensures Numbered(RefreshAll(fmt, stages[..i + 1]).found) <= Numbered(RefreshAll(fmt, stages[..j + 1]).found)
  {
    EarlierGrowth(stages, File(lines), j + 1);
    SeqKeepsMeaning(fmt, lines, stages[..j + 1], i + 1);
    assert stages[..j + 1][..i + 1] == stages[..i + 1];
    NumberedPrefix(RefreshAll(fmt, stages[..i + 1]).found, RefreshAll(fmt, stages[..j + 1]).found);
  }

  lemma EarlierGrowth(stages: seq<Bytes>, g: Bytes, n: nat)
    requires Growth(stages, g) && n <= |stages|
    ensures Growth(stages[..n], g)
  {
  }

  /** The requests of a follower: the index refreshed at each stage, and a page size. */
  function Requests(fmt: Format, stages: seq<Bytes>, limits: seq<nat>): (rounds: seq<P.Round<Raw>>)
    requires |limits| == |stages|
    ensures |rounds| == |stages|
    ensures forall i :: 0 <= i < |rounds| ==>
      rounds[i] == P.Round(Numbered(RefreshAll(fmt, stages[..i + 1]).found), limits[i])
  {
    seq(|stages|, i requires 0 <= i < |stages| =>
      P.Round(Numbered(RefreshAll(fmt, stages[..i + 1]).found), limits[i]))
  }

  lemma NumberedPrefix(a: seq<Bytes>, b: seq<Bytes>)
    requires a <= b
    ensures Numbered(a) <= Numbered(b)
  {
  }

  // ------------------------------------------------------------- successive requests

  /** `idxs[i]` is the cached index after `i` requests on a file that stood at `stages[i]`
      when request `i` came, and `oks[i]` whether that request succeeded. */
  ghost predicate Calls(fmt: Format, stages: seq<Bytes>, idxs: seq<FileIndex>, oks: seq<bool>) {
    && |idxs| == |stages| + 1 && |oks| == |stages| && idxs[0] == EMPTY_INDEX
    && forall i :: 0 <= i < |stages| ==> Stopped(fmt, stages[i], Resumed(idxs[i], stages[i]), idxs[i + 1], oks[i])
  }

  /** What an index points at does not change as the file grows. */
  lemma ViewGrows(file: Bytes, file': Bytes, idx: FileIndex)
    requires file <= file' && IndexOK(idx) && idx.offset <= |file|
    ensures View(file', idx) == View(file, idx)
  {
    forall i | 0 <= i < |idx.records| ensures TextAt(file', idx.records[i]) == TextAt(file, idx.records[i]) {
      assert file == file'[..|file|];
    }
    assert Contents(Trim, file', idx.records) == Contents(Trim, file, idx.records);
  }

  lemma RefreshSame(fmt: Format, p: Progress, q: Progress, f: Bytes)
    requires p.offset == q.offset && p.found == q.found
    ensures Refresh(fmt, p, f) == Refresh(fmt, q, f)
  {
  }

  /** One more request: the index stands for what the analysis computes. */
  lemma OneMoreCall(fmt: Format, earlier: Bytes, file: Bytes, p: Progress, idx: FileIndex, idx': FileIndex, ok: bool)
    requires earlier <= file && IndexOK(idx) && idx.offset <= |earlier| && View(earlier, idx) == p.(ok := true)
    requires Stopped(fmt, file, Resumed(idx, file), idx', ok)
    ensures View(file, idx').(ok := ok) == Refresh(fmt, p, file)
  {
    ViewGrows(earlier, file, idx);
    RefreshSame(fmt, View(file, idx), p, file);
  }

  lemma {:induction false} CallsRefresh(
      fmt: Format, lines: seq<Bytes>, stages: seq<Bytes>, idxs: seq<FileIndex>, oks: seq<bool>, n: nat)
    requires PrefixFree(fmt) && Legal(fmt, lines) && Growth(stages, File(lines))
    requires Calls(fmt, stages, idxs, oks) && 0 < n <= |stages|
    ensures oks[n - 1] && IndexOK(idxs[n]) && idxs[n].offset <= |stages[n - 1]|
    ensures View(stages[n - 1], idxs[n]) == RefreshAll(fmt, stages[..n])
  {
    if n > 1 {
      CallsRefresh(fmt, lines, stages, idxs, oks, n - 1);
      NextCall(fmt, lines, stages, idxs, oks, n, stages[n - 2]);
    } else {
      assert stages[..0] == [];
      NextCall(fmt, lines, stages, idxs, oks, n, []);
    }
  }

  lemma NextCall(fmt: Format, lines: seq<Bytes>, stages: seq<Bytes>, idxs: seq<FileIndex>, oks: seq<bool>,
                 n: nat, earlier: Bytes)
    requires PrefixFree(fmt) && Legal(fmt, lines) && Growth(stages, File(lines))
    requires Calls(fmt, stages, idxs, oks) && 0 < n <= |stages| && earlier <= stages[n - 1]
    requires IndexOK(idxs[n - 1]) && idxs[n - 1].offset <= |earlier|
    requires View(earlier, idxs[n - 1]) == RefreshAll(fmt, stages[..n - 1]).(ok := true)
    ensures oks[n - 1] && IndexOK(idxs[n]) && idxs[n].offset <= |stages[n - 1]|
    ensures View(stages[n - 1], idxs[n]) == RefreshAll(fmt, stages[..n])
  {
    OneMoreCall(fmt, earlier, stages[n - 1], RefreshAll(fmt, stages[..n - 1]), idxs[n - 1], idxs[n], oks[n - 1]);
    RefreshAllStep(fmt, lines, stages, n);
  }

  lemma RefreshAllStep(fmt: Format, lines: seq<Bytes>, stages: seq<Bytes>, n: nat)
    requires PrefixFree(fmt) && Legal(fmt, lines) && Growth(stages, File(lines)) && 0 < n <= |stages|
    ensures RefreshAll(fmt, stages[..n]).ok
    ensures RefreshAll(fmt, stages[..n]) == Refresh(fmt, RefreshAll(fmt, stages[..n - 1]), stages[n - 1])
  {
    RefreshLast(fmt, stages[..n - 1], stages[n - 1], stages[..n]);
    EarlierGrowth(stages, File(lines), n);
    IncrementalState(fmt, lines, stages[..n]);
  }

  /** Successive requests on a growing file: each succeeds, and the records it returns are
      those of one scan of the file as it stands, however it was cut. */
  lemma CallsAgree(fmt: Format, lines: seq<Bytes>, stages: seq<Bytes>, idxs: seq<FileIndex>, oks: seq<bool>, n: nat)
    requires PrefixFree(fmt) && Legal(fmt, lines) && Growth(stages, File(lines))
    requires Calls(fmt, stages, idxs, oks) && 0 < n <= |stages|
    ensures oks[n - 1]
    ensures Contents(Trim, stages[n - 1], idxs[n].records) == ScanText(Reading(fmt), stages[n - 1]).found
  {
    CallsRefresh(fmt, lines, stages, idxs, oks, n);
    EarlierGrowth(stages, File(lines), n);
    IncrementalAgrees(fmt, lines, stages[..n]);
  }

  /** All records of a list of pages, in order. */
  function Joined(pages: seq<SessionPage>): seq<Raw> {
    if pages == [] then [] else pages[0].records + Joined(pages[1..])
  }

  lemma {:induction false} PagesAreCollected(rounds: seq<P.Round<Raw>>, pages: seq<SessionPage>, cursors: seq<int>)
    requires |pages| == |rounds| && |cursors| == |rounds| + 1
    requires forall i :: 0 <= i < |pages| ==>
      pages[i].records == P.Page(rounds[i].log, RawSeq, cursors[i], rounds[i].limit)
      && cursors[i + 1] == P.NextCursor(pages[i].records, RawSeq, cursors[i])
    ensures Joined(pages) == P.Collected(rounds, RawSeq, cursors[0])
    ensures cursors[|rounds|] == P.Reached(rounds, RawSeq, cursors[0])
    decreases |pages|
  {
    if pages != [] {
      PagesAreCollected(rounds[1..], pages[1..], cursors[1..]);
    }
  }

  /** A read that came as request `i` returns the page of the analysed index. */
  lemma ReadIsRound(fmt: Format, lines: seq<Bytes>, stages: seq<Bytes>, idxs: seq<FileIndex>, oks: seq<bool>,
                    i: nat, cursor: int, limit: nat, page: SessionPage)
    requires PrefixFree(fmt) && Legal(fmt, lines) && Growth(stages, File(lines))
    requires Calls(fmt, stages, idxs, oks) && i < |stages|
    requires IsPage(Numbered(Contents(Trim, stages[i], idxs[i + 1].records)), cursor, limit, page)
    ensures page.records == P.Page(Numbered(RefreshAll(fmt, stages[..i + 1]).found), RawSeq, cursor, limit)
    ensures page.nextCursor == P.NextCursor(page.records, RawSeq, cursor)
  {
    CallsRefresh(fmt, lines, stages, idxs, oks, i + 1);
  }

  /** `pages[i]` answers request `i`, which asked with the cursor the page before gave. */
  ghost predicate Reads(stages: seq<Bytes>, idxs: seq<FileIndex>, limits: seq<int>, pages: seq<SessionPage>, cursors: seq<int>) {
    && |limits| == |pages| == |stages| && |idxs| == |cursors| == |stages| + 1
    && forall i :: 0 <= i < |stages| ==>
         IsPage(Numbered(Contents(Trim, stages[i], idxs[i + 1].records)), cursors[i], ReadLimit(limits[i]), pages[i])
         && cursors[i + 1] == pages[i].nextCursor
  }

  /** Successive reads on a growing file, each asking with the cursor the last page gave,
      return every record between the first and the last cursor exactly once, in order. */
  lemma ReadsFollow(fmt: Format, lines: seq<Bytes>, stages: seq<Bytes>, idxs: seq<FileIndex>, oks: seq<bool>,
                    limits: seq<int>, pages: seq<SessionPage>, cursors: seq<int>)
    requires PrefixFree(fmt) && Legal(fmt, lines) && Growth(stages, File(lines)) && stages != []
    requires Calls(fmt, stages, idxs, oks) && Reads(stages, idxs, limits, pages, cursors)
    ensures var log := Numbered(ScanText(Reading(fmt), stages[|stages| - 1]).found);
            var from, to := P.Cut(log, RawSeq, cursors[0]), P.Cut(log, RawSeq, cursors[|stages|]);
      from <= to && Joined(pages) == log[from..to]
  {
    ReadsAreRounds(fmt, lines, stages, idxs, oks, limits, pages, cursors);
    PagesAreCollected(Requests(fmt, stages, Sizes(limits)), pages, cursors);
    RoundsFollow(fmt, lines, stages, Sizes(limits), cursors[0], cursors[|stages|], Joined(pages));
  }

  /** The same for the rounds the reads stand for. */
  lemma RoundsFollow(fmt: Format, lines: seq<Bytes>, stages: seq<Bytes>, sizes: seq<nat>, first: int, last: int,
                     all: seq<Raw>)
    requires PrefixFree(fmt) && Legal(fmt, lines) && Growth(stages, File(lines)) && stages != []
    requires |sizes| == |stages| && forall i :: 0 <= i < |sizes| ==> 1 <= sizes[i]
    ensures var rounds := Requests(fmt, stages, sizes);
            var log := Numbered(ScanText(Reading(fmt), stages[|stages| - 1]).found);
            var from, to := P.Cut(log, RawSeq, first), P.Cut(log, RawSeq, last);
      all == P.Collected(rounds, RawSeq, first) && last == P.Reached(rounds, RawSeq, first) ==>
        from <= to && all == log[from..to]
  {
    FollowReadsEachRecordOnce(fmt, lines, stages, sizes, first);
  }

  function Sizes(limits: seq<int>): (sizes: seq<nat>)
    ensures |sizes| == |limits| && forall i :: 0 <= i < |sizes| ==> sizes[i] == ReadLimit(limits[i]) && 1 <= sizes[i]
  {
    seq(|limits|, i requires 0 <= i < |limits| => ReadLimit(limits[i]))
  }

  lemma ReadsAreRounds(fmt: Format, lines: seq<Bytes>, stages: seq<Bytes>, idxs: seq<FileIndex>, oks: seq<bool>,
                       limits: seq<int>, pages: seq<SessionPage>, cursors: seq<int>)
    requires PrefixFree(fmt) && Legal(fmt, lines) && Growth(stages, File(lines))
    requires Calls(fmt, stages, idxs, oks) && Reads(stages, idxs, limits, pages, cursors)
    ensures var rounds := Requests(fmt, stages, Sizes(limits));
      forall i :: 0 <= i < |stages| ==>
        pages[i].records == P.Page(rounds[i].log, RawSeq, cursors[i], rounds[i].limit)
        && cursors[i + 1] == P.NextCursor(pages[i].records, RawSeq, cursors[i])
  {
    var rounds := Requests(fmt, stages, Sizes(limits));
    forall i | 0 <= i < |stages|
      ensures pages[i].records == P.Page(rounds[i].log, RawSeq, cursors[i], rounds[i].limit)
      ensures cursors[i + 1] == P.NextCursor(pages[i].records, RawSeq, cursors[i])
    {
      ReadIsRound(fmt, lines, stages, idxs, oks, i, cursors[i], ReadLimit(limits[i]), pages[i]);
    }
  }
}
