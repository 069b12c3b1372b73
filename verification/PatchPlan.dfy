/** Planning a patch: validating edits against the files they change
    (internal/agentops/write.go, the first half of applyPatch). */
module PatchPlan {
  import opened Wire

  const MAX_FILES := 20
  const MAX_FILE_BYTES := 512 * 1024
  const MAX_TOTAL_BYTES := 2 * 1024 * 1024

  // ------------------------------------------------------------------- searching

  predicate OccursAt(s: Bytes, t: Bytes, i: nat) {
    i + |t| <= |s| && s[i..i + |t|] == t
  }

  /** The first occurrence of `t` at or after `i`. */
  function FirstFrom(s: Bytes, t: Bytes, i: nat): (r: Option<nat>)
    ensures r.Some? ==> i <= r.value && OccursAt(s, t, r.value) && forall j :: i <= j < r.value ==> !OccursAt(s, t, j)
    ensures r.None? ==> forall j :: i <= j ==> !OccursAt(s, t, j)
    decreases |s| - i
  {
    if i + |t| > |s| then None
    else if OccursAt(s, t, i) then Some(i)
    else FirstFrom(s, t, i + 1)
  }

  /** The number of non-overlapping occurrences of `t` from `i` on, left to right. */
  function CountFrom(s: Bytes, t: Bytes, i: nat): nat
    requires t != []
    decreases |s| - i
  {
    match FirstFrom(s, t, i)
    case None => 0
    case Some(j) => 1 + CountFrom(s, t, j + |t|)
  }

  function Count(s: Bytes, t: Bytes): nat
    requires t != []
  {
    CountFrom(s, t, 0)
  }

  /** `s` with its first occurrence of `t` replaced by `u`. */
  function ReplaceFirst(s: Bytes, t: Bytes, u: Bytes): Bytes {
    match FirstFrom(s, t, 0)
    case None => s
    case Some(i) => s[..i] + u + s[i + |t|..]
  }

  /** `t` occurs in `s` at one place and nowhere else. */
  ghost predicate Unique(s: Bytes, t: Bytes) {
    exists i: nat :: OccursAt(s, t, i) && forall j: nat :: OccursAt(s, t, j) ==> j == i
  }

  /** No proper suffix of `t` is also a prefix of it. */
  ghost predicate Borderless(t: Bytes) {
    forall d :: 0 < d < |t| ==> t[d..] != t[..|t| - d]
  }

  /** `t` occurs at `i`, and clear of that occurrence nowhere else. */
  ghost predicate LoneAt(s: Bytes, t: Bytes, i: nat) {
    OccursAt(s, t, i) && forall j: nat :: j < i || i + |t| <= j ==> !OccursAt(s, t, j)
  }

  lemma CountOfLone(s: Bytes, t: Bytes, i: nat)
    requires t != [] && LoneAt(s, t, i)
    ensures Count(s, t) == 1
  {
    assert FirstFrom(s, t, 0) == Some(i);
    assert FirstFrom(s, t, i + |t|) == None;
    assert CountFrom(s, t, i + |t|) == 0;
  }

  lemma LoneOfCount(s: Bytes, t: Bytes) returns (i: nat)
    requires t != [] && Count(s, t) == 1
    ensures LoneAt(s, t, i)
  {
    i := FirstFrom(s, t, 0).value;
    assert CountFrom(s, t, i + |t|) == 0;
    assert FirstFrom(s, t, i + |t|) == None;
  }

  lemma UniqueCounts(s: Bytes, t: Bytes)
    requires t != [] && Unique(s, t)
    ensures Count(s, t) == 1
  {
    var i: nat :| OccursAt(s, t, i) && forall j: nat :: OccursAt(s, t, j) ==> j == i;
    CountOfLone(s, t, i);
  }

  lemma OverlapIsBorder(s: Bytes, t: Bytes, i: nat, j: nat)
    requires OccursAt(s, t, i) && OccursAt(s, t, j) && i < j < i + |t|
    ensures !Borderless(t)
  {
    var d := j - i;
    assert t[d..] == s[j..i + |t|] == t[..|t| - d];
  }

  lemma BorderSlices(t: Bytes, d: nat)
    requires 0 < d < |t| && t[d..] == t[..|t| - d]
    ensures OccursAt(t[..d] + t, t, 0) && OccursAt(t[..d] + t, t, d)
  {
    var s := t[..d] + t;
    assert t == t[..d] + t[d..];
    assert s[0..|t|] == t[..d] + t[..|t| - d];
    assert s[d..d + |t|] == t;
  }

  /** Two copies of `t` that overlap by a border pass for one occurrence. */
  lemma BorderIsOverlap(t: Bytes, d: nat, s: Bytes)
    requires 0 < d < |t| && t[d..] == t[..|t| - d] && s == t[..d] + t
    ensures Count(s, t) == 1 && !Unique(s, t)
  {
    BorderSlices(t, d);
    CountOfLone(s, t, 0);
  }

  lemma BorderlessCount(s: Bytes, t: Bytes)
    requires t != [] && Borderless(t) && Count(s, t) == 1
    ensures Unique(s, t)
  {
    var i := LoneOfCount(s, t);
    LoneIsUnique(s, t, i);
  }

  lemma LoneIsUnique(s: Bytes, t: Bytes, i: nat)
    requires Borderless(t) && LoneAt(s, t, i)
    ensures Unique(s, t)
  {
    OnlyAt(s, t, i);
    assert OccursAt(s, t, i);
  }

  lemma OnlyAt(s: Bytes, t: Bytes, i: nat)
    requires Borderless(t) && LoneAt(s, t, i)
    ensures forall j: nat :: OccursAt(s, t, j) ==> j == i
  {
    forall j: nat | OccursAt(s, t, j) ensures j == i {
      NoOverlap(s, t, i, j);
    }
  }

  lemma NoOverlap(s: Bytes, t: Bytes, i: nat, j: nat)
    requires Borderless(t) && LoneAt(s, t, i) && OccursAt(s, t, j)
    ensures j == i
  {
    if i < j {
      OverlapIsBorder(s, t, i, j);
    }
  }

  /** The replace rule is written as "exactly one occurrence" but counts
      non-overlapping ones. The two agree on every file if and only if the text
      looked for has no border. */
  lemma ReplaceRuleExactIff(t: Bytes)
    requires t != []
    ensures (forall s :: Count(s, t) == 1 <==> Unique(s, t)) <==> Borderless(t)
  {
    if Borderless(t) {
      forall s ensures Count(s, t) == 1 <==> Unique(s, t) {
        if Count(s, t) == 1 {
          BorderlessCount(s, t);
        } else if Unique(s, t) {
          UniqueCounts(s, t);
        }
      }
    } else {
      var d :| 0 < d < |t| && t[d..] == t[..|t| - d];
      BorderIsOverlap(t, d, t[..d] + t);
    }
  }

  /** The smallest case: "aa" occurs twice in "aaa", and the edit is accepted. */
  lemma OverlapAccepted(a: Byte)
    ensures Count([a, a, a], [a, a]) == 1 && !Unique([a, a, a], [a, a])
  {
    var t, s := [a, a], [a, a, a];
    assert t[1..] == t[..1] && s == t[..1] + t;
    BorderIsOverlap(t, 1, s);
  }

  // -------------------------------------------------------------------- the files

  /** A file: its workspace and its path below the workspace root. */
  datatype Loc = Loc(workspace: string, path: string)

  type Files = map<Loc, Bytes>

  function Look(files: Files, loc: Loc): Option<Bytes> {
    if loc in files then Some(files[loc]) else None
  }

  /** `files` with `loc` holding `value`, or absent. */
  function Put(files: Files, loc: Loc, value: Option<Bytes>): (r: Files)
    ensures Look(r, loc) == value
    ensures forall other :: other != loc ==> Look(r, other) == Look(files, other)
  {
    match value
    case Some(content) => files[loc := content]
    case None => files - {loc}
  }

  lemma SameFiles(a: Files, b: Files)
    requires forall loc :: Look(a, loc) == Look(b, loc)
    ensures a == b
  {
    forall loc ensures loc in a <==> loc in b {
      assert Look(a, loc) == Look(b, loc);
    }
    forall loc | loc in a ensures a[loc] == b[loc] {
      assert Look(a, loc) == Look(b, loc);
    }
  }

  // --------------------------------------------------------------------- planning

  datatype Edit = Edit(path: string, oldText: Bytes, newText: Bytes)

  datatype Action = Create | Delete | Replace

  /** A validated change: the content before and after, as planned. */
  datatype Planned = Planned(rel: string, action: Action, before: Bytes, content: Bytes)

  datatype PatchError =
    | NotWritable | NoEdits | TooManyFiles | NeedsConfirmation
    | BadPath | DuplicatePath | EmptyEdit | FileTooLarge | PatchTooLarge | Binary | PathRefused
    | AlreadyExists | Missing | ContentDiffers | TextNotFound | TextAmbiguous
    | CheckpointFailed | WriteFailed(at: nat)
    | UnknownCheckpoint | BlobUnavailable

  /** The parts of validation that look at path syntax, symbolic links and text
      encoding: `normal` trims and cleans a path and refuses absolute, escaping or
      sensitive ones, `allowed` resolves it under the root. */
  datatype Rules = Rules(normal: string -> Option<string>, allowed: string -> bool, isText: Bytes -> bool)

  function ActionOf(e: Edit): Action {
    if e.oldText == [] then Create else if e.newText == [] then Delete else Replace
  }

  /** The validation of one edit, in the order of the checks. */
  function PlanEdit(rules: Rules, files: Files, ws: string, seen: set<string>, total: nat, e: Edit)
    : Result<Planned, PatchError>
  {
    match rules.normal(e.path)
    case None => Err(BadPath)
    case Some(rel) =>
      if rel in seen then Err(DuplicatePath)
      else if e.oldText == [] && e.newText == [] then Err(EmptyEdit)
      else if |e.newText| > MAX_FILE_BYTES then Err(FileTooLarge)
      else if total + |e.newText| > MAX_TOTAL_BYTES then Err(PatchTooLarge)
      else if !rules.isText(e.newText) then Err(Binary)
      else if !rules.allowed(rel) then Err(PathRefused)
      else
        var current := Look(files, Loc(ws, rel));
        match ActionOf(e)
        case Create => if current.Some? then Err(AlreadyExists) else Ok(Planned(rel, Create, [], e.newText))
        case Delete =>
          if current.None? then Err(Missing)
          else if current.value != e.oldText then Err(ContentDiffers)
          else Ok(Planned(rel, Delete, current.value, []))
        case Replace =>
          if current.None? then Err(Missing)
          else if Count(current.value, e.oldText) == 0 then Err(TextNotFound)
          else if Count(current.value, e.oldText) > 1 then Err(TextAmbiguous)
          else Ok(Planned(rel, Replace, current.value, ReplaceFirst(current.value, e.oldText, e.newText)))
  }

  /** What an edit asks of the file it names. */
  ghost predicate Applicable(current: Option<Bytes>, e: Edit) {
    match ActionOf(e)
    case Create => current.None? && e.newText != []
    case Delete => current == Some(e.oldText)
    case Replace => current.Some? && Count(current.value, e.oldText) == 1
  }

  /** `p` is what `e` does to a file holding `current`. */
  ghost predicate Describes(current: Option<Bytes>, e: Edit, p: Planned) {
    && p.action == ActionOf(e)
    && match ActionOf(e) {
      case Create => p.before == [] && p.content == e.newText
      case Delete => Some(p.before) == current && p.content == []
      case Replace => Some(p.before) == current && Substituted(p.before, e.oldText, e.newText, p.content)
    }
  }

  /** `after` is `before` with the first occurrence of `t` replaced by `u`. */
  ghost predicate Substituted(before: Bytes, t: Bytes, u: Bytes, after: Bytes) {
    exists i: nat ::
      && OccursAt(before, t, i) && (forall j: nat :: j < i ==> !OccursAt(before, t, j))
      && after == before[..i] + u + before[i + |t|..]
  }

  ghost predicate Acceptable(rules: Rules, files: Files, ws: string, e: Edit) {
    && rules.normal(e.path).Some?
    && rules.allowed(rules.normal(e.path).value)
    && |e.newText| <= MAX_FILE_BYTES && rules.isText(e.newText)
    && Applicable(Look(files, Loc(ws, rules.normal(e.path).value)), e)
  }

  ghost predicate DistinctPaths(rules: Rules, edits: seq<Edit>) {
    forall i, j :: 0 <= i < j < |edits| ==> rules.normal(edits[i].path) != rules.normal(edits[j].path)
  }

  function NewBytes(edits: seq<Edit>): nat {
    if edits == [] then 0 else NewBytes(edits[..|edits| - 1]) + |edits[|edits| - 1].newText|
  }

  /** The patches that can be planned, said without the order of the checks. */
  ghost predicate Plannable(rules: Rules, files: Files, ws: string, edits: seq<Edit>) {
    && (forall i :: 0 <= i < |edits| ==> Acceptable(rules, files, ws, edits[i]))
    && DistinctPaths(rules, edits)
    && NewBytes(edits) <= MAX_TOTAL_BYTES
  }

  /** The plan of a patch: one change per edit, each at the path of its edit. */
  ghost predicate PlanOf(rules: Rules, files: Files, ws: string, edits: seq<Edit>, plan: seq<Planned>) {
    && |plan| == |edits|
    && forall i :: 0 <= i < |edits| ==>
         rules.normal(edits[i].path) == Some(plan[i].rel)
         && Describes(Look(files, Loc(ws, plan[i].rel)), edits[i], plan[i])
  }

  lemma PlanEditOK(rules: Rules, files: Files, ws: string, seen: set<string>, total: nat, e: Edit)
    ensures PlanEdit(rules, files, ws, seen, total, e).Ok? <==>
      Acceptable(rules, files, ws, e) && rules.normal(e.path).value !in seen && total + |e.newText| <= MAX_TOTAL_BYTES
    ensures var r := PlanEdit(rules, files, ws, seen, total, e);
      r.Ok? ==> Some(r.value.rel) == rules.normal(e.path)
                && Describes(Look(files, Loc(ws, r.value.rel)), e, r.value)
  {
  }

  ghost predicate TwiceApart(s: Bytes, t: Bytes) {
    exists i: nat, j: nat :: i + |t| <= j && OccursAt(s, t, i) && OccursAt(s, t, j)
  }

  lemma CountBeyondOne(s: Bytes, t: Bytes)
    requires t != []
    ensures Count(s, t) == 0 ==> forall i: nat :: !OccursAt(s, t, i)
    ensures Count(s, t) > 1 ==> TwiceApart(s, t)
  {
    var first := FirstFrom(s, t, 0);
    if first.Some? && Count(s, t) > 1 {
      var next := first.value + |t|;
      assert Count(s, t) == 1 + CountFrom(s, t, next);
      assert OccursAt(s, t, first.value) && OccursAt(s, t, FirstFrom(s, t, next).value);
    }
  }

  /** What each refusal says about the edit and the file. */
  ghost predicate RefusalTrue(rules: Rules, files: Files, ws: string, seen: set<string>, total: nat, e: Edit, error: PatchError) {
    match rules.normal(e.path)
    case None => error == BadPath
    case Some(rel) =>
      var loc := Loc(ws, rel);
      match error
      case DuplicatePath => rel in seen
      case EmptyEdit => e.oldText == [] && e.newText == []
      case FileTooLarge => |e.newText| > MAX_FILE_BYTES
      case PatchTooLarge => total + |e.newText| > MAX_TOTAL_BYTES
      case Binary => !rules.isText(e.newText)
      case PathRefused => !rules.allowed(rel)
      case AlreadyExists => e.oldText == [] && loc in files
      case Missing => e.oldText != [] && loc !in files
      case ContentDiffers => e.newText == [] && loc in files && files[loc] != e.oldText
      case TextNotFound => loc in files && e.newText != [] && forall i: nat :: !OccursAt(files[loc], e.oldText, i)
      case TextAmbiguous => loc in files && e.newText != [] && TwiceApart(files[loc], e.oldText)
      case _ => false
  }

  /** Every refusal tells the truth: the text is nowhere in the file, or there twice, and
      so on. */
  lemma RefusalsTrue(rules: Rules, files: Files, ws: string, seen: set<string>, total: nat, e: Edit)
    ensures var r := PlanEdit(rules, files, ws, seen, total, e);
      r.Err? ==> RefusalTrue(rules, files, ws, seen, total, e, r.error)
  {
    if rules.normal(e.path).Some? && e.oldText != [] {
      var loc := Loc(ws, rules.normal(e.path).value);
      if loc in files {
        CountBeyondOne(files[loc], e.oldText);
      }
    }
  }

  ghost predicate SeenPaths(plan: seq<Planned>, seen: set<string>) {
    forall rel :: rel in seen <==> exists i :: 0 <= i < |plan| && plan[i].rel == rel
  }

  lemma {:induction false} NewBytesGrow(edits: seq<Edit>, k: nat)
    requires k <= |edits|
    ensures NewBytes(edits[..k]) <= NewBytes(edits)
    decreases |edits|
  {
    if k < |edits| {
      assert edits[..|edits| - 1][..k] == edits[..k];
      NewBytesGrow(edits[..|edits| - 1], k);
    } else {
      assert edits[..k] == edits;
    }
  }

  lemma PrefixPlannable(rules: Rules, files: Files, ws: string, edits: seq<Edit>, k: nat)
    requires k <= |edits| && Plannable(rules, files, ws, edits)
    ensures Plannable(rules, files, ws, edits[..k])
  {
    NewBytesGrow(edits, k);
  }

  /** Adding one edit to a plannable list. */
  lemma OneMoreEdit(rules: Rules, files: Files, ws: string, edits: seq<Edit>, k: nat, plan: seq<Planned>, seen: set<string>)
    requires k < |edits| && Plannable(rules, files, ws, edits[..k]) && PlanOf(rules, files, ws, edits[..k], plan)
    requires SeenPaths(plan, seen)
    ensures Plannable(rules, files, ws, edits[..k + 1]) <==>
      PlanEdit(rules, files, ws, seen, NewBytes(edits[..k]), edits[k]).Ok?
  {
    var e := edits[k];
    PlanEditOK(rules, files, ws, seen, NewBytes(edits[..k]), e);
    var more := edits[..k + 1];
    assert more[..k] == edits[..k] && more[k] == e;
    assert NewBytes(more) == NewBytes(edits[..k]) + |e.newText|;
    assert forall i :: 0 <= i < k ==> more[i] == edits[..k][i];
    if rules.normal(e.path).Some? {
      var rel := rules.normal(e.path).value;
      assert rel in seen <==> exists i :: 0 <= i < k && rules.normal(edits[..k][i].path) == Some(rel);
    }
  }

  /** Edit `k` is the first that does not fit the ones before it. */
  ghost predicate FirstRefused(rules: Rules, files: Files, ws: string, edits: seq<Edit>, k: nat) {
    k < |edits| && Plannable(rules, files, ws, edits[..k]) && !Plannable(rules, files, ws, edits[..k + 1])
  }

  /** The paths of the edits. */
  function Rels(rules: Rules, edits: seq<Edit>): set<string> {
    set e | e in edits && rules.normal(e.path).Some? :: rules.normal(e.path).value
  }

  ghost predicate RefusedWith(rules: Rules, files: Files, ws: string, edits: seq<Edit>, k: nat, error: PatchError) {
    && FirstRefused(rules, files, ws, edits, k)
    && PlanEdit(rules, files, ws, Rels(rules, edits[..k]), NewBytes(edits[..k]), edits[k]) == Err(error)
  }

  lemma SeenIsRels(rules: Rules, files: Files, ws: string, edits: seq<Edit>, plan: seq<Planned>, seen: set<string>)
    requires PlanOf(rules, files, ws, edits, plan) && SeenPaths(plan, seen)
    ensures seen == Rels(rules, edits)
  {
    forall rel ensures rel in seen <==> rel in Rels(rules, edits) {
      if rel in Rels(rules, edits) {
        var i :| 0 <= i < |edits| && rules.normal(edits[i].path) == Some(rel);
        assert plan[i].rel == rel;
      }
      if rel in seen {
        var i :| 0 <= i < |plan| && plan[i].rel == rel;
        assert edits[i] in edits;
      }
    }
  }

  lemma Refusal(rules: Rules, files: Files, ws: string, edits: seq<Edit>, k: nat)
    requires FirstRefused(rules, files, ws, edits, k)
    ensures !Plannable(rules, files, ws, edits)
  {
    if Plannable(rules, files, ws, edits) {
      PrefixPlannable(rules, files, ws, edits, k + 1);
    }
  }

  lemma PlanGrows(rules: Rules, files: Files, ws: string, edits: seq<Edit>, k: nat, plan: seq<Planned>,
                  seen: set<string>, p: Planned)
    requires k < |edits| && PlanOf(rules, files, ws, edits[..k], plan) && SeenPaths(plan, seen)
    requires PlanEdit(rules, files, ws, seen, NewBytes(edits[..k]), edits[k]) == Ok(p)
    ensures PlanOf(rules, files, ws, edits[..k + 1], plan + [p])
    ensures SeenPaths(plan + [p], seen + {p.rel})
    ensures NewBytes(edits[..k + 1]) == NewBytes(edits[..k]) + |edits[k].newText|
  {
    PlanEditOK(rules, files, ws, seen, NewBytes(edits[..k]), edits[k]);
    var more := edits[..k + 1];
    assert more[..k] == edits[..k] && more[k] == edits[k];
    forall i | 0 <= i < k + 1
      ensures rules.normal(more[i].path) == Some((plan + [p])[i].rel)
      ensures Describes(Look(files, Loc(ws, (plan + [p])[i].rel)), more[i], (plan + [p])[i])
    {
      assert i < k ==> more[i] == edits[..k][i];
    }
    SeenGrows(plan, seen, p);
  }

  lemma SeenGrows(plan: seq<Planned>, seen: set<string>, p: Planned)
    requires SeenPaths(plan, seen)
    ensures SeenPaths(plan + [p], seen + {p.rel})
  {
    forall rel ensures rel in seen + {p.rel} <==> exists i :: 0 <= i < |plan| + 1 && (plan + [p])[i].rel == rel {
      assert (plan + [p])[|plan|] == p;
      assert forall i :: 0 <= i < |plan| ==> (plan + [p])[i] == plan[i];
    }
  }

  /** The plan loop: it succeeds on exactly the plannable patches, and otherwise
      reports the first edit that does not fit the ones before it. */
  method PlanEdits(rules: Rules, files: Files, ws: string, edits: seq<Edit>)
    returns (res: Result<seq<Planned>, PatchError>)
    ensures res.Ok? <==> Plannable(rules, files, ws, edits)
    ensures res.Ok? ==> PlanOf(rules, files, ws, edits, res.value)
    ensures res.Err? ==> exists k: nat :: RefusedWith(rules, files, ws, edits, k, res.error)
  {
    var plan: seq<Planned> := [];
    var total := 0;
    var seen: set<string> := {};
    for k := 0 to |edits|
      invariant Plannable(rules, files, ws, edits[..k]) && PlanOf(rules, files, ws, edits[..k], plan)
      invariant SeenPaths(plan, seen) && total == NewBytes(edits[..k])
    {
      var r := PlanEdit(rules, files, ws, seen, total, edits[k]);
      OneMoreEdit(rules, files, ws, edits, k, plan, seen);
      if r.Err? {
        Refusal(rules, files, ws, edits, k);
        SeenIsRels(rules, files, ws, edits[..k], plan, seen);
        assert RefusedWith(rules, files, ws, edits, k, r.error);
        return Err(r.error);
      }
      PlanGrows(rules, files, ws, edits, k, plan, seen, r.value);
      seen := seen + {r.value.rel};
      total := total + |edits[k].newText|;
      plan := plan + [r.value];
    }
    assert edits[..|edits|] == edits;
    return Ok(plan);
  }
}
