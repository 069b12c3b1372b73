/** The write path of the agent: planning, checkpointing, applying and rolling back a
    patch (internal/agentops/write.go). */
module Patching {
  import opened Wire
  import opened PatchPlan
  import opened Checkpoints

  /** What one write does: it works, or it breaks and leaves its own file in any state. */
  datatype Fault = Works | Breaks(left: Option<Bytes>)

  /** The operating system's part: which blob writes fail, whether rewriting the
      checkpoint file fails, whether the workspace root opens, and the file writes. */
  datatype Env = Env(blobFails: nat -> bool, rewriteFails: bool, rootFails: bool, write: nat -> Fault)

  /** A create finds its file present, or a delete finds it absent. */
  predicate Blocked(files: Files, loc: Loc, p: Planned) {
    (p.action == Create && loc in files) || (p.action == Delete && loc !in files)
  }

  /** Write `k` of the plan does not go through. */
  predicate WriteFails(files: Files, ws: string, plan: seq<Planned>, env: Env, k: nat)
    requires k < |plan|
  {
    var present := Loc(ws, plan[k].rel) in files;
    (plan[k].action == Create && present) || (plan[k].action == Delete && !present) || env.write(k).Breaks?
  }

  /** What a write that did not go through leaves at its own path. */
  function LeftBehind(files: Files, ws: string, plan: seq<Planned>, env: Env, k: nat): Option<Bytes>
    requires k < |plan|
  {
    var loc := Loc(ws, plan[k].rel);
    if Blocked(files, loc, plan[k]) || env.write(k).Works? then Look(files, loc) else env.write(k).left
  }

  /** The failing write `k` leaves its own file as it was: it was blocked before it
      opened the file, or what it broke off with equals what was there. */
  predicate LeavesOwnFile(files: Files, ws: string, plan: seq<Planned>, env: Env, k: nat)
    requires k < |plan|
  {
    var loc := Loc(ws, plan[k].rel);
    Blocked(files, loc, plan[k]) || env.write(k).Works? || env.write(k).left == Look(files, loc)
  }

  ghost predicate FirstFailure(files: Files, ws: string, plan: seq<Planned>, env: Env, k: nat) {
    k < |plan| && WriteFails(files, ws, plan, env, k)
    && forall j :: 0 <= j < k ==> !WriteFails(files, ws, plan, env, j)
  }

  /** What an edit asks for has happened to the file at `loc`. */
  ghost predicate EditDone(before: Files, after: Files, loc: Loc, e: Edit) {
    if e.oldText == [] then loc !in before && Look(after, loc) == Some(e.newText)
    else if e.newText == [] then Look(before, loc) == Some(e.oldText) && loc !in after
    else loc in before && loc in after && Substituted(before[loc], e.oldText, e.newText, after[loc])
  }

  /** Every edit has been carried out on the file at its normalised path, and no other
      file changed. */
  ghost predicate EditsDone(rules: Rules, before: Files, ws: string, edits: seq<Edit>, after: Files) {
    && (forall i :: 0 <= i < |edits| ==>
          rules.normal(edits[i].path).Some?
          && EditDone(before, after, Loc(ws, rules.normal(edits[i].path).value), edits[i]))
    && (forall loc :: Look(after, loc) == Look(before, loc) || Named(rules, ws, edits, loc))
  }

  ghost predicate Named(rules: Rules, ws: string, edits: seq<Edit>, loc: Loc) {
    loc.workspace == ws && exists i :: 0 <= i < |edits| && rules.normal(edits[i].path) == Some(loc.path)
  }

  /** Writing the plan of a patch carries out its edits. */
  lemma PlanCarriesOut(rules: Rules, before: Files, ws: string, edits: seq<Edit>, plan: seq<Planned>, after: Files)
    requires Plannable(rules, before, ws, edits) && PlanOf(rules, before, ws, edits, plan)
    requires Patched(before, ws, plan, after)
    ensures EditsDone(rules, before, ws, edits, after)
  {
    forall i | 0 <= i < |edits|
      ensures rules.normal(edits[i].path).Some?
      ensures EditDone(before, after, Loc(ws, rules.normal(edits[i].path).value), edits[i])
    {
      assert Acceptable(rules, before, ws, edits[i]);
      assert Describes(Look(before, Loc(ws, plan[i].rel)), edits[i], plan[i]);
    }
    forall loc | TouchedBy(plan, ws, loc) ensures Named(rules, ws, edits, loc) {
      var i :| 0 <= i < |plan| && plan[i].rel == loc.path;
      assert rules.normal(edits[i].path) == Some(loc.path);
    }
  }

  /** Files after the first writes of a plan. */
  lemma PatchedOneMore(before: Files, ws: string, plan: seq<Planned>, k: nat, files: Files, files': Files)
    requires k < |plan| && DistinctRels(plan) && Patched(before, ws, plan[..k], files)
    requires files' == Put(files, Loc(ws, plan[k].rel), Target(plan[k]))
    ensures Patched(before, ws, plan[..k + 1], files')
  {
    var more := plan[..k + 1];
    forall i | 0 <= i < k + 1
      ensures if more[i].action == Delete then Loc(ws, more[i].rel) !in files'
              else Look(files', Loc(ws, more[i].rel)) == Some(more[i].content)
    {
      if i < k {
        assert plan[..k][i] == plan[i];
        assert Look(files', Loc(ws, plan[i].rel)) == Look(files, Loc(ws, plan[i].rel));
      } else {
        assert Look(files', Loc(ws, plan[k].rel)) == Target(plan[k]);
      }
    }
    forall loc | !TouchedBy(plan[..k + 1], ws, loc) ensures Look(files', loc) == Look(before, loc) {
      assert plan[..k + 1][k] == plan[k];
      assert forall i :: 0 <= i < k ==> plan[..k][i] == plan[..k + 1][i];
      assert !TouchedBy(plan[..k], ws, loc);
    }
  }

  lemma NextUntouched(before: Files, ws: string, plan: seq<Planned>, k: nat, files: Files)
    requires k < |plan| && DistinctRels(plan) && Patched(before, ws, plan[..k], files)
    ensures Look(files, Loc(ws, plan[k].rel)) == Look(before, Loc(ws, plan[k].rel))
  {
    assert forall i :: 0 <= i < k ==> plan[..k][i] == plan[i];
    assert !TouchedBy(plan[..k], ws, Loc(ws, plan[k].rel));
  }

  /** Whatever the failing write left: with the earlier ones undone, only its own file
      can differ. */
  lemma UndoneExcept(before: Files, ws: string, plan: seq<Planned>, k: nat, files: Files, broken: Files,
                     left: Option<Bytes>, after: Files)
    requires k < |plan| && DistinctRels(plan) && Patched(before, ws, plan[..k], files)
    requires broken == Put(files, Loc(ws, plan[k].rel), left)
    requires forall loc :: Look(after, loc) == if TouchedBy(plan[..k], ws, loc) then Look(before, loc) else Look(broken, loc)
    ensures SameExcept(before, after, Loc(ws, plan[k].rel)) && Look(after, Loc(ws, plan[k].rel)) == left
  {
    assert forall i :: 0 <= i < k ==> plan[..k][i] == plan[i];
    assert !TouchedBy(plan[..k], ws, Loc(ws, plan[k].rel));
  }

  /** Nothing the operating system does fails. */
  ghost predicate NoFaults(env: Env) {
    !env.rewriteFails && !env.rootFails && (forall k :: !env.blobFails(k)) && (forall k :: env.write(k).Works?)
  }

  /** A plan made against these files is never blocked by them. */
  lemma PlanNotBlocked(rules: Rules, files: Files, ws: string, edits: seq<Edit>, plan: seq<Planned>, k: nat)
    requires Plannable(rules, files, ws, edits) && PlanOf(rules, files, ws, edits, plan) && k < |plan|
    ensures !Blocked(files, Loc(ws, plan[k].rel), plan[k])
  {
    assert Acceptable(rules, files, ws, edits[k]);
    assert Describes(Look(files, Loc(ws, plan[k].rel)), edits[k], plan[k]);
  }

  function EntryOf(hash: Bytes -> string, files: Files, ws: string, rel: string): Entry {
    Entry(rel, NameOf(hash, Look(files, Loc(ws, rel))))
  }

  /** The entries record the first files of the plan. */
  ghost predicate Records(hash: Bytes -> string, files: Files, ws: string, plan: seq<Planned>, entries: seq<Entry>) {
    |entries| <= |plan| && forall i :: 0 <= i < |entries| ==> entries[i] == EntryOf(hash, files, ws, plan[i].rel)
  }

  lemma AllRecorded(hash: Bytes -> string, files: Files, ws: string, plan: seq<Planned>, cp: Checkpoint)
    requires Records(hash, files, ws, plan, cp.entries) && |cp.entries| == |plan| && cp.workspace == ws
    ensures cp == CheckpointOf(hash, files, ws, plan, cp.id)
  {
  }

  /** What a rollback reports. */
  datatype Report = Report(restored: seq<string>, removed: seq<string>)

  /** `paths` are those of the first `n` entries that were absent, or present, when the
      checkpoint was taken, in order; `at` tells which entry each belongs to. */
  ghost predicate Lists(entries: seq<Entry>, n: nat, absent: bool, paths: seq<string>, at: seq<nat>)
    requires n <= |entries|
  {
    && |at| == |paths|
    && (forall i :: 0 <= i < |at| ==>
          at[i] < n && entries[at[i]].blob.None? == absent && paths[i] == entries[at[i]].path)
    && (forall i, j :: 0 <= i < j < |at| ==> at[i] < at[j])
    && (forall k :: 0 <= k < n && entries[k].blob.None? == absent ==> k in at)
  }

  /** The report names, of the first `n` files, every one that had been absent as removed
      and every other one as restored, in the checkpoint's order. */
  ghost predicate ReportsUpTo(entries: seq<Entry>, n: nat, report: Report)
    requires n <= |entries|
  {
    && (exists at :: Lists(entries, n, false, report.restored, at))
    && (exists at :: Lists(entries, n, true, report.removed, at))
  }

  ghost predicate Reports(entries: seq<Entry>, report: Report) {
    ReportsUpTo(entries, |entries|, report)
  }

  lemma ListsGrow(entries: seq<Entry>, n: nat, absent: bool, paths: seq<string>, at: seq<nat>)
    requires n < |entries| && Lists(entries, n, absent, paths, at)
    ensures entries[n].blob.None? == absent ==> Lists(entries, n + 1, absent, paths + [entries[n].path], at + [n])
    ensures entries[n].blob.None? != absent ==> Lists(entries, n + 1, absent, paths, at)
  {
    assert (at + [n])[|at|] == n && forall k :: k in at ==> k in at + [n];
  }

  /** The next file is added to the list it belongs to. */
  lemma ReportGrows(entries: seq<Entry>, n: nat, report: Report, next: Report)
    requires n < |entries| && ReportsUpTo(entries, n, report)
    requires next == if entries[n].blob.None? then report.(removed := report.removed + [entries[n].path])
                     else report.(restored := report.restored + [entries[n].path])
    ensures ReportsUpTo(entries, n + 1, next)
  {
    var kept :| Lists(entries, n, false, report.restored, kept);
    var gone :| Lists(entries, n, true, report.removed, gone);
    ListsGrow(entries, n, false, report.restored, kept);
    ListsGrow(entries, n, true, report.removed, gone);
  }

  lemma NothingReported(entries: seq<Entry>)
    ensures ReportsUpTo(entries, 0, Report([], []))
  {
    assert Lists(entries, 0, false, [], []) && Lists(entries, 0, true, [], []);
  }

  class PatchService {
    const hash: Bytes -> string
    var files: Files
    var blobs: Blobs
    var store: seq<Checkpoint>

    constructor (hash: Bytes -> string, files: Files)
      requires Injective(hash)
      ensures Valid() && D() == Disk(files, map[], []) && this.hash == hash
    {
      this.hash := hash;
      this.files := files;
      blobs := map[];
      store := [];
    }

    ghost predicate Valid() reads this {
      Injective(hash) && StoreOK(hash, D())
    }

    function D(): Disk reads this {
      Disk(files, blobs, store)
    }

    /** Writes content under its hash unless a blob of that name exists. */
    method StoreBlob(content: Bytes, fails: bool) returns (name: Option<string>)
      requires BlobsTrue(hash, blobs)
      modifies this`blobs
      ensures BlobsTrue(hash, blobs)
      ensures name == if fails && hash(content) !in old(blobs) then None else Some(hash(content))
      ensures blobs.Keys == old(blobs).Keys + (if name.Some? then {name.value} else {})
      ensures name.None? ==> blobs == old(blobs)
    {
      var n := hash(content);
      if n in blobs {
        return Some(n);
      }
      if fails {
        return None;
      }
      blobs := blobs[n := content];
      return Some(n);
    }

    /** Deletes the blobs no checkpoint of `list` references. */
    method PruneBlobs(list: seq<Checkpoint>)
      modifies this`blobs
      ensures blobs == map name | name in old(blobs) && name in Refs(list) :: old(blobs)[name]
    {
      var keep := Referenced(list);
      var left := blobs.Keys;
      while left != {}
        invariant left <= old(blobs).Keys && blobs.Keys <= old(blobs).Keys
        invariant forall name :: name in old(blobs) ==> (name in blobs <==> name in left || name in keep)
        invariant forall name :: name in blobs ==> blobs[name] == old(blobs)[name]
        decreases |left|
      {
        var name :| name in left;
        if name !in keep {
          blobs := blobs - {name};
        }
        left := left - {name};
      }
    }

    static method Referenced(list: seq<Checkpoint>) returns (keep: set<string>)
      ensures keep == Refs(list)
    {
      keep := {};
      for i := 0 to |list|
        invariant keep == Refs(list[..i])
      {
        var cp := list[i];
        for j := 0 to |cp.entries|
          invariant keep == Refs(list[..i]) + Refs([Checkpoint(cp.id, cp.workspace, cp.entries[..j])])
        {
          var e := cp.entries[j];
          RefsAdd(Checkpoint(cp.id, cp.workspace, cp.entries[..j]), e);
          assert cp.entries[..j + 1] == cp.entries[..j] + [e];
          if e.blob.Some? {
            keep := keep + {e.blob.value};
          }
        }
        assert cp.entries[..|cp.entries|] == cp.entries;
        assert Checkpoint(cp.id, cp.workspace, cp.entries) == cp;
        assert list[..i + 1] == list[..i] + [cp];
        RefsConcat(list[..i], [cp]);
      }
      assert list[..|list|] == list;
    }

    /** Adds a checkpoint and keeps the newest 20; the blobs are pruned before the
        list is rewritten. */
    method AppendCheckpoint(cp: Checkpoint, rewriteFails: bool) returns (ok: bool)
      requires BlobsTrue(hash, blobs)
      modifies this`blobs, this`store
      ensures ok == !rewriteFails
      ensures store == if ok then Appended(old(store), cp) else old(store)
      ensures BlobsTrue(hash, blobs) && blobs.Keys == old(blobs).Keys * Refs(Appended(old(store), cp))
    {
      var list := store + [cp];
      if |list| > MAX_KEPT {
        list := list[|list| - MAX_KEPT..];
      }
      PruneBlobs(list);
      if rewriteFails {
        return false;
      }
      store := list;
      return true;
    }

    /** Snapshots every file the plan touches as it stands now. */
    method CreateCheckpoint(ws: string, plan: seq<Planned>, id: string, env: Env) returns (cp: Checkpoint, ok: bool)
      requires BlobsTrue(hash, blobs)
      modifies this`blobs, this`store
      ensures ok ==> cp == CheckpointOf(hash, files, ws, plan, id)
      ensures ok ==> store == Appended(old(store), cp) && Pruned(hash, old(blobs), cp, store, blobs)
      ensures !ok ==> Commits(hash, old(D()), ws, plan, id, D(), NotCheckpointed)
      ensures !ok ==> env.rewriteFails || exists k :: 0 <= k < |plan| && env.blobFails(k)
    {
      cp, ok := StoreEntries(ws, plan, id, env);
      if ok {
        ok := AppendCheckpoint(cp, env.rewriteFails);
      }
    }

    method StoreEntries(ws: string, plan: seq<Planned>, id: string, env: Env) returns (cp: Checkpoint, ok: bool)
      requires BlobsTrue(hash, blobs)
      modifies this`blobs
      ensures BlobsTrue(hash, blobs) && old(blobs).Keys <= blobs.Keys
      ensures ok ==> cp == CheckpointOf(hash, files, ws, plan, id) && blobs.Keys == old(blobs).Keys + Refs([cp])
      ensures !ok ==> exists k :: 0 <= k < |plan| && env.blobFails(k)
    {
      cp := Checkpoint(id, ws, []);
      for k := 0 to |plan|
        invariant BlobsTrue(hash, blobs) && |cp.entries| == k && cp.id == id && cp.workspace == ws
        invariant Records(hash, files, ws, plan, cp.entries)
        invariant blobs.Keys == old(blobs).Keys + Refs([cp])
      {
        var entry := StoreEntry(ws, plan[k].rel, env.blobFails(k));
        if entry.None? {
          return cp, false;
        }
        RefsAdd(cp, entry.value);
        cp := cp.(entries := cp.entries + [entry.value]);
      }
      AllRecorded(hash, files, ws, plan, cp);
      ok := true;
    }

    /** Stores the content of one file, if it exists. */
    method StoreEntry(ws: string, rel: string, fails: bool) returns (entry: Option<Entry>)
      requires BlobsTrue(hash, blobs)
      modifies this`blobs
      ensures BlobsTrue(hash, blobs)
      ensures entry.Some? ==> entry.value == EntryOf(hash, files, ws, rel) && blobs.Keys == old(blobs).Keys + Names(entry.value)
      ensures entry.None? ==> fails && blobs == old(blobs)
    {
      var loc := Loc(ws, rel);
      if loc !in files {
        return Some(Entry(rel, None));
      }
      var name := StoreBlob(files[loc], fails);
      return if name.None? then None else Some(Entry(rel, name));
    }

    method WriteOne(ws: string, p: Planned, fault: Fault) returns (ok: bool)
      modifies this`files
      ensures var loc := Loc(ws, p.rel);
        && ok == (!Blocked(old(files), loc, p) && fault.Works?)
        && files == Put(old(files), loc,
             if ok then Target(p)
             else if Blocked(old(files), loc, p) || fault.Works? then Look(old(files), loc) else fault.left)
    {
      var loc := Loc(ws, p.rel);
      if Blocked(files, loc, p) {
        SameFiles(files, Put(files, loc, Look(files, loc)));
        return false;
      }
      if fault.Breaks? {
        files := Put(files, loc, fault.left);
        return false;
      }
      files := Put(files, loc, Target(p));
      return true;
    }

    /** Puts the files already written back to their snapshot. */
    method RestorePartial(ws: string, applied: seq<Planned>, cp: Checkpoint, ghost before: Files)
      requires Injective(hash) && BlobsTrue(hash, blobs) && Available(blobs, cp.entries)
      requires Snapshots(hash, ws, cp.entries, before)
      requires forall i :: 0 <= i < |applied| ==> CoveredBy(cp.entries, ws, Loc(ws, applied[i].rel))
      modifies this`files
      ensures forall loc :: Look(files, loc) == if TouchedBy(applied, ws, loc) then Look(before, loc) else Look(old(files), loc)
    {
      for i := 0 to |applied|
        invariant forall loc ::
          Look(files, loc) == if TouchedBy(applied[..i], ws, loc) then Look(before, loc) else Look(old(files), loc)
      {
        RestoreOne(ws, applied[i], cp, before);
        forall loc ensures TouchedBy(applied[..i + 1], ws, loc)
          <==> TouchedBy(applied[..i], ws, loc) || loc == Loc(ws, applied[i].rel)
        {
          TouchedOneMore(applied, i, ws, loc);
        }
      }
      assert applied[..|applied|] == applied;
    }

    method RestoreOne(ws: string, p: Planned, cp: Checkpoint, ghost before: Files)
      requires Injective(hash) && BlobsTrue(hash, blobs) && Available(blobs, cp.entries)
      requires Snapshots(hash, ws, cp.entries, before) && CoveredBy(cp.entries, ws, Loc(ws, p.rel))
      modifies this`files
      ensures files == Put(old(files), Loc(ws, p.rel), Look(before, Loc(ws, p.rel)))
    {
      var loc := Loc(ws, p.rel);
      ghost var want := Put(files, loc, Look(before, loc));
      for j := 0 to |cp.entries|
        invariant files == if CoveredBy(cp.entries[..j], ws, loc) then want else old(files)
      {
        var e := cp.entries[j];
        assert cp.entries[..j + 1][j] == e;
        assert forall i :: 0 <= i < j ==> cp.entries[..j][i] == cp.entries[..j + 1][i];
        if e.path != p.rel {
          continue;
        }
        HeldIsContent(hash, blobs, ws, e, before);
        PutTwice(old(files), loc, Look(before, loc));
        if e.blob.None? {
          files := Put(files, loc, None);
          continue;
        }
        if e.blob.value in blobs {
          files := Put(files, loc, Some(blobs[e.blob.value]));
        }
      }
      assert cp.entries[..|cp.entries|] == cp.entries;
    }

    /** The locked part of applyPatch. On success all changes are in place; when a
        write fails, the earlier ones are undone and only the failing file may differ,
        and it holds whatever the failed write left there. */
    method Commit(ws: string, plan: seq<Planned>, id: string, env: Env) returns (landing: Landing)
      requires Valid() && DistinctRels(plan) && plan != []
      modifies this
      ensures Valid()
      ensures Commits(hash, old(D()), ws, plan, id, D(), landing)
      ensures landing.NotCheckpointed? ==> env.rewriteFails || exists k :: 0 <= k < |plan| && env.blobFails(k)
      ensures landing.Applied? ==> !env.rootFails && forall k :: 0 <= k < |plan| ==> !WriteFails(old(files), ws, plan, env, k)
      ensures landing.Failed? && env.rootFails ==> files == old(files)
      ensures landing.Failed? && !env.rootFails ==>
        && FirstFailure(old(files), ws, plan, env, landing.at)
        && Look(files, Loc(ws, plan[landing.at].rel)) == LeftBehind(old(files), ws, plan, env, landing.at)
      ensures landing.Failed? && !env.rootFails ==>
        (files == old(files) <==> LeavesOwnFile(old(files), ws, plan, env, landing.at))
    {
      ghost var d := D();
      var cp, ok := CreateCheckpoint(ws, plan, id, env);
      if !ok {
        CommitKeepsStore(hash, d, ws, plan, id, D(), NotCheckpointed);
        return NotCheckpointed;
      }
      if env.rootFails {
        CommitKeepsStore(hash, d, ws, plan, id, D(), Failed(0));
        return Failed(0);
      }
      landing := WriteAll(ws, plan, env, cp, d);
      if landing.Failed? {
        SameIff(d.files, files, Loc(ws, plan[landing.at].rel));
      }
      CommitKeepsStore(hash, d, ws, plan, id, D(), landing);
    }

    /** The write loop. */
    method WriteAll(ws: string, plan: seq<Planned>, env: Env, cp: Checkpoint, ghost d: Disk) returns (landing: Landing)
      requires Injective(hash) && BlobsTrue(hash, blobs) && DistinctRels(plan) && files == d.files && StoreOK(hash, d)
      requires cp == CheckpointOf(hash, d.files, ws, plan, cp.id)
      requires store == Appended(d.store, cp) && Pruned(hash, d.blobs, cp, store, blobs)
      modifies this`files
      ensures !landing.NotCheckpointed?
      ensures landing.Applied? ==>
        && Patched(d.files, ws, plan, files)
        && forall k :: 0 <= k < |plan| ==> !WriteFails(d.files, ws, plan, env, k)
      ensures landing.Failed? ==>
        && FirstFailure(d.files, ws, plan, env, landing.at)
        && SameExcept(d.files, files, Loc(ws, plan[landing.at].rel))
        && Look(files, Loc(ws, plan[landing.at].rel)) == LeftBehind(d.files, ws, plan, env, landing.at)
    {
      for k := 0 to |plan|
        invariant Patched(d.files, ws, plan[..k], files)
        invariant forall j :: 0 <= j < k ==> !WriteFails(d.files, ws, plan, env, j)
      {
        NextUntouched(d.files, ws, plan, k, files);
        ghost var was := files;
        var ok := WriteOne(ws, plan[k], env.write(k));
        if !ok {
          ghost var broken := files;
          CoversPlan(hash, d, ws, plan, cp, blobs, k);
          RestorePartial(ws, plan[..k], cp, d.files);
          UndoneExcept(d.files, ws, plan, k, was, broken, LeftBehind(d.files, ws, plan, env, k), files);
          return Failed(k);
        }
        PatchedOneMore(d.files, ws, plan, k, was, files);
      }
      assert plan[..|plan|] == plan;
      return Applied;
    }

    /** Writes back the files of one checkpoint; nothing else changes. The report lists
        the files written back and the files removed. */
    method Rollback(ws: string, id: string) returns (res: Result<Report, PatchError>)
      requires Valid()
      modifies this`files
      ensures Valid()
      ensures files == RolledBack(old(D()), ws, id).files && (res.Ok? <==> RolledBack(old(D()), ws, id).ok)
      ensures res == Err(UnknownCheckpoint) <==> Find(store, ws, id).None?
      ensures res.Ok? ==> Reports(store[Find(store, ws, id).value].entries, res.value)
      ensures res.Err? && res.error != UnknownCheckpoint ==> res.error == BlobUnavailable
    {
      var found := FindCheckpoint(ws, id);
      if found.None? {
        return Err(UnknownCheckpoint);
      }
      var report, ok := RestoreEntries(ws, store[found.value].entries);
      return if ok then Ok(report) else Err(BlobUnavailable);
    }

    method FindCheckpoint(ws: string, id: string) returns (found: Option<nat>)
      ensures found == Find(store, ws, id)
    {
      var i := 0;
      while i < |store| && !(store[i].id == id && store[i].workspace == ws)
        invariant 0 <= i <= |store|
        invariant forall j :: 0 <= j < i ==> !(store[j].id == id && store[j].workspace == ws)
      {
        i := i + 1;
      }
      return if i == |store| then None else Some(i);
    }

    method RestoreEntries(ws: string, entries: seq<Entry>) returns (report: Report, ok: bool)
      modifies this`files
      ensures Restored(files, ok) == Restore(blobs, ws, old(files), entries)
      ensures ok ==> Reports(entries, report)
    {
      report := Report([], []);
      NothingReported(entries);
      for j := 0 to |entries|
        invariant ReportsUpTo(entries, j, report)
        invariant Restore(blobs, ws, files, entries[j..]) == Restore(blobs, ws, old(files), entries)
      {
        assert entries[j..][1..] == entries[j + 1..];
        if entries[j].blob.Some? && entries[j].blob.value !in blobs {
          return report, false;
        }
        report := RestoreEntry(ws, entries, j, report);
      }
      return report, true;
    }

    /** Writes one file back, or removes it, and reports it. */
    method RestoreEntry(ws: string, entries: seq<Entry>, j: nat, report: Report) returns (next: Report)
      requires j < |entries| && ReportsUpTo(entries, j, report)
      requires entries[j].blob.Some? ==> entries[j].blob.value in blobs
      modifies this`files
      ensures ReportsUpTo(entries, j + 1, next)
      ensures files == Put(old(files), Loc(ws, entries[j].path), Held(blobs, entries[j]))
    {
      var e := entries[j];
      if e.blob.None? {
        files := Put(files, Loc(ws, e.path), None);
        next := report.(removed := report.removed + [e.path]);
      } else {
        files := Put(files, Loc(ws, e.path), Some(blobs[e.blob.value]));
        next := report.(restored := report.restored + [e.path]);
      }
      ReportGrows(entries, j, report, next);
    }

    /** A whole call. Nothing is written unless the patch is plannable, confirmed and
        not a preview; with every write going through, the files are exactly patched. */
    method ApplyPatch(rules: Rules, writable: bool, ws: string, edits: seq<Edit>, preview: bool, confirm: bool,
                      id: string, env: Env)
      returns (res: Result<seq<Planned>, PatchError>)
      requires Valid()
      modifies this
      ensures Valid()
      ensures !writable ==> res == Err(NotWritable)
      ensures writable && edits == [] ==> res == Err(NoEdits)
      ensures writable && |edits| > MAX_FILES ==> res == Err(TooManyFiles)
      ensures writable && 1 <= |edits| <= MAX_FILES && !preview && !confirm ==> res == Err(NeedsConfirmation)
      ensures writable && 1 <= |edits| <= MAX_FILES && (preview || confirm) ==>
        if Plannable(rules, old(files), ws, edits) then
          res.Ok? || (!preview && !NoFaults(env) && (res.error == CheckpointFailed || res.error.WriteFailed?))
        else res.Err? && exists k: nat :: RefusedWith(rules, old(files), ws, edits, k, res.error)
      ensures res.Ok? ==> Plannable(rules, old(files), ws, edits) && PlanOf(rules, old(files), ws, edits, res.value)
      ensures preview || (res.Err? && !res.error.CheckpointFailed? && !res.error.WriteFailed?) ==> D() == old(D())
      ensures res.Ok? && !preview ==> EditsDone(rules, old(files), ws, edits, files)
      ensures res.Ok? && !preview ==> Commits(hash, old(D()), ws, res.value, id, D(), Applied)
      ensures res.Err? && res.error.CheckpointFailed? ==> files == old(files) && store == old(store)
      ensures res.Err? && res.error.WriteFailed? ==>
        && res.error.at < |edits| && rules.normal(edits[res.error.at].path).Some?
        && SameExcept(old(files), files, Loc(ws, rules.normal(edits[res.error.at].path).value))
    {
      if !writable {
        return Err(NotWritable);
      }
      if |edits| == 0 {
        return Err(NoEdits);
      }
      if |edits| > MAX_FILES {
        return Err(TooManyFiles);
      }
      if !preview && !confirm {
        return Err(NeedsConfirmation);
      }
      var plan := PlanEdits(rules, files, ws, edits);
      if plan.Err? {
        return plan;
      }
      if preview {
        return plan;
      }
      assert DistinctRels(plan.value);
      forall k | 0 <= k < |plan.value| ensures !Blocked(files, Loc(ws, plan.value[k].rel), plan.value[k]) {
        PlanNotBlocked(rules, files, ws, edits, plan.value, k);
      }
      var landing := Commit(ws, plan.value, id, env);
      match landing
      case NotCheckpointed => return Err(CheckpointFailed);
      case Failed(at) => return Err(WriteFailed(at));
      case Applied =>
        PlanCarriesOut(rules, old(files), ws, edits, plan.value, files);
        return plan;
    }
  }

  function Names(e: Entry): set<string> {
    if e.blob.Some? then {e.blob.value} else {}
  }

  lemma RefsAdd(cp: Checkpoint, e: Entry)
    ensures Refs([cp.(entries := cp.entries + [e])]) == Refs([cp]) + Names(e)
  {
    var more := cp.(entries := cp.entries + [e]);
    assert forall f :: f in more.entries <==> f in cp.entries || f == e;
    RefsOf(more);
    RefsOf(cp);
  }

  lemma RefsOf(cp: Checkpoint)
    ensures forall name :: name in Refs([cp]) <==> exists e :: e in cp.entries && e.blob == Some(name)
  {
    forall name ensures name in Refs([cp]) <==> exists e :: e in cp.entries && e.blob == Some(name) {
      assert cp in [cp];
    }
  }

  lemma TouchedOneMore(applied: seq<Planned>, i: nat, ws: string, loc: Loc)
    requires i < |applied|
    ensures TouchedBy(applied[..i + 1], ws, loc) <==> TouchedBy(applied[..i], ws, loc) || loc == Loc(ws, applied[i].rel)
  {
    assert applied[..i + 1][i] == applied[i];
    assert forall j :: 0 <= j < i ==> applied[..i + 1][j] == applied[..i][j];
  }

  lemma PutTwice(files: Files, loc: Loc, value: Option<Bytes>)
    ensures Put(Put(files, loc, value), loc, value) == Put(files, loc, value)
  {
    SameFiles(Put(Put(files, loc, value), loc, value), Put(files, loc, value));
  }

  /** Undoing the writes before `k` has all it needs. */
  lemma CoversPlan(hash: Bytes -> string, d: Disk, ws: string, plan: seq<Planned>, cp: Checkpoint, blobs: Blobs, k: nat)
    requires StoreOK(hash, d) && k < |plan| && cp == CheckpointOf(hash, d.files, ws, plan, cp.id)
    requires Pruned(hash, d.blobs, cp, Appended(d.store, cp), blobs)
    ensures Available(blobs, cp.entries) && Snapshots(hash, ws, cp.entries, d.files)
    ensures forall i :: 0 <= i < |plan[..k]| ==> CoveredBy(cp.entries, ws, Loc(ws, plan[..k][i].rel))
  {
    PruneKeeps(hash, d, cp, blobs);
    AppendedIs(d.store, cp);
    RefsConcat(Surviving(d.store), [cp]);
    RefsOf(cp);
    forall i | 0 <= i < |plan[..k]| ensures CoveredBy(cp.entries, ws, Loc(ws, plan[..k][i].rel)) {
      assert cp.entries[i].path == plan[i].rel;
    }
  }

  lemma SameIff(before: Files, after: Files, loc: Loc)
    requires SameExcept(before, after, loc)
    ensures after == before <==> Look(after, loc) == Look(before, loc)
  {
    if Look(after, loc) == Look(before, loc) {
      SameFiles(after, before);
    }
  }

  /** A create whose write breaks off after opening the file: the patch fails, and the
      empty file it made stays behind. */
  method BrokenCreateStays(hash: Bytes -> string) returns (before: Files, after: Files, landing: Landing)
    requires Injective(hash)
    ensures landing == Failed(0) && before == map[] && after == map[Loc("w", "a") := []]
  {
    before := map[];
    var service := new PatchService(hash, before);
    var plan := [Planned("a", Create, [], [1])];
    var env := Env(_ => false, false, false, _ => Breaks(Some([])));
    landing := service.Commit("w", plan, "id", env);
    after := service.files;
    var loc := Loc("w", "a");
    assert WriteFails(before, "w", plan, env, 0);
    assert landing == Failed(0) && Look(after, loc) == Some([]);
    SameFiles(after, map[loc := []]);
  }
}
