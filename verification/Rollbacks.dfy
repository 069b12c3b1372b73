/** Rolling back in the midst of things (internal/agentops/write.go: rollbackPatch): what
    the newest checkpoints still undo once the files have been changed by other
    rollbacks, and runs that mix patches with rollbacks. */
module Rollbacks {
  import opened Wire
  import opened PatchPlan
  import opened Checkpoints

  /** `files` with those of a checkpoint as they are in `before`. */
  ghost function Overlay(before: Files, files: Files, ws: string, entries: seq<Entry>): (r: Files)
    ensures forall loc :: Look(r, loc) == if CoveredBy(entries, ws, loc) then Look(before, loc) else Look(files, loc)
  {
    map loc | loc in before.Keys + files.Keys && (if CoveredBy(entries, ws, loc) then loc in before else loc in files)
      :: if CoveredBy(entries, ws, loc) then before[loc] else files[loc]
  }

  /** From whatever files, a rollback puts back the checkpoint's files and no others. */
  lemma RestoreFrom(hash: Bytes -> string, blobs: Blobs, ws: string, before: Files, files: Files, entries: seq<Entry>)
    requires Injective(hash) && BlobsTrue(hash, blobs) && Available(blobs, entries)
    requires Snapshots(hash, ws, entries, before)
    ensures Restore(blobs, ws, files, entries) == Restored(Overlay(before, files, ws, entries), true)
  {
    var after := Overlay(before, files, ws, entries);
    assert forall i :: 0 <= i < |entries| ==> CoveredBy(entries, ws, Loc(ws, entries[i].path));
    RestoreExact(hash, blobs, ws, after, files, entries);
  }

  /** One of the newest `k` checkpoints covers the file. */
  ghost predicate CoveredByNewest(store: seq<Checkpoint>, k: nat, loc: Loc) {
    exists i :: 0 <= i < |store| && |store| - k <= i && CoveredBy(store[i].entries, store[i].workspace, loc)
  }

  lemma CoveredOneMore(store: seq<Checkpoint>, k: nat, loc: Loc)
    requires 0 < k <= |store|
    ensures var cp := store[|store| - k];
      CoveredByNewest(store, k, loc) <==>
        CoveredBy(cp.entries, cp.workspace, loc) || CoveredByNewest(store, k - 1, loc)
  {
    if CoveredByNewest(store, k, loc) {
      var i :| 0 <= i < |store| && |store| - k <= i && CoveredBy(store[i].entries, store[i].workspace, loc);
      assert i == |store| - k || |store| - (k - 1) <= i;
    }
  }

  /** What undoing the newest `k` checkpoints leaves, started from files of any content:
      theirs as before the oldest of those patches, all others untouched. */
  ghost predicate UndoneTo(w: World, files: Files, k: nat, r: Restored)
    requires k <= |w.disk.store| && |w.states| == |w.disk.store| + 1 && w.states[|w.disk.store| - k].Some?
  {
    && r.ok
    && forall loc :: Look(r.files, loc)
         == if CoveredByNewest(w.disk.store, k, loc) then Look(w.states[|w.disk.store| - k].value, loc) else Look(files, loc)
  }

  ghost predicate Undoable(hash: Bytes -> string, w: World, k: nat) {
    && Injective(hash) && BlobsTrue(hash, w.disk.blobs) && Trail(hash, w) && DistinctIDs(w.disk.store)
    && k <= |w.disk.store| && w.states[|w.disk.store| - k].Some? && NewestKept(w.disk, k)
  }

  lemma {:induction false} UndoFrom(hash: Bytes -> string, w: World, files: Files, k: nat)
    requires Undoable(hash, w, k)
    ensures UndoneTo(w, files, k, Undo(w.disk.(files := files), k))
  {
    if k > 0 {
      FewerUndoable(hash, w, k);
      UndoFrom(hash, w, files, k - 1);
      UndoFromStep(hash, w, files, k, Undo(w.disk.(files := files), k - 1).files);
    }
  }

  lemma FewerUndoable(hash: Bytes -> string, w: World, k: nat)
    requires 0 < k && Undoable(hash, w, k)
    ensures Undoable(hash, w, k - 1)
  {
    assert w.states[|w.disk.store| - k + 1].Some?;
  }

  lemma UndoFromStep(hash: Bytes -> string, w: World, files: Files, k: nat, mid: Files)
    requires 0 < k && Undoable(hash, w, k) && Undoable(hash, w, k - 1)
    requires UndoneTo(w, files, k - 1, Restored(mid, true))
    requires Undo(w.disk.(files := files), k - 1) == Restored(mid, true)
    ensures UndoneTo(w, files, k, Undo(w.disk.(files := files), k))
  {
    var d, i := w.disk.(files := files), |w.disk.store| - k;
    assert Linked(hash, w.disk.store[i], w.states[i].value, w.states[i + 1].value);
    UndoOneMore(d, k, mid);
    RolledBackFrom(hash, d.(files := mid), i, w.states[i].value);
    UndoneStep(w, files, k, mid, Undo(d, k));
  }

  lemma RolledBackFrom(hash: Bytes -> string, d: Disk, i: nat, before: Files)
    requires Injective(hash) && BlobsTrue(hash, d.blobs) && DistinctIDs(d.store) && i < |d.store|
    requires Kept(d.blobs, [d.store[i]]) && Snapshots(hash, d.store[i].workspace, d.store[i].entries, before)
    ensures var cp := d.store[i];
      RolledBack(d, cp.workspace, cp.id) == Restored(Overlay(before, d.files, cp.workspace, cp.entries), true)
  {
    var cp := d.store[i];
    assert Find(d.store, cp.workspace, cp.id) == Some(i);
    KeptAvailable(d.blobs, cp);
    RestoreFrom(hash, d.blobs, cp.workspace, before, d.files, cp.entries);
  }

  lemma KeptAvailable(blobs: Blobs, cp: Checkpoint)
    requires Kept(blobs, [cp])
    ensures Available(blobs, cp.entries)
  {
    forall e | e in cp.entries && e.blob.Some? ensures e.blob.value in blobs {
      assert cp in [cp] && e.blob.value in Refs([cp]);
    }
  }

  lemma UndoneStep(w: World, files: Files, k: nat, mid: Files, r: Restored)
    requires 0 < k <= |w.disk.store| && |w.states| == |w.disk.store| + 1
    requires var i := |w.disk.store| - k; var cp := w.disk.store[i];
      && w.states[i].Some? && w.states[i + 1].Some?
      && SameOutside(w.states[i].value, w.states[i + 1].value, cp.workspace, cp.entries)
      && UndoneTo(w, files, k - 1, Restored(mid, true))
      && r == Restored(Overlay(w.states[i].value, mid, cp.workspace, cp.entries), true)
    ensures UndoneTo(w, files, k, r)
  {
    forall loc
      ensures Look(r.files, loc)
           == if CoveredByNewest(w.disk.store, k, loc) then Look(w.states[|w.disk.store| - k].value, loc) else Look(files, loc)
    {
      CoveredOneMore(w.disk.store, k, loc);
    }
  }

  /** However the files have changed meanwhile, undoing the newest `k` checkpoints gives
      back the files before the oldest of those patches if and only if no file outside
      those checkpoints has changed. */
  lemma UndoFromIff(hash: Bytes -> string, w: World, files: Files, k: nat)
    requires Undoable(hash, w, k)
    ensures Undo(w.disk.(files := files), k) == Restored(w.states[|w.disk.store| - k].value, true) <==>
      forall loc :: !CoveredByNewest(w.disk.store, k, loc) ==> Look(files, loc) == Look(w.disk.files, loc)
  {
    var before := w.states[|w.disk.store| - k].value;
    UndoFrom(hash, w, files, k);
    UndoFrom(hash, w, w.disk.files, k);
    UndoRestores(hash, w, k);
    assert w.disk.(files := w.disk.files) == w.disk;
    UncoveredDecide(w.disk.store, k, w.disk.files, files, before, Undo(w.disk.(files := files), k).files);
  }

  lemma UncoveredDecide(store: seq<Checkpoint>, k: nat, now: Files, files: Files, before: Files, undone: Files)
    requires forall loc :: Look(before, loc) == if CoveredByNewest(store, k, loc) then Look(before, loc) else Look(now, loc)
    requires forall loc :: Look(undone, loc) == if CoveredByNewest(store, k, loc) then Look(before, loc) else Look(files, loc)
    ensures undone == before <==>
      forall loc :: !CoveredByNewest(store, k, loc) ==> Look(files, loc) == Look(now, loc)
  {
    if forall loc :: !CoveredByNewest(store, k, loc) ==> Look(files, loc) == Look(now, loc) {
      forall loc ensures Look(undone, loc) == Look(before, loc) {
        assert CoveredByNewest(store, k, loc) || Look(files, loc) == Look(now, loc);
      }
      SameFiles(undone, before);
    }
  }

  /** Rolling back checkpoint `i` first leaves the newest `k` reversible if and only if it
      changes no file outside those: every file of checkpoint `i` is also one of theirs,
      or holds now what it held before that patch. */
  lemma OlderRollbackIff(hash: Bytes -> string, w: World, i: nat, k: nat)
    requires Undoable(hash, w, k) && i < |w.disk.store| && w.states[i].Some? && Kept(w.disk.blobs, [w.disk.store[i]])
    ensures var cp := w.disk.store[i];
            var files := RolledBack(w.disk, cp.workspace, cp.id).files;
      Undo(w.disk.(files := files), k) == Restored(w.states[|w.disk.store| - k].value, true) <==>
        forall loc :: CoveredBy(cp.entries, cp.workspace, loc) && !CoveredByNewest(w.disk.store, k, loc) ==>
          Look(w.states[i].value, loc) == Look(w.disk.files, loc)
  {
    var cp := w.disk.store[i];
    var files := RolledBack(w.disk, cp.workspace, cp.id).files;
    assert Linked(hash, cp, w.states[i].value, w.states[i + 1].value);
    RolledBackFrom(hash, w.disk, i, w.states[i].value);
    UndoFromIff(hash, w, files, k);
  }

  /** In particular, rolling back one of the newest `k` first does no harm. */
  lemma NewerRollbackHarmless(hash: Bytes -> string, w: World, i: nat, k: nat)
    requires Undoable(hash, w, k) && |w.disk.store| - k <= i < |w.disk.store| && w.states[i].Some?
    ensures var cp := w.disk.store[i];
      Undo(w.disk.(files := RolledBack(w.disk, cp.workspace, cp.id).files), k)
        == Restored(w.states[|w.disk.store| - k].value, true)
  {
    var cp := w.disk.store[i];
    forall loc | CoveredBy(cp.entries, cp.workspace, loc) ensures CoveredByNewest(w.disk.store, k, loc) {}
    OlderRollbackIff(hash, w, i, k);
  }

  function CreateOf(id: string, path: string): Checkpoint {
    Checkpoint(id, "w", [Entry(path, None)])
  }

  /** Two files created one after the other. */
  function TwoCreates(content: Bytes): World {
    var one: Files := map[Loc("w", "a") := content];
    var both: Files := map[Loc("w", "a") := content, Loc("w", "b") := content];
    World(Disk(both, map[], [CreateOf("1", "a"), CreateOf("2", "b")]), [Some(map[]), Some(one), Some(both)])
  }

  lemma TwoCreatesOK(hash: Bytes -> string, content: Bytes)
    ensures var w := TwoCreates(content);
      WorldOK(hash, w) && DistinctIDs(w.disk.store) && Refs(w.disk.store) == {}
  {
    var w := TwoCreates(content);
    assert Refs(w.disk.store) == {};
    assert Linked(hash, w.disk.store[0], w.states[0].value, w.states[1].value) by {
      assert CreateOf("1", "a").entries[0].path == "a";
    }
    assert Linked(hash, w.disk.store[1], w.states[1].value, w.states[2].value) by {
      assert CreateOf("2", "b").entries[0].path == "b";
    }
  }

  /** Rolling back the first of two creates and then the second leaves neither file,
      where undoing the second alone leaves the first. */
  lemma OlderRollbackSpoils(hash: Bytes -> string, content: Bytes)
    requires Injective(hash)
    ensures var w := TwoCreates(content);
      && WorldOK(hash, w) && DistinctIDs(w.disk.store)
      && Undo(w.disk.(files := RolledBack(w.disk, "w", "1").files), 1) == Restored(map[], true)
      && w.states[1] == Some(map[Loc("w", "a") := content])
  {
    var w, a := TwoCreates(content), Loc("w", "a");
    TwoCreatesOK(hash, content);
    RefsWithin([w.disk.store[0]], w.disk.store);
    KeptNewest(w.disk, w.disk.store, 1);
    var cp0, cp1 := w.disk.store[0], w.disk.store[1];
    assert cp0.entries[0].path == "a" && cp1.entries[0].path == "b";
    RolledBackFrom(hash, w.disk, 0, w.states[0].value);
    var files := RolledBack(w.disk, "w", "1").files;
    UndoFrom(hash, w, files, 1);
    var none: Files := map[];
    forall loc ensures Look(Undo(w.disk.(files := files), 1).files, loc) == Look(none, loc) {
      assert CoveredBy(cp0.entries, cp0.workspace, loc) <==> loc == a;
      assert CoveredByNewest(w.disk.store, 1, loc) <==> CoveredBy(cp1.entries, cp1.workspace, loc);
      assert CoveredBy(cp1.entries, cp1.workspace, loc) <==> loc == Loc("w", "b");
    }
    SameFiles(Undo(w.disk.(files := files), 1).files, none);
  }

  // ------------------------------------------------------------------- mixed runs

  /** Rolling back the newest checkpoint, as far as its blobs allow. List and blobs stay,
      and so does what is remembered of the files before each patch. */
  ghost predicate Back(w: World, w': World) {
    var n := |w.disk.store|;
    && n > 0 && |w.states| == n + 1
    && w'.disk == w.disk.(files := AfterRollback(w.disk, w.disk.store[n - 1]))
    && w'.states == w.states[..n] + [Some(w'.disk.files)]
  }

  function AfterRollback(d: Disk, cp: Checkpoint): Files {
    Restore(d.blobs, cp.workspace, d.files, cp.entries).files
  }

  lemma BackKeepsWorld(hash: Bytes -> string, w: World, w': World)
    requires WorldOK(hash, w) && Back(w, w')
    ensures WorldOK(hash, w')
  {
    var n := |w.disk.store|;
    var cp := w.disk.store[n - 1];
    RestoreLocal(w.disk.blobs, cp.workspace, w.disk.files, cp.entries);
    forall i | 0 <= i < n && w'.states[i].Some?
      ensures w'.states[i + 1].Some? && Linked(hash, w.disk.store[i], w'.states[i].value, w'.states[i + 1].value)
    {
      assert w.states[i].Some? && Linked(hash, w.disk.store[i], w.states[i].value, w.states[i + 1].value);
    }
  }

  datatype Action = Did(patch: Patch) | RolledNewest

  ghost predicate MixedRun(hash: Bytes -> string, worlds: seq<World>, actions: seq<Action>) {
    && |worlds| == |actions| + 1
    && forall i :: 0 <= i < |actions| ==> Acts(hash, worlds[i], worlds[i + 1], actions[i])
  }

  ghost predicate Acts(hash: Bytes -> string, w: World, w': World, a: Action) {
    match a
    case Did(p) => Step(hash, w, w', p.ws, p.plan, p.id, p.landing)
    case RolledNewest => Back(w, w')
  }

  lemma {:induction false} MixedKeepsWorld(hash: Bytes -> string, worlds: seq<World>, actions: seq<Action>, i: nat)
    requires MixedRun(hash, worlds, actions) && WorldOK(hash, worlds[0]) && i < |worlds|
    ensures WorldOK(hash, worlds[i])
  {
    if i > 0 {
      MixedKeepsWorld(hash, worlds, actions, i - 1);
      assert Acts(hash, worlds[i - 1], worlds[i], actions[i - 1]);
      match actions[i - 1]
      case Did(p) => StepKeepsWorld(hash, worlds[i - 1], worlds[i], p.ws, p.plan, p.id, p.landing);
      case RolledNewest => BackKeepsWorld(hash, worlds[i - 1], worlds[i]);
    }
  }

  /** After any run of patches, failing anywhere, and rollbacks of the newest checkpoint,
      in any order, the newest 19 checkpoints, or all of a shorter list, can be undone. */
  lemma MixedReversible(hash: Bytes -> string, worlds: seq<World>, actions: seq<Action>, k: nat)
    requires Injective(hash) && MixedRun(hash, worlds, actions) && WorldOK(hash, worlds[0])
    requires var w := worlds[|actions|];
      DistinctIDs(w.disk.store) && k <= |w.disk.store| && k < MAX_KEPT
    ensures var w := worlds[|actions|];
      && |w.states| == |w.disk.store| + 1
      && (w.states[|w.disk.store| - k].Some? ==> Undo(w.disk, k) == Restored(w.states[|w.disk.store| - k].value, true))
  {
    MixedKeepsWorld(hash, worlds, actions, |actions|);
    SurvivorsUndone(hash, worlds[|actions|], k);
  }
}
