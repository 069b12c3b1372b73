/** What checkpoints keep and what rolling them back restores
    (internal/agentops/write.go: createCheckpoint, appendCheckpoint, pruneBlobs,
    rollbackPatch), over all runs of patches. */
module Checkpoints {
  import opened Wire
  import opened PatchPlan
  import RunRecords

  const MAX_KEPT := 20

  type Blobs = map<string, Bytes>

  /** One file of a checkpoint: the blob that holds its content, or absent. */
  datatype Entry = Entry(path: string, blob: Option<string>)

  datatype Checkpoint = Checkpoint(id: string, workspace: string, entries: seq<Entry>)

  /** The workspaces' files, the blob directory and the checkpoint file (oldest first). */
  datatype Disk = Disk(files: Files, blobs: Blobs, store: seq<Checkpoint>)

  ghost predicate Injective(hash: Bytes -> string) {
    forall a, b :: hash(a) == hash(b) ==> a == b
  }

  function Refs(cps: seq<Checkpoint>): set<string> {
    set c, e | c in cps && e in c.entries && e.blob.Some? :: e.blob.value
  }

  /** Every blob holds the content it is named after. */
  ghost predicate BlobsTrue(hash: Bytes -> string, blobs: Blobs) {
    forall name :: name in blobs ==> hash(blobs[name]) == name
  }

  ghost predicate Kept(blobs: Blobs, cps: seq<Checkpoint>) {
    Refs(cps) <= blobs.Keys
  }

  /** The list after a checkpoint is added: the newest 20. */
  function Appended(store: seq<Checkpoint>, cp: Checkpoint): seq<Checkpoint> {
    RunRecords.LastN(store + [cp], MAX_KEPT)
  }

  /** What the store keeps even when rewriting the checkpoint file has failed: the
      blobs of all checkpoints, or of all but the oldest of a full list. */
  ghost predicate StoreOK(hash: Bytes -> string, d: Disk) {
    && BlobsTrue(hash, d.blobs) && |d.store| <= MAX_KEPT
    && Kept(d.blobs, Surviving(d.store))
  }

  function Surviving(store: seq<Checkpoint>): seq<Checkpoint> {
    if |store| >= MAX_KEPT then store[1..] else store
  }

  lemma RefsConcat(a: seq<Checkpoint>, b: seq<Checkpoint>)
    ensures Refs(a + b) == Refs(a) + Refs(b)
  {
  }

  lemma RefsWithin(part: seq<Checkpoint>, whole: seq<Checkpoint>)
    requires forall c :: c in part ==> c in whole
    ensures Refs(part) <= Refs(whole)
  {
  }

  /** What an append leaves of the list before it. */
  lemma AppendedIs(store: seq<Checkpoint>, cp: Checkpoint)
    requires |store| <= MAX_KEPT
    ensures Appended(store, cp) == Surviving(store) + [cp]
  {
  }

  // ------------------------------------------------------------------- restoring

  datatype Restored = Restored(files: Files, ok: bool)

  /** Writing back the entries of a checkpoint in order, up to a missing blob. */
  function Restore(blobs: Blobs, ws: string, files: Files, entries: seq<Entry>): Restored
    decreases |entries|
  {
    if entries == [] then Restored(files, true)
    else
      var e := entries[0];
      if e.blob.Some? && e.blob.value !in blobs then Restored(files, false)
      else Restore(blobs, ws, Put(files, Loc(ws, e.path), Held(blobs, e)), entries[1..])
  }

  function Held(blobs: Blobs, e: Entry): Option<Bytes> {
    if e.blob.Some? && e.blob.value in blobs then Some(blobs[e.blob.value]) else None
  }

  ghost predicate Available(blobs: Blobs, entries: seq<Entry>) {
    forall e :: e in entries && e.blob.Some? ==> e.blob.value in blobs
  }

  ghost predicate CoveredBy(entries: seq<Entry>, ws: string, loc: Loc) {
    loc.workspace == ws && exists i :: 0 <= i < |entries| && entries[i].path == loc.path
  }

  lemma CoveredTail(entries: seq<Entry>, ws: string, loc: Loc)
    requires entries != []
    ensures CoveredBy(entries, ws, loc) <==> loc == Loc(ws, entries[0].path) || CoveredBy(entries[1..], ws, loc)
  {
    if CoveredBy(entries, ws, loc) {
      var i :| 0 <= i < |entries| && entries[i].path == loc.path;
      assert i > 0 ==> entries[1..][i - 1] == entries[i];
    }
  }

  /** A rollback succeeds exactly when every blob it needs is there, and touches no
      file outside its checkpoint. */
  lemma {:induction false} RestoreLocal(blobs: Blobs, ws: string, files: Files, entries: seq<Entry>)
    ensures var r := Restore(blobs, ws, files, entries);
      && (r.ok <==> Available(blobs, entries))
      && forall loc :: !CoveredBy(entries, ws, loc) ==> Look(r.files, loc) == Look(files, loc)
    decreases |entries|
  {
    if entries != [] {
      var e, files' := entries[0], Put(files, Loc(ws, entries[0].path), Held(blobs, entries[0]));
      RestoreLocal(blobs, ws, files', entries[1..]);
      assert forall f :: f in entries <==> f == e || f in entries[1..];
      forall loc ensures CoveredBy(entries, ws, loc) <==> loc == Loc(ws, e.path) || CoveredBy(entries[1..], ws, loc) {
        CoveredTail(entries, ws, loc);
      }
    }
  }

  function NameOf(hash: Bytes -> string, content: Option<Bytes>): Option<string> {
    match content
    case None => None
    case Some(c) => Some(hash(c))
  }

  /** The checkpoint records these files as they stand. */
  ghost predicate Snapshots(hash: Bytes -> string, ws: string, entries: seq<Entry>, files: Files) {
    forall i :: 0 <= i < |entries| ==> entries[i].blob == NameOf(hash, Look(files, Loc(ws, entries[i].path)))
  }

  ghost predicate SameOutside(before: Files, after: Files, ws: string, entries: seq<Entry>) {
    forall loc :: !CoveredBy(entries, ws, loc) ==> Look(after, loc) == Look(before, loc)
  }

  lemma HeldIsContent(hash: Bytes -> string, blobs: Blobs, ws: string, e: Entry, files: Files)
    requires Injective(hash) && BlobsTrue(hash, blobs)
    requires e.blob == NameOf(hash, Look(files, Loc(ws, e.path))) && (e.blob.Some? ==> e.blob.value in blobs)
    ensures Held(blobs, e) == Look(files, Loc(ws, e.path))
  {
  }

  /** Rolling back a checkpoint from any state that differs from the snapshot only at
      the checkpoint's own files gives back the snapshot. */
  lemma {:induction false} RestoreExact(
      hash: Bytes -> string, blobs: Blobs, ws: string, before: Files, after: Files, entries: seq<Entry>)
    requires Injective(hash) && BlobsTrue(hash, blobs) && Available(blobs, entries)
    requires Snapshots(hash, ws, entries, before) && SameOutside(before, after, ws, entries)
    ensures Restore(blobs, ws, after, entries) == Restored(before, true)
    decreases |entries|
  {
    if entries == [] {
      SameFiles(before, after);
    } else {
      var e, rest := entries[0], entries[1..];
      var next := Put(after, Loc(ws, e.path), Held(blobs, e));
      HeldIsContent(hash, blobs, ws, e, before);
      forall loc | !CoveredBy(rest, ws, loc) ensures Look(next, loc) == Look(before, loc) {
        CoveredTail(entries, ws, loc);
      }
      RestoreExact(hash, blobs, ws, before, next, rest);
    }
  }

  // -------------------------------------------------------------------- committing

  /** How the locked part of a patch ends: no checkpoint could be stored, everything
      was written, or write `at` failed. */
  datatype Landing = NotCheckpointed | Applied | Failed(at: nat)

  /** What a planned change leaves at its path. */
  function Target(p: Planned): Option<Bytes> {
    if p.action == Delete then None else Some(p.content)
  }

  ghost predicate DistinctRels(plan: seq<Planned>) {
    forall i, j :: 0 <= i < j < |plan| ==> plan[i].rel != plan[j].rel
  }

  ghost predicate TouchedBy(plan: seq<Planned>, ws: string, loc: Loc) {
    loc.workspace == ws && exists i :: 0 <= i < |plan| && plan[i].rel == loc.path
  }

  /** The files once every change of the plan has been written: a deleted file is gone,
      any other holds the new content, and no other file changed. */
  ghost predicate Patched(before: Files, ws: string, plan: seq<Planned>, after: Files) {
    && (forall i :: 0 <= i < |plan| ==>
          if plan[i].action == Delete then Loc(ws, plan[i].rel) !in after
          else Look(after, Loc(ws, plan[i].rel)) == Some(plan[i].content))
    && (forall loc :: !TouchedBy(plan, ws, loc) ==> Look(after, loc) == Look(before, loc))
  }

  ghost predicate SameExcept(before: Files, after: Files, except: Loc) {
    forall loc :: loc != except ==> Look(after, loc) == Look(before, loc)
  }

  /** The checkpoint of a patch about to be written. */
  function CheckpointOf(hash: Bytes -> string, files: Files, ws: string, plan: seq<Planned>, id: string): Checkpoint {
    Checkpoint(id, ws, seq(|plan|, i requires 0 <= i < |plan| =>
      Entry(plan[i].rel, NameOf(hash, Look(files, Loc(ws, plan[i].rel))))))
  }

  /** The blob directory after storing a checkpoint's blobs and pruning for `store`. */
  ghost predicate Pruned(hash: Bytes -> string, blobs: Blobs, cp: Checkpoint, store: seq<Checkpoint>, blobs': Blobs) {
    BlobsTrue(hash, blobs') && blobs'.Keys == (blobs.Keys + Refs([cp])) * Refs(store)
  }

  /** The locked part of a patch. A checkpoint that cannot be stored leaves files and
      list alone; it may have added blobs, or, when the rewrite of the list failed,
      already pruned for the new list. */
  ghost predicate Commits(hash: Bytes -> string, d: Disk, ws: string, plan: seq<Planned>, id: string,
                          d': Disk, landing: Landing)
  {
    var cp := CheckpointOf(hash, d.files, ws, plan, id);
    var store := Appended(d.store, cp);
    match landing
    case NotCheckpointed =>
      && d'.files == d.files && d'.store == d.store
      && ((BlobsTrue(hash, d'.blobs) && d.blobs.Keys <= d'.blobs.Keys) || Pruned(hash, d.blobs, cp, store, d'.blobs))
    case Applied =>
      && d'.store == store && Pruned(hash, d.blobs, cp, store, d'.blobs)
      && Patched(d.files, ws, plan, d'.files)
    case Failed(at) =>
      && d'.store == store && Pruned(hash, d.blobs, cp, store, d'.blobs)
      && at < |plan| && SameExcept(d.files, d'.files, Loc(ws, plan[at].rel))
  }

  lemma PruneKeeps(hash: Bytes -> string, d: Disk, cp: Checkpoint, blobs': Blobs)
    requires StoreOK(hash, d) && Pruned(hash, d.blobs, cp, Appended(d.store, cp), blobs')
    ensures Kept(blobs', Appended(d.store, cp)) && Kept(blobs', Surviving(d.store))
  {
    AppendedIs(d.store, cp);
    RefsConcat(Surviving(d.store), [cp]);
  }

  /** Retention over any patch: the store keeps what it must, and whenever the new
      checkpoint was stored every retained checkpoint has all its blobs. */
  lemma CommitKeepsStore(hash: Bytes -> string, d: Disk, ws: string, plan: seq<Planned>, id: string,
                         d': Disk, landing: Landing)
    requires StoreOK(hash, d) && Commits(hash, d, ws, plan, id, d', landing)
    ensures StoreOK(hash, d')
    ensures !landing.NotCheckpointed? ==> Kept(d'.blobs, d'.store) && |d'.store| == |Surviving(d.store)| + 1
  {
    var cp := CheckpointOf(hash, d.files, ws, plan, id);
    AppendedIs(d.store, cp);
    if Pruned(hash, d.blobs, cp, Appended(d.store, cp), d'.blobs) {
      PruneKeeps(hash, d, cp, d'.blobs);
      RefsWithin(Surviving(d'.store), d'.store);
    }
  }

  /** When the rewrite of the checkpoint file fails after pruning, the list still on
      disk keeps all its blobs if and only if the checkpoint that was about to be
      dropped shares every blob with a younger one or the new one. */
  lemma FailedRewriteKeepsIff(hash: Bytes -> string, d: Disk, cp: Checkpoint, blobs': Blobs)
    requires StoreOK(hash, d) && Kept(d.blobs, d.store)
    requires Pruned(hash, d.blobs, cp, Appended(d.store, cp), blobs')
    ensures Kept(blobs', d.store) <==>
      |d.store| < MAX_KEPT || Refs([d.store[0]]) <= Refs(d.store[1..]) + Refs([cp])
  {
    AppendedIs(d.store, cp);
    RefsConcat(Surviving(d.store), [cp]);
    if |d.store| == MAX_KEPT {
      assert d.store == [d.store[0]] + d.store[1..];
      RefsConcat([d.store[0]], d.store[1..]);
    }
  }

  /** A full list whose oldest checkpoint alone holds a blob loses it that way. */
  lemma FailedRewriteLosesBlob(hash: Bytes -> string, content: Bytes)
    returns (d: Disk, cp: Checkpoint, blobs': Blobs)
    ensures StoreOK(hash, d) && Kept(d.blobs, d.store)
    ensures Pruned(hash, d.blobs, cp, Appended(d.store, cp), blobs')
    ensures !Kept(blobs', d.store)
  {
    var name := hash(content);
    var oldest := Checkpoint("oldest", "w", [Entry("f", Some(name))]);
    var empty := Checkpoint("empty", "w", []);
    var younger := seq(MAX_KEPT - 1, i => empty);
    d, cp, blobs' := Disk(map[], map[name := content], [oldest] + younger), empty, map[];
    assert d.store[1..] == younger && d.store[0] == oldest;
    assert Refs(younger) == {} && Refs([cp]) == {};
    assert Refs([oldest]) == {name} by {
      assert oldest in [oldest] && Entry("f", Some(name)) in oldest.entries;
    }
    RefsConcat([oldest], younger);
    AppendedIs(d.store, cp);
    RefsConcat(younger, [cp]);
  }

  // -------------------------------------------------------- histories of patches

  /** A disk and the files just before the patch of each checkpoint in its list, where
      that is known, followed by the files now. */
  datatype World = World(disk: Disk, states: seq<Option<Files>>)

  /** Checkpoint `i` records state `i`, and its patch led from there to state `i + 1`
      by changing only the checkpoint's own files. */
  ghost predicate Chain(hash: Bytes -> string, cps: seq<Checkpoint>, states: seq<Option<Files>>) {
    && |states| == |cps| + 1
    && forall i :: 0 <= i < |cps| && states[i].Some? ==>
         states[i + 1].Some? && Linked(hash, cps[i], states[i].value, states[i + 1].value)
  }

  ghost predicate Trail(hash: Bytes -> string, w: World) {
    Chain(hash, w.disk.store, w.states) && w.states[|w.disk.store|] == Some(w.disk.files)
  }

  ghost predicate Linked(hash: Bytes -> string, cp: Checkpoint, before: Files, after: Files) {
    Snapshots(hash, cp.workspace, cp.entries, before) && SameOutside(before, after, cp.workspace, cp.entries)
  }

  ghost predicate WorldOK(hash: Bytes -> string, w: World) {
    StoreOK(hash, w.disk) && Trail(hash, w)
  }

  /** How many of the oldest checkpoints an append pushes out. */
  function Dropped(store: seq<Checkpoint>): nat {
    if |store| >= MAX_KEPT then 1 else 0
  }

  /** One patch; if it left a checkpoint, the files it started from are remembered. */
  ghost predicate Step(hash: Bytes -> string, w: World, w': World, ws: string, plan: seq<Planned>, id: string,
                       landing: Landing)
  {
    && Commits(hash, w.disk, ws, plan, id, w'.disk, landing)
    && if landing.NotCheckpointed? then w'.states == w.states
       else |w.states| == |w.disk.store| + 1 && w'.states == (w.states + [Some(w'.disk.files)])[Dropped(w.disk.store)..]
  }

  lemma TouchedIsCovered(hash: Bytes -> string, files: Files, ws: string, plan: seq<Planned>, id: string, loc: Loc)
    ensures TouchedBy(plan, ws, loc) <==> CoveredBy(CheckpointOf(hash, files, ws, plan, id).entries, ws, loc)
  {
    var entries := CheckpointOf(hash, files, ws, plan, id).entries;
    assert forall i :: 0 <= i < |plan| ==> entries[i].path == plan[i].rel;
  }

  /** A stored checkpoint covers whatever its patch changed, even a failed one. */
  lemma CommitLinked(hash: Bytes -> string, d: Disk, ws: string, plan: seq<Planned>, id: string,
                     d': Disk, landing: Landing)
    requires Commits(hash, d, ws, plan, id, d', landing)
    ensures Linked(hash, CheckpointOf(hash, d.files, ws, plan, id), d.files, d'.files)
  {
    var cp := CheckpointOf(hash, d.files, ws, plan, id);
    forall loc | !CoveredBy(cp.entries, ws, loc) ensures Look(d'.files, loc) == Look(d.files, loc) {
      TouchedIsCovered(hash, d.files, ws, plan, id, loc);
      if landing.Failed? {
        assert loc == Loc(ws, plan[landing.at].rel) ==> TouchedBy(plan, ws, loc);
      }
    }
  }

  lemma StepKeepsWorld(hash: Bytes -> string, w: World, w': World, ws: string, plan: seq<Planned>, id: string,
                       landing: Landing)
    requires WorldOK(hash, w) && Step(hash, w, w', ws, plan, id, landing)
    ensures WorldOK(hash, w')
  {
    CommitKeepsStore(hash, w.disk, ws, plan, id, w'.disk, landing);
    if !landing.NotCheckpointed? {
      CommitLinked(hash, w.disk, ws, plan, id, w'.disk, landing);
      TrailGrows(hash, w, w', CheckpointOf(hash, w.disk.files, ws, plan, id));
    }
  }

  lemma TrailGrows(hash: Bytes -> string, w: World, w': World, cp: Checkpoint)
    requires Trail(hash, w) && |w.disk.store| <= MAX_KEPT && w'.disk.store == Appended(w.disk.store, cp)
    requires w'.states == (w.states + [Some(w'.disk.files)])[Dropped(w.disk.store)..]
    requires Linked(hash, cp, w.disk.files, w'.disk.files)
    ensures Trail(hash, w')
  {
    AppendedDrops(w.disk.store, cp);
    ChainGrows(hash, w.disk.store, w.states, cp, w.disk.files, w'.disk.files);
    ChainDrops(hash, w.disk.store + [cp], w.states + [Some(w'.disk.files)], Dropped(w.disk.store));
  }

  lemma AppendedDrops(store: seq<Checkpoint>, cp: Checkpoint)
    requires |store| <= MAX_KEPT
    ensures Appended(store, cp) == (store + [cp])[Dropped(store)..]
  {
  }

  lemma ChainGrows(hash: Bytes -> string, cps: seq<Checkpoint>, states: seq<Option<Files>>, cp: Checkpoint,
                   now: Files, next: Files)
    requires Chain(hash, cps, states) && states[|cps|] == Some(now) && Linked(hash, cp, now, next)
    ensures Chain(hash, cps + [cp], states + [Some(next)])
  {
  }

  lemma ChainDrops(hash: Bytes -> string, cps: seq<Checkpoint>, states: seq<Option<Files>>, n: nat)
    requires Chain(hash, cps, states) && n <= |cps|
    ensures Chain(hash, cps[n..], states[n..])
  {
  }

  /** Which call a rollback is: the first checkpoint with this id in this workspace. */
  function Find(store: seq<Checkpoint>, ws: string, id: string): (r: Option<nat>)
    ensures r.Some? ==> r.value < |store| && store[r.value].id == id && store[r.value].workspace == ws
    ensures r.Some? ==> forall i :: 0 <= i < r.value ==> !(store[i].id == id && store[i].workspace == ws)
    ensures r.None? ==> forall i :: 0 <= i < |store| ==> !(store[i].id == id && store[i].workspace == ws)
  {
    if store == [] then None
    else if store[0].id == id && store[0].workspace == ws then Some(0)
    else
      match Find(store[1..], ws, id)
      case None => None
      case Some(i) => Some(i + 1)
  }

  ghost predicate DistinctIDs(store: seq<Checkpoint>) {
    forall i, j :: 0 <= i < j < |store| ==> store[i].id != store[j].id
  }

  /** The files a rollback call leaves, and whether it reports success. */
  function RolledBack(d: Disk, ws: string, id: string): Restored {
    match Find(d.store, ws, id)
    case None => Restored(d.files, false)
    case Some(i) => Restore(d.blobs, ws, d.files, d.store[i].entries)
  }

  /** The files after rolling back the newest `k` checkpoints, newest first. */
  function Undo(d: Disk, k: nat): Restored
    requires k <= |d.store|
  {
    if k == 0 then Restored(d.files, true)
    else
      var before := Undo(d, k - 1);
      var cp := d.store[|d.store| - k];
      if !before.ok then before else RolledBack(d.(files := before.files), cp.workspace, cp.id)
  }

  lemma RollbackOne(hash: Bytes -> string, d: Disk, i: nat, before: Files)
    requires Injective(hash) && BlobsTrue(hash, d.blobs) && DistinctIDs(d.store) && i < |d.store|
    requires Kept(d.blobs, [d.store[i]]) && Linked(hash, d.store[i], before, d.files)
    ensures RolledBack(d, d.store[i].workspace, d.store[i].id) == Restored(before, true)
  {
    var cp := d.store[i];
    assert Find(d.store, cp.workspace, cp.id) == Some(i);
    assert Available(d.blobs, cp.entries) by {
      forall e | e in cp.entries && e.blob.Some? ensures e.blob.value in d.blobs {
        assert e.blob.value in Refs([cp]) by {
          assert cp in [cp];
        }
      }
    }
    RestoreExact(hash, d.blobs, cp.workspace, before, d.files, cp.entries);
  }

  /** Each of the newest `k` checkpoints has all its blobs. */
  ghost predicate NewestKept(d: Disk, k: nat) {
    forall i :: 0 <= i < |d.store| && |d.store| - k <= i ==> Kept(d.blobs, [d.store[i]])
  }

  lemma KeptNewest(d: Disk, part: seq<Checkpoint>, k: nat)
    requires Kept(d.blobs, part)
    requires forall i :: 0 <= i < |d.store| && |d.store| - k <= i ==> d.store[i] in part
    ensures NewestKept(d, k)
  {
    forall i | 0 <= i < |d.store| && |d.store| - k <= i ensures Kept(d.blobs, [d.store[i]]) {
      RefsWithin([d.store[i]], part);
    }
  }

  lemma UndoOneMore(d: Disk, k: nat, files: Files)
    requires 0 < k <= |d.store| && Undo(d, k - 1) == Restored(files, true)
    ensures var cp := d.store[|d.store| - k]; Undo(d, k) == RolledBack(d.(files := files), cp.workspace, cp.id)
  {
  }

  /** Reversibility: rolling back the newest `k` checkpoints newest first restores
      every file to what it was before the oldest of those patches. */
  lemma {:induction false} UndoRestores(hash: Bytes -> string, w: World, k: nat)
    requires Injective(hash) && BlobsTrue(hash, w.disk.blobs) && Trail(hash, w) && DistinctIDs(w.disk.store)
    requires k <= |w.disk.store| && w.states[|w.disk.store| - k].Some? && NewestKept(w.disk, k)
    ensures Undo(w.disk, k) == Restored(w.states[|w.disk.store| - k].value, true)
  {
    if k > 0 {
      var i := |w.disk.store| - k;
      UndoRestores(hash, w, k - 1);
      UndoStep(hash, w.disk, k, w.states[i].value, w.states[i + 1].value);
    }
  }

  lemma UndoStep(hash: Bytes -> string, d: Disk, k: nat, before: Files, after: Files)
    requires Injective(hash) && BlobsTrue(hash, d.blobs) && DistinctIDs(d.store)
    requires 0 < k <= |d.store| && Undo(d, k - 1) == Restored(after, true)
    requires Kept(d.blobs, [d.store[|d.store| - k]]) && Linked(hash, d.store[|d.store| - k], before, after)
    ensures Undo(d, k) == Restored(before, true)
  {
    UndoOneMore(d, k, after);
    RollbackOne(hash, d.(files := after), |d.store| - k, before);
  }

  // ------------------------------------------------------------------ whole runs

  datatype Patch = Patch(ws: string, plan: seq<Planned>, id: string, landing: Landing)

  ghost predicate Run(hash: Bytes -> string, worlds: seq<World>, patches: seq<Patch>) {
    && |worlds| == |patches| + 1
    && forall i :: 0 <= i < |patches| ==>
         Step(hash, worlds[i], worlds[i + 1], patches[i].ws, patches[i].plan, patches[i].id, patches[i].landing)
  }

  lemma {:induction false} RunKeepsWorld(hash: Bytes -> string, worlds: seq<World>, patches: seq<Patch>, i: nat)
    requires Run(hash, worlds, patches) && WorldOK(hash, worlds[0]) && i < |worlds|
    ensures WorldOK(hash, worlds[i])
  {
    if i > 0 {
      RunKeepsWorld(hash, worlds, patches, i - 1);
      var p := patches[i - 1];
      StepKeepsWorld(hash, worlds[i - 1], worlds[i], p.ws, p.plan, p.id, p.landing);
    }
  }

  lemma SurvivingHas(store: seq<Checkpoint>, k: nat)
    requires k < MAX_KEPT
    ensures forall i :: 0 <= i < |store| && |store| - k <= i ==> store[i] in Surviving(store)
  {
    forall i | 0 <= i < |store| && |store| - k <= i ensures store[i] in Surviving(store) {
      assert |store| >= MAX_KEPT ==> store[i] == store[1..][i - 1];
    }
  }

  /** After any run of patches, with any of them failing at any point, the newest 19
      checkpoints, or all of a shorter list, can be rolled back. */
  lemma AlwaysReversible(hash: Bytes -> string, worlds: seq<World>, patches: seq<Patch>, k: nat)
    requires Injective(hash) && Run(hash, worlds, patches) && WorldOK(hash, worlds[0])
    requires var w := worlds[|patches|];
      DistinctIDs(w.disk.store) && k <= |w.disk.store| && k < MAX_KEPT
    ensures var w := worlds[|patches|];
      && |w.states| == |w.disk.store| + 1
      && (w.states[|w.disk.store| - k].Some? ==> Undo(w.disk, k) == Restored(w.states[|w.disk.store| - k].value, true))
  {
    RunKeepsWorld(hash, worlds, patches, |patches|);
    SurvivorsUndone(hash, worlds[|patches|], k);
  }

  lemma SurvivorsUndone(hash: Bytes -> string, w: World, k: nat)
    requires Injective(hash) && WorldOK(hash, w) && DistinctIDs(w.disk.store) && k <= |w.disk.store| && k < MAX_KEPT
    ensures w.states[|w.disk.store| - k].Some? ==> Undo(w.disk, k) == Restored(w.states[|w.disk.store| - k].value, true)
  {
    SurvivingHas(w.disk.store, k);
    KeptNewest(w.disk, Surviving(w.disk.store), k);
    if w.states[|w.disk.store| - k].Some? {
      UndoRestores(hash, w, k);
    }
  }

  /** A world whose list predates the run: nothing but the present is known. */
  function Start(d: Disk): World {
    World(d, seq(|d.store|, i => None) + [Some(d.files)])
  }

  lemma StartOK(hash: Bytes -> string, d: Disk)
    requires StoreOK(hash, d)
    ensures WorldOK(hash, Start(d))
  {
  }

  ghost predicate AllCheckpointed(patches: seq<Patch>) {
    forall i :: 0 <= i < |patches| ==> !patches[i].landing.NotCheckpointed?
  }

  /** The world remembers the files from before its newest `n` checkpoints. */
  ghost predicate Remembers(w: World, n: nat, files: Files) {
    && n <= |w.disk.store| && |w.states| == |w.disk.store| + 1
    && w.states[|w.disk.store| - n] == Some(files)
  }

  lemma {:induction false} StartRemembered(hash: Bytes -> string, worlds: seq<World>, patches: seq<Patch>, n: nat)
    requires Run(hash, worlds, patches) && WorldOK(hash, worlds[0]) && n <= |patches| <= MAX_KEPT
    requires AllCheckpointed(patches)
    ensures Remembers(worlds[n], n, worlds[0].disk.files)
  {
    if n > 0 {
      StartRemembered(hash, worlds, patches, n - 1);
      NextRemembered(hash, worlds, patches, n - 1, worlds[0].disk.files);
    }
  }

  lemma NextRemembered(hash: Bytes -> string, worlds: seq<World>, patches: seq<Patch>, i: nat, files: Files)
    requires Run(hash, worlds, patches) && WorldOK(hash, worlds[0]) && i < |patches| <= MAX_KEPT
    requires AllCheckpointed(patches) && Remembers(worlds[i], i, files)
    ensures Remembers(worlds[i + 1], i + 1, files)
  {
    RunKeepsWorld(hash, worlds, patches, i);
    RememberStep(hash, worlds[i], worlds[i + 1], patches[i], i);
  }

  lemma RememberStep(hash: Bytes -> string, w: World, w': World, p: Patch, n: nat)
    requires Step(hash, w, w', p.ws, p.plan, p.id, p.landing) && !p.landing.NotCheckpointed?
    requires n <= |w.disk.store| <= MAX_KEPT && n < MAX_KEPT && |w.states| == |w.disk.store| + 1
    ensures n + 1 <= |w'.disk.store| && |w'.states| == |w'.disk.store| + 1
    ensures w'.states[|w'.disk.store| - n - 1] == w.states[|w.disk.store| - n]
  {
    AppendedDrops(w.disk.store, CheckpointOf(hash, w.disk.files, p.ws, p.plan, p.id));
  }

  /** Up to 20 patches that each left a checkpoint, starting from any store, are
      undone by rolling their checkpoints back newest first: every file has its
      original existence and content. */
  lemma PatchesUndone(hash: Bytes -> string, worlds: seq<World>, patches: seq<Patch>)
    requires Injective(hash) && Run(hash, worlds, patches) && |patches| <= MAX_KEPT && AllCheckpointed(patches)
    requires StoreOK(hash, worlds[0].disk) && worlds[0] == Start(worlds[0].disk)
    requires DistinctIDs(worlds[|patches|].disk.store)
    ensures |patches| <= |worlds[|patches|].disk.store|
    ensures Undo(worlds[|patches|].disk, |patches|) == Restored(worlds[0].disk.files, true)
  {
    var n, w := |patches|, worlds[|patches|];
    StartOK(hash, worlds[0].disk);
    RunKeepsWorld(hash, worlds, patches, n);
    StartRemembered(hash, worlds, patches, n);
    if n > 0 {
      LastLeavesAll(hash, worlds, patches);
      UndoRestores(hash, w, n);
    }
  }

  lemma LastLeavesAll(hash: Bytes -> string, worlds: seq<World>, patches: seq<Patch>)
    requires Run(hash, worlds, patches) && WorldOK(hash, worlds[0]) && patches != [] && AllCheckpointed(patches)
    ensures NewestKept(worlds[|patches|].disk, |patches|)
  {
    var n, w := |patches|, worlds[|patches|];
    RunKeepsWorld(hash, worlds, patches, n - 1);
    var p := patches[n - 1];
    assert Step(hash, worlds[n - 1], w, p.ws, p.plan, p.id, p.landing);
    CommitKeepsStore(hash, worlds[n - 1].disk, p.ws, p.plan, p.id, w.disk, p.landing);
    KeptNewest(w.disk, w.disk.store, n);
  }
}
