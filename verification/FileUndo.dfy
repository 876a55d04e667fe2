/** Undoing file mutations: one restore, an undone restore, and a whole sequence unwound. */
module FileUndo {
  import opened Options
  import opened CodeUnits
  import opened FileStore

  ghost predicate Injective(h: Host) {
    forall a, b :: h.sha256(a) == h.sha256(b) ==> a == b
  }

  // ---------------------------------------------------------------------------
  // One restore
  // ---------------------------------------------------------------------------

  /** Restoring changes at most the target of the row, and only when the target holds exactly
      what the mutation left there; then the target holds what it held before the mutation. */
  lemma RestoreComparesFirst(h: Host, d: Disk, id: nat)
    requires Injective(h) && RowRefusal(h, d.backups, id).None?
    ensures var b, r := d.backups[id], Restore(h, d, id);
            && (forall q :: q != b.path ==> At(r.0.files, q) == At(d.files, q))
            && (r.0.files != d.files ==> Observe(h, At(d.files, b.path)) == b.post.value)
            && (r.1.Restored? <==>
                  Fits(At(d.files, b.path)) &&
                  (At(d.files, b.path) == Previous(b) || Observe(h, At(d.files, b.path)) == b.post.value))
            && (r.1.Restored? ==> At(r.0.files, b.path) == Previous(b))
            && (!r.1.Restored? ==> r.0 == d)
  {
  }

  /** A second restore from the same row finds it done. */
  lemma RestoreTwice(h: Host, d: Disk, id: nat)
    requires Injective(h) && Bounded(d.backups) && Restore(h, d, id).1.Restored?
    ensures var once := Restore(h, d, id).0;
            Restore(h, once, id) == (once, Restored(None, true))
  {
    var once := Restore(h, d, id).0;
    var b := d.backups[id];
    assert once.backups[id] == b.(restored := true);
    assert MarkRestored(once.backups, id) == once.backups;
  }

  /** The displaced backup undoes the restore. */
  lemma DisplacedUndoesRestore(h: Host, d: Disk, id: nat)
    requires Injective(h) && Bounded(d.backups)
    requires var r := Restore(h, d, id); r.1.Restored? && r.1.displaced.Some?
    ensures var r := Restore(h, d, id);
            var back := Restore(h, r.0, r.1.displaced.value);
            back.0.files == d.files && back.1.Restored? && !back.1.already
  {
    var b, r := d.backups[id], Restore(h, d, id);
    var k := r.1.displaced.value;
    var current := At(d.files, b.path);
    assert r.0.backups[k] == Row(h, b.path, current, b.previous);
    PutBack(d.files, b.path, Previous(b));
  }

  lemma PutBack(files: Files, path: Path, content: Option<Bytes>)
    ensures Put(Put(files, path, content), path, At(files, path)) == files
    ensures At(Put(files, path, content), path) == content
  {
  }

  // ---------------------------------------------------------------------------
  // Unwinding a sequence
  // ---------------------------------------------------------------------------

  /** Apply the operations in order, and collect the backup of each one that made one. */
  function ApplyAll(h: Host, d: Disk, ops: seq<Operation>): (Disk, seq<nat>)
    decreases |ops|
  {
    if |ops| == 0 then (d, [])
    else
      var first := Apply(h, d, ops[0]);
      var rest := ApplyAll(h, first.0, ops[1..]);
      (rest.0, (if first.1.Mutated? && first.1.backup.Some? then [first.1.backup.value] else []) + rest.1)
  }

  /** Restore from the rows, the last one first. The second part says that none was refused. */
  function UndoAll(h: Host, d: Disk, ids: seq<nat>): (Disk, bool) {
    if |ids| == 0 then (d, true)
    else
      var later := UndoAll(h, d, ids[1..]);
      var r := Restore(h, later.0, ids[0]);
      (r.0, later.1 && r.1.Restored?)
  }

  /** Rows are only added; a row keeps everything but its restored mark. */
  ghost predicate Grown(before: seq<Backup>, after: seq<Backup>) {
    && |before| <= |after|
    && forall k :: 0 <= k < |before| ==> after[k] == before[k].(restored := after[k].restored)
  }

  lemma RestoreGrows(h: Host, d: Disk, id: nat)
    ensures Grown(d.backups, Restore(h, d, id).0.backups)
  {
  }

  lemma {:induction false} ApplyAllGrows(h: Host, d: Disk, ops: seq<Operation>)
    ensures Grown(d.backups, ApplyAll(h, d, ops).0.backups)
    decreases |ops|
  {
    hide Refusal, NewContent;
    if |ops| > 0 {
      ApplyAllGrows(h, Apply(h, d, ops[0]).0, ops[1..]);
    }
  }

  lemma {:induction false} UndoAllGrows(h: Host, d: Disk, ids: seq<nat>)
    ensures Grown(d.backups, UndoAll(h, d, ids).0.backups)
  {
    hide Restore;
    if |ids| > 0 {
      UndoAllGrows(h, d, ids[1..]);
      RestoreGrows(h, UndoAll(h, d, ids[1..]).0, ids[0]);
    }
  }

  /** The row of a successful operation, with the files as the operation left them, restores the
      files as they were. */
  lemma RowUndoes(h: Host, d: Disk, op: Operation, later: Disk)
    requires Injective(h)
    requires Apply(h, d, op).1.Mutated? && Apply(h, d, op).1.backup.Some?
    requires later.files == Apply(h, d, op).0.files && Grown(Apply(h, d, op).0.backups, later.backups)
    ensures Restore(h, later, Apply(h, d, op).1.backup.value).0.files == d.files
    ensures Restore(h, later, Apply(h, d, op).1.backup.value).1.Restored?
  {
    hide Fits, Grown;
    var id, content := |d.backups|, NewContent(h, d.files, op);
    RowStays(Apply(h, d, op).0.backups, later.backups, id);
    PutBack(d.files, op.path, content);
    InsideWhenAccepted(h, d.files, op);
    BackIs(h, later, id, d.files, op.path, content);
  }

  lemma RowStays(before: seq<Backup>, after: seq<Backup>, id: nat)
    requires Grown(before, after) && id < |before|
    ensures id < |after| && after[id] == before[id].(restored := after[id].restored)
  {
  }

  lemma InsideWhenAccepted(h: Host, files: Files, op: Operation)
    requires Refusal(h, files, op).None?
    ensures h.inside(op.path)
  {
  }

  lemma BackIs(h: Host, d: Disk, id: nat, files: Files, path: Path, content: Option<Bytes>)
    requires Injective(h) && h.inside(path) && Fits(content)
    requires id < |d.backups| && d.files == Put(files, path, content)
    requires d.backups[id] ==
      Row(h, path, At(files, path), Some(Observe(h, content))).(restored := d.backups[id].restored)
    ensures Restore(h, d, id).0.files == files && Restore(h, d, id).1.Restored?
  {
    PutBack(files, path, content);
  }

  /** Whatever was created, written, modified and deleted, in any order and over any paths,
      restoring the returned backups in reverse order brings every file back. */
  lemma {:induction false} SequencesUnwind(h: Host, d: Disk, ops: seq<Operation>)
    requires Injective(h)
    ensures var r := ApplyAll(h, d, ops);
            var u := UndoAll(h, r.0, r.1);
            u.0.files == d.files && u.1
    decreases |ops|
  {
    hide Apply, Restore;
    if |ops| > 0 {
      var first := Apply(h, d, ops[0]);
      var rest := ApplyAll(h, first.0, ops[1..]);
      SequencesUnwind(h, first.0, ops[1..]);
      var r := ApplyAll(h, d, ops);
      if first.1.Mutated? && first.1.backup.Some? {
        assert r.1[1..] == rest.1;
        var later := UndoAll(h, rest.0, rest.1).0;
        ApplyAllGrows(h, first.0, ops[1..]);
        UndoAllGrows(h, rest.0, rest.1);
        GrownJoins(first.0.backups, rest.0.backups, later.backups);
        RowUndoes(h, d, ops[0], later);
      } else {
        assert r.1 == rest.1;
        NoRowNoChange(h, d, ops[0]);
      }
    }
  }

  lemma GrownJoins(a: seq<Backup>, b: seq<Backup>, c: seq<Backup>)
    requires Grown(a, b) && Grown(b, c)
    ensures Grown(a, c)
  {
  }

  lemma NoRowNoChange(h: Host, d: Disk, op: Operation)
    requires !(Apply(h, d, op).1.Mutated? && Apply(h, d, op).1.backup.Some?)
    ensures Apply(h, d, op).0 == d
  {
  }
}
