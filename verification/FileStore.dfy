/** File mutations with a backup row each, and compare-and-restore over those rows. */
module FileStore {
  import opened Options
  import opened CodeUnits
  import opened TextReplace

  newtype Byte = x: int | 0 <= x < 256

  type Bytes = seq<Byte>

  type Path = Text

  type Files = map<Path, Bytes>

  const MAX_FILE_BYTES := 1024 * 1024

  /** What the service takes from its host: the digest, UTF-8, and which canonical paths are
      inside the active workspace and not sensitive. */
  datatype Host = Host(sha256: Bytes -> Text, encode: Text -> Bytes, decode: Bytes -> Text, inside: Path -> bool)

  /** A target as a revision sees it. */
  datatype Observation = Missing | Present(revision: Text)

  /** A backup row. `previous` and `post` are `None` when the row does not state them, or does
      not state them well. */
  datatype Backup = Backup(
    path: Path, canonical: bool, content: Bytes, previous: Option<Observation>, contentHash: Option<Text>,
    post: Option<Observation>, legacy: bool, restored: bool)

  datatype Failure =
    | AccessDenied | ContentTooLarge | FileTooLarge | AlreadyExists | MissingFile | StaleWrite
    | EmptySearch | TextNotFound
    | BackupNotFound | PreviousStateUnclassified | PostconditionUnknown | BackupIntegrity
    | RevisionConflict | VerificationFailed

  datatype Outcome =
    | Failed(why: Failure)
    | Mutated(backup: Option<nat>)
    | Restored(displaced: Option<nat>, already: bool)

  datatype Disk = Disk(files: Files, backups: seq<Backup>)

  // ---------------------------------------------------------------------------
  // Reference: a file map and a row per change
  // ---------------------------------------------------------------------------

  datatype Operation =
    | CreateFile(path: Path, content: Text)
    | WriteFile(path: Path, content: Text, ifMatch: Option<Text>)
    | ModifyFile(path: Path, search: Text, replacement: Text, ifMatch: Option<Text>)
    | DeleteFile(path: Path)

  function At(files: Files, path: Path): Option<Bytes> {
    if path in files then Some(files[path]) else None
  }

  /** The file map with one target changed. */
  function Put(files: Files, path: Path, content: Option<Bytes>): Files {
    match content
    case Some(bytes) => files[path := bytes]
    case None => files - {path}
  }

  function Observe(h: Host, content: Option<Bytes>): Observation {
    match content
    case Some(bytes) => Present(h.sha256(bytes))
    case None => Missing
  }

  predicate Fits(content: Option<Bytes>) {
    content.Some? ==> |content.value| <= MAX_FILE_BYTES
  }

  /** The optimistic precondition: it is checked against the text of the file. */
  predicate Fresh(h: Host, content: Option<Bytes>, ifMatch: Option<Text>) {
    ifMatch.None? || (content.Some? && h.sha256(h.encode(h.decode(content.value))) == ifMatch.value)
  }

  function Refusal(h: Host, files: Files, op: Operation): Option<Failure> {
    var current := At(files, op.path);
    match op
    case CreateFile(path, content) =>
      if |h.encode(content)| > MAX_FILE_BYTES then Some(ContentTooLarge)
      else if !h.inside(path) then Some(AccessDenied)
      else if current.Some? then Some(AlreadyExists)
      else None
    case WriteFile(path, content, ifMatch) =>
      if |h.encode(content)| > MAX_FILE_BYTES then Some(ContentTooLarge)
      else if !h.inside(path) then Some(AccessDenied)
      else if !Fresh(h, current, ifMatch) then Some(StaleWrite)
      else if !Fits(current) then Some(FileTooLarge)
      else None
    case ModifyFile(path, search, replacement, ifMatch) =>
      if |search| == 0 then Some(EmptySearch)
      else if |h.encode(search)| > MAX_FILE_BYTES || |h.encode(replacement)| > MAX_FILE_BYTES then Some(ContentTooLarge)
      else if !h.inside(path) then Some(AccessDenied)
      else if current.None? then Some(MissingFile)
      else if !Fits(current) then Some(FileTooLarge)
      else if !Fresh(h, current, ifMatch) then Some(StaleWrite)
      else if Occurrences(h.decode(current.value), search) == 0 then Some(TextNotFound)
      else if |h.encode(Replace(h.decode(current.value), search, replacement))| > MAX_FILE_BYTES then
        Some(ContentTooLarge)
      else None
    case DeleteFile(path) =>
      if !h.inside(path) then Some(AccessDenied)
      else if !Fits(current) then Some(FileTooLarge)
      else None
  }

  /** What an accepted operation leaves at its target. */
  function NewContent(h: Host, files: Files, op: Operation): (r: Option<Bytes>)
    requires Refusal(h, files, op).None?
    ensures Fits(r)
  {
    match op
    case CreateFile(_, content) => Some(h.encode(content))
    case WriteFile(_, content, _) => Some(h.encode(content))
    case ModifyFile(path, search, replacement, _) => Some(h.encode(Replace(h.decode(files[path]), search, replacement)))
    case DeleteFile(_) => None
  }

  /** The row of a change: enough to undo it, and to know that nothing else happened since. */
  function Row(h: Host, path: Path, before: Option<Bytes>, post: Option<Observation>): Backup {
    Backup(path, true, if before.Some? then before.value else [], Some(Observe(h, before)),
           if before.Some? then Some(h.sha256(before.value)) else None, post, false, false)
  }

  function Apply(h: Host, d: Disk, op: Operation): (Disk, Outcome) {
    var refusal := Refusal(h, d.files, op);
    if refusal.Some? then (d, Failed(refusal.value))
    else if op.DeleteFile? && op.path !in d.files then (d, Mutated(None))
    else
      var content := NewContent(h, d.files, op);
      (Disk(Put(d.files, op.path, content),
            d.backups + [Row(h, op.path, At(d.files, op.path), Some(Observe(h, content)))]),
       Mutated(Some(|d.backups|)))
  }

  /** Why a row cannot be restored from, whatever the target holds. */
  function RowRefusal(h: Host, backups: seq<Backup>, id: nat): Option<Failure> {
    if id >= |backups| then Some(BackupNotFound)
    else
      var b := backups[id];
      if !b.canonical || !h.inside(b.path) then Some(AccessDenied)
      else if b.previous.None? then Some(PreviousStateUnclassified)
      else if b.legacy || b.post.None? then Some(PostconditionUnknown)
      else if b.previous.value.Present? &&
              (h.sha256(b.content) != b.previous.value.revision || b.contentHash != Some(b.previous.value.revision))
      then Some(BackupIntegrity)
      else None
  }

  /** The bytes a row puts back. */
  function Previous(b: Backup): Option<Bytes>
    requires b.previous.Some?
  {
    if b.previous.value.Missing? then None else Some(b.content)
  }

  function MarkRestored(backups: seq<Backup>, id: nat): seq<Backup>
    requires id < |backups|
  {
    backups[id := backups[id].(restored := true)]
  }

  /** Compare and restore. */
  function Restore(h: Host, d: Disk, id: nat): (Disk, Outcome) {
    var refusal := RowRefusal(h, d.backups, id);
    if refusal.Some? then (d, Failed(refusal.value))
    else
      var b := d.backups[id];
      var current := At(d.files, b.path);
      if !Fits(current) then (d, Failed(FileTooLarge))
      else if Observe(h, current) == b.previous.value then
        (d.(backups := MarkRestored(d.backups, id)), Restored(None, true))
      else if Observe(h, current) != b.post.value then (d, Failed(RevisionConflict))
      else
        var displaced := if current.Some? then [Row(h, b.path, current, b.previous)] else [];
        (Disk(Put(d.files, b.path, Previous(b)), MarkRestored(d.backups + displaced, id)),
         Restored(if current.Some? then Some(|d.backups|) else None, false))
  }

  // ---------------------------------------------------------------------------
  // The service
  // ---------------------------------------------------------------------------

  /** Every backed-up content was read under the size limit. */
  ghost predicate Bounded(backups: seq<Backup>) {
    forall k :: 0 <= k < |backups| ==> |backups[k].content| <= MAX_FILE_BYTES
  }

  class FileSystem {
    const host: Host
    var files: Files
    var backups: seq<Backup>

    ghost predicate Valid()
      reads this
    {
      Bounded(backups)
    }

    function State(): Disk
      reads this
    {
      Disk(files, backups)
    }

    constructor (host: Host, files: Files)
      ensures Valid() && this.host == host && State() == Disk(files, [])
    {
      this.host, this.files, this.backups := host, files, [];
    }

    /** backupFile: read the target under the size limit and keep its bytes. */
    method BackupFile(path: Path) returns (id: Option<nat>)
      requires Valid() && path in files
      modifies `backups
      ensures Valid()
      ensures id.Some? <==> Fits(Some(files[path]))
      ensures id.Some? ==> id.value == |old(backups)| &&
                           backups == old(backups) + [Row(host, path, Some(files[path]), None)]
      ensures id.None? ==> backups == old(backups)
    {
      if |files[path]| > MAX_FILE_BYTES {
        return None;
      }
      id := Some(|backups|);
      var revision := host.sha256(files[path]);
      backups := backups + [Backup(path, true, files[path], Some(Present(revision)), Some(revision),
                                    None, false, false)];
    }

    method SaveAbsentSnapshot(path: Path) returns (id: nat)
      requires Valid()
      modifies `backups
      ensures Valid()
      ensures id == |old(backups)| && backups == old(backups) + [Row(host, path, None, None)]
    {
      id := |backups|;
      backups := backups + [Backup(path, true, [], Some(Missing), None, None, false, false)];
    }

    /** recordFileBackupPostcondition: written only once. */
    method RecordPostcondition(id: nat, post: Observation)
      requires Valid() && id < |backups| && backups[id].post.None? && !backups[id].legacy
      modifies `backups
      ensures Valid() && backups == old(backups)[id := old(backups)[id].(post := Some(post))]
    {
      backups := backups[id := backups[id].(post := Some(post))];
    }

    method Create(path: Path, content: Text) returns (outcome: Outcome)
      requires Valid()
      modifies this
      ensures Valid() && (State(), outcome) == Apply(host, old(State()), CreateFile(path, content))
    {
      var bytes := host.encode(content);
      if |bytes| > MAX_FILE_BYTES {
        return Failed(ContentTooLarge);
      }
      if !host.inside(path) {
        return Failed(AccessDenied);
      }
      if path in files {
        return Failed(AlreadyExists);
      }
      var id := SaveAbsentSnapshot(path);
      files := files[path := bytes];
      RecordPostcondition(id, Present(host.sha256(bytes)));
      assert backups == old(backups) + [Row(host, path, At(old(files), path), Some(Observe(host, Some(bytes))))];
      outcome := Mutated(Some(id));
    }

    method Write(path: Path, content: Text, ifMatch: Option<Text>) returns (outcome: Outcome)
      requires Valid()
      modifies this
      ensures Valid() && (State(), outcome) == Apply(host, old(State()), WriteFile(path, content, ifMatch))
    {
      var bytes := host.encode(content);
      if |bytes| > MAX_FILE_BYTES {
        return Failed(ContentTooLarge);
      }
      if !host.inside(path) {
        return Failed(AccessDenied);
      }
      if ifMatch.Some? {
        if path !in files || host.sha256(host.encode(host.decode(files[path]))) != ifMatch.value {
          return Failed(StaleWrite);
        }
      }
      var id;
      if path in files {
        var kept := BackupFile(path);
        if kept.None? {
          return Failed(FileTooLarge);
        }
        id := kept.value;
      } else {
        id := SaveAbsentSnapshot(path);
      }
      files := files[path := bytes];
      RecordPostcondition(id, Present(host.sha256(bytes)));
      assert backups == old(backups) + [Row(host, path, At(old(files), path), Some(Observe(host, Some(bytes))))];
      outcome := Mutated(Some(id));
    }

    method Modify(path: Path, search: Text, replacement: Text, ifMatch: Option<Text>) returns (outcome: Outcome)
      requires Valid()
      modifies this
      ensures Valid()
      ensures (State(), outcome) == Apply(host, old(State()), ModifyFile(path, search, replacement, ifMatch))
    {
      if |search| == 0 {
        return Failed(EmptySearch);
      }
      if |host.encode(search)| > MAX_FILE_BYTES || |host.encode(replacement)| > MAX_FILE_BYTES {
        return Failed(ContentTooLarge);
      }
      if !host.inside(path) {
        return Failed(AccessDenied);
      }
      if path !in files {
        return Failed(MissingFile);
      }
      if |files[path]| > MAX_FILE_BYTES {
        return Failed(FileTooLarge);
      }
      var content := host.decode(files[path]);
      if ifMatch.Some? && host.sha256(host.encode(content)) != ifMatch.value {
        return Failed(StaleWrite);
      }
      var occurrences := |Split(content, search)| - 1;
      if occurrences == 0 {
        return Failed(TextNotFound);
      }
      var updated := host.encode(Join(Split(content, search), replacement));
      if |updated| > MAX_FILE_BYTES {
        return Failed(ContentTooLarge);
      }
      var id := BackupFile(path);
      files := files[path := updated];
      RecordPostcondition(id.value, Present(host.sha256(updated)));
      assert backups == old(backups) + [Row(host, path, At(old(files), path), Some(Observe(host, Some(updated))))];
      outcome := Mutated(id);
    }

    method Delete(path: Path) returns (outcome: Outcome)
      requires Valid()
      modifies this
      ensures Valid() && (State(), outcome) == Apply(host, old(State()), DeleteFile(path))
    {
      if !host.inside(path) {
        return Failed(AccessDenied);
      }
      if path !in files {
        return Mutated(None);
      }
      var id := BackupFile(path);
      if id.None? {
        return Failed(FileTooLarge);
      }
      files := files - {path};
      RecordPostcondition(id.value, Missing);
      assert backups == old(backups) + [Row(host, path, At(old(files), path), Some(Missing))];
      outcome := Mutated(id);
    }

    /** currentState; `None` when the target is too large to read. */
    method CurrentState(path: Path) returns (state: Option<Observation>)
      ensures state == if Fits(At(files, path)) then Some(Observe(host, At(files, path))) else None
    {
      if path !in files {
        return Some(Missing);
      }
      if |files[path]| > MAX_FILE_BYTES {
        return None;
      }
      state := Some(Present(host.sha256(files[path])));
    }

    /** What a row must state before anything is compared. */
    method CheckRow(id: nat) returns (refusal: Option<Failure>)
      ensures refusal == RowRefusal(host, backups, id)
    {
      if id >= |backups| {
        return Some(BackupNotFound);
      }
      var b := backups[id];
      if !b.canonical || !host.inside(b.path) {
        return Some(AccessDenied);
      }
      if b.previous.None? {
        return Some(PreviousStateUnclassified);
      }
      if b.legacy || b.post.None? {
        return Some(PostconditionUnknown);
      }
      if b.previous.value.Present? {
        var revision := b.previous.value.revision;
        if host.sha256(b.content) != revision || b.contentHash != Some(revision) {
          return Some(BackupIntegrity);
        }
      }
      refusal := None;
    }

    /** restoreWorkspaceFile. `meanwhile` is what another writer does while the displaced bytes
        are being backed up: whatever it leaves at the target, other than the recorded state, is
        not overwritten. */
    method RestoreFile(id: nat, meanwhile: Files -> Files) returns (outcome: Outcome)
      requires Valid()
      modifies this
      ensures Valid()
      ensures outcome.Failed? ==> files == old(files) || files == meanwhile(old(files))
      ensures outcome.Restored? ==> RowRefusal(host, old(backups), id).None?
      ensures outcome.Restored? ==>
        var b := old(backups)[id];
        if outcome.already then files == old(files)
        else Swapped(host, meanwhile(old(files)), files, b)
      ensures outcome != Failed(VerificationFailed)
      ensures meanwhile(old(files)) == old(files) ==> (State(), outcome) == Restore(host, old(State()), id)
    {
      var refusal := CheckRow(id);
      if refusal.Some? {
        return Failed(refusal.value);
      }
      var b := backups[id];
      var observed := CurrentState(b.path);
      if observed.None? {
        return Failed(FileTooLarge);
      }
      if observed == b.previous {
        backups := backups[id := b.(restored := true)];
        return Restored(None, true);
      }
      if observed != b.post {
        return Failed(RevisionConflict);
      }
      outcome := SwapBack(id, meanwhile);
    }

    /** The target matches the recorded state: keep what it holds, look again, put the previous
        bytes back, and look once more. */
    method SwapBack(id: nat, meanwhile: Files -> Files) returns (outcome: Outcome)
      requires Valid() && RowRefusal(host, backups, id).None? && Fits(At(files, backups[id].path))
      requires Observe(host, At(files, backups[id].path)) == backups[id].post.value
      requires Observe(host, At(files, backups[id].path)) != backups[id].previous.value
      modifies this
      ensures Valid()
      ensures outcome.Failed? ==> files == meanwhile(old(files))
      ensures !outcome.Mutated?
      ensures outcome.Restored? ==>
        !outcome.already && Swapped(host, meanwhile(old(files)), files, old(backups)[id])
      ensures outcome != Failed(VerificationFailed)
      ensures meanwhile(old(files)) == old(files) ==> (State(), outcome) == Restore(host, old(State()), id)
    {
      var b := backups[id];
      var displaced := None;
      if b.path in files {
        displaced := BackupFile(b.path);
      }
      files := meanwhile(files);
      var again := CurrentState(b.path);
      if again.None? {
        return Failed(FileTooLarge);
      }
      if again != b.post {
        return Failed(RevisionConflict);
      }
      if b.previous.value.Missing? {
        files := files - {b.path};
      } else {
        files := files[b.path := b.content];
      }
      var result := CurrentState(b.path);
      if result != b.previous {
        return Failed(VerificationFailed);
      }
      if displaced.Some? {
        RecordPostcondition(displaced.value, b.previous.value);
        assert backups == old(backups) + [Row(host, b.path, At(old(files), b.path), b.previous)];
      } else {
        assert backups == old(backups) + [];
      }
      backups := backups[id := backups[id].(restored := true)];
      outcome := Restored(displaced, false);
    }
  }

  /** The recorded state was at the target, and the previous one is there now; nothing else
      changed. */
  ghost predicate Swapped(h: Host, before: Files, after: Files, b: Backup)
    requires b.previous.Some? && b.post.Some?
  {
    Observe(h, At(before, b.path)) == b.post.value && after == Put(before, b.path, Previous(b))
  }
}
