/** The transfer half of the backup protocol: dt_image_search/mobile/mobile_transfer_service.py.
    The library directory is a map from full path to content. The digest is any function of the content. */
module TransferService {
  import opened Options
  import opened Octets
  import opened BackupStateMachine
  import opened CollisionNames
  import opened PairingStore

  type Files = map<string, Bytes>
  type Digest = Bytes -> string

  /** Where the operating system lets an upload down. `DiskFull(room)` fails the write that would exceed
      the room left; `CopyFails(partial)` is a cross-device move that stops half-way; `UtimeFails` strikes
      after the file is in place. */
  datatype Fault = NoFault | DirectoryFails | DiskFull(room: nat) | RenameFails | CopyFails(partial: Bytes) | UtimeFails

  /** An upload arrives as a stream, or as a file staged by the transport with the digest it computed. */
  datatype Body = NoBody | Stream(data: Bytes) | Staged(file: Option<Bytes>, provided: string)

  datatype Signature = Signature(sha1: string, size: int, createdAt: string)

  datatype Upload = Upload(sid: SessionId, device: DeviceId, asset: string, version: Option<string>,
                           sha1: Option<string>, size: Option<int>, createdAt: Option<string>,
                           month: string, filename: string, body: Body, contentLength: int,
                           proofOk: bool, fault: Fault)

  datatype StoredAsset = StoredAsset(path: string, sha1: string, size: int)
  datatype StoreResult = StoreResult(files: Files, stored: Option<StoredAsset>)

  datatype Reply = Rejected(code: int) | Accepted200 | Skipped | StoredAt(path: string) | StorageFailed
  datatype Effect = Effect(tables: Tables, files: Files, reply: Reply)

  // ----- placing a file -----

  function TargetPath(files: Files, folderPath: string, u: Upload): string {
    ConflictSafePath(files.Keys, folderPath + "/" + u.month, u.filename)
  }

  /** `relative_to(root)`: what follows the folder path and its slash. */
  function Relative(folderPath: string, path: string): string {
    if |folderPath| < |path| then path[|folderPath| + 1..] else ""
  }

  function StagedDigest(u: Upload, digest: Digest): string
    requires u.body.Staged? && u.body.file.Some?
  {
    if u.body.provided == "" then digest(u.body.file.value) else u.body.provided
  }

  /** Whether an `OSError` is raised before anything appears under the final path. */
  function FailsBeforePlacing(u: Upload, digest: Digest): bool {
    || u.fault.DirectoryFails?
    || u.fault.RenameFails?
    || match u.body
       case NoBody => true
       case Stream(data) => |data| < u.contentLength || (u.fault.DiskFull? && u.fault.room < u.contentLength)
       case Staged(file, _) =>
         || file.None?
         || |file.value| != u.contentLength
         || (u.sha1.Some? && StagedDigest(u, digest) != u.sha1.value)
  }

  /** The content that ends up under the final path. */
  function PlacedContent(u: Upload): Bytes
    requires u.body.Staged? ==> u.body.file.Some?
    requires u.body.Stream? ==> 0 <= u.contentLength <= |u.body.data|
  {
    match u.body
    case NoBody => []
    case Stream(data) => data[..u.contentLength]
    case Staged(file, _) => if u.fault.CopyFails? then u.fault.partial else file.value
  }

  function RecordedDigest(u: Upload, digest: Digest): string
    requires u.body.Staged? ==> u.body.file.Some?
    requires u.body.Stream? ==> 0 <= u.contentLength <= |u.body.data|
  {
    if u.body.Staged? then StagedDigest(u, digest) else digest(PlacedContent(u))
  }

  /** `_write_asset_to_folder` and `_move_staged_asset_to_folder`. */
  function Placed(files: Files, folderPath: string, u: Upload, digest: Digest): StoreResult
    requires 0 <= u.contentLength
  {
    if FailsBeforePlacing(u, digest) then StoreResult(files, None)
    else
      var path := TargetPath(files, folderPath, u);
      var files' := files[path := PlacedContent(u)];
      if u.fault.UtimeFails? || (u.body.Staged? && u.fault.CopyFails?) then StoreResult(files', None)
      else StoreResult(files', Some(StoredAsset(Relative(folderPath, path), RecordedDigest(u, digest), u.contentLength)))
  }

  // ----- what is already there -----

  function HasSignature(row: Asset, sig: Signature): bool {
    row.sha1 == Some(sig.sha1) && row.size == Some(sig.size) && row.createdAt == Some(sig.createdAt)
  }

  ghost predicate RecordFileExists(t: Tables, files: Files, key: AssetKey) {
    key in t.assets &&
    exists f :: f in t.bindings && f in t.folders && t.bindings[f].device == key.device &&
                t.folders[f] + "/" + t.assets[key].path in files
  }

  ghost predicate HitBy(t: Tables, files: Files, device: DeviceId, sig: Signature, key: AssetKey) {
    key in t.assets && key.device == device && HasSignature(t.assets[key], sig) && RecordFileExists(t, files, key)
  }

  /** Some record of the device carries the signature and its file is there. */
  ghost predicate SignatureHit(t: Tables, files: Files, device: DeviceId, sig: Signature) {
    exists key :: HitBy(t, files, device, sig, key)
  }

  function SignatureOf(u: Upload): Option<Signature> {
    if u.sha1.Some? && u.size.Some? && u.createdAt.Some?
    then Some(Signature(u.sha1.value, u.size.value, u.createdAt.value)) else None
  }

  function CurrentVersionStored(t: Tables, files: Files, folderPath: string, u: Upload): bool {
    var key := AssetKey(u.device, u.asset);
    key in t.assets && t.assets[key].version == u.version && folderPath + "/" + t.assets[key].path in files
  }

  /** The two reasons to skip an upload. */
  ghost predicate AlreadyStored(t: Tables, files: Files, folderPath: string, u: Upload) {
    || (SignatureOf(u).Some? && SignatureHit(t, files, u.device, SignatureOf(u).value))
    || CurrentVersionStored(t, files, folderPath, u)
  }

  function RecordOf(u: Upload, s: StoredAsset): Asset {
    Asset(u.version, Some(s.sha1), Some(s.size), u.createdAt, s.path)
  }

  // ----- the handlers -----

  function Admitted(t: Tables, sid: SessionId, device: DeviceId, proofOk: bool): bool {
    Context(t, sid, device).Some? && Context(t, sid, device).value.status == Transferring && proofOk
  }

  /** The stored string after an event, as every handler computes it. */
  function NextFolderState(stored: Option<string>, event: BackupEvent): string
    requires IsTransferEvent(event)
  {
    ResolverIgnoresStoredString(stored, stored, event);
    FolderTransferState(ResolveNext(stored, event, CallerFallback(event)).value)
  }

  function MarkedFailed(t: Tables, sid: SessionId, device: DeviceId): Tables
    requires Context(t, sid, device).Some?
  {
    WithTransferState(t, sid, device, Failed,
                      NextFolderState(Context(t, sid, device).value.folderState, TransferFailedEvent), None, None, None)
  }

  function StartEffect(t: Tables, sid: SessionId, device: DeviceId, total: int, proofOk: bool): (Tables, Reply) {
    match Context(t, sid, device)
    case None => (t, Rejected(403))
    case Some(c) =>
      if c.status !in {Paired, Transferring} || !proofOk then (t, Rejected(403))
      else (WithTransferState(t, sid, device, Transferring, NextFolderState(c.folderState, TransferStartedEvent),
                              Some(total), Some(0), Some(0)), Accepted200)
  }

  function CompletionStatus(failed: int, stoppedByUser: bool): SessionStatus {
    if stoppedByUser then StoppedByMobile else if failed == 0 then Completed else Failed
  }

  function CompletionEvent(failed: int, stoppedByUser: bool): BackupEvent {
    if stoppedByUser then TransferStoppedEvent else if failed == 0 then TransferCompletedEvent else TransferFailedEvent
  }

  function CompleteEffect(t: Tables, sid: SessionId, device: DeviceId, transferred: int, failed: int,
                          stoppedByUser: bool, proofOk: bool): (Tables, Reply)
  {
    if !Admitted(t, sid, device, proofOk) then (t, Rejected(403))
    else
      var state := NextFolderState(Context(t, sid, device).value.folderState, CompletionEvent(failed, stoppedByUser));
      (WithTransferState(t, sid, device, CompletionStatus(failed, stoppedByUser), state,
                         None, Some(transferred), Some(failed)), Accepted200)
  }

  /** `handle_asset_upload_stream_error` on a full disk. */
  function StreamErrorEffect(t: Tables, sid: SessionId, device: DeviceId, proofOk: bool): Tables {
    if Admitted(t, sid, device, proofOk) then MarkedFailed(t, sid, device) else t
  }

  /** `_stop_active_backup_session` of the folder controller: it does not look at the session's status. */
  function StopEffect(t: Tables, sid: SessionId, device: DeviceId): Tables {
    match Context(t, sid, device)
    case None => t
    case Some(c) => WithTransferState(t, sid, device, StoppedByMobile, NextFolderState(c.folderState, TransferStoppedEvent),
                                      None, None, None)
  }

  ghost function UploadEffect(t: Tables, files: Files, u: Upload, digest: Digest): Effect {
    if u.body.NoBody? || u.contentLength < 0 || (u.size.Some? && u.size.value != u.contentLength)
    then Effect(t, files, Rejected(400))
    else if !Admitted(t, u.sid, u.device, u.proofOk) then Effect(t, files, Rejected(403))
    else
      var folderPath := Context(t, u.sid, u.device).value.folderPath;
      if AlreadyStored(t, files, folderPath, u)
      then Effect(WithOneMoreTransferred(t, u.sid, u.device), files, Skipped)
      else
        StorageEffect(t, files, folderPath, u, digest)
  }

  /** The second half of an upload: place the file, then record it and count it, or mark the transfer failed. */
  function StorageEffect(t: Tables, files: Files, folderPath: string, u: Upload, digest: Digest): Effect
    requires Context(t, u.sid, u.device).Some? && 0 <= u.contentLength
  {
    var r := Placed(files, folderPath, u, digest);
    match r.stored
    case None => Effect(MarkedFailed(t, u.sid, u.device), r.files, StorageFailed)
    case Some(s) =>
      Effect(WithOneMoreTransferred(WithAsset(t, AssetKey(u.device, u.asset), RecordOf(u, s)), u.sid, u.device),
             r.files, StoredAt(s.path))
  }

  // ----- the imperative service -----

  class Disk {
    var files: Files

    constructor (files: Files)
      ensures this.files == files
    {
      this.files := files;
    }
  }

  /** A request body that hands out its bytes in pieces of its own choosing. */
  class BodyStream {
    var rest: Bytes

    constructor (data: Bytes)
      ensures rest == data
    {
      rest := data;
    }

    method Read(limit: nat) returns (chunk: Bytes)
      modifies this
      ensures old(rest) == chunk + rest && |chunk| <= limit
      ensures 0 < limit && old(rest) != [] ==> chunk != []
    {
      if limit == 0 || rest == [] {
        return [];
      }
      var n: nat :| 1 <= n <= limit && n <= |rest|;
      chunk, rest := rest[..n], rest[n..];
    }
  }

  const CHUNK_SIZE := 100 * 1024 * 1024

  /** The hidden name next to the final one under which a stream is collected. */
  function TempPath(directory: string, finalPath: string, uuid: string): string
    requires |directory| < |finalPath|
  {
    directory + "/." + finalPath[|directory| + 1..] + TempEnding(uuid)
  }

  function TempEnding(uuid: string): string {
    "." + uuid + ".part"
  }

  predicate EndsWith(s: string, ending: string) {
    |ending| <= |s| && s[|s| - |ending|..] == ending
  }

  /** What a random UUID is relied on for: no file in the library ends with it yet. */
  ghost predicate FreshUuid(files: Files, uuid: string) {
    forall p :: p in files ==> !EndsWith(p, TempEnding(uuid))
  }

  lemma TempPathIsNew(files: Files, directory: string, finalPath: string, uuid: string)
    requires |directory| < |finalPath| && FreshUuid(files, uuid)
    ensures TempPath(directory, finalPath, uuid) !in files
  {
    var path := TempPath(directory, finalPath, uuid);
    assert path[|path| - |TempEnding(uuid)|..] == TempEnding(uuid);
  }

  class MobileTransferService {
    const db: Database
    const disk: Disk
    const digest: Digest

    constructor (db: Database, disk: Disk, digest: Digest)
      ensures this.db == db && this.disk == disk && this.digest == digest
    {
      this.db, this.disk, this.digest := db, disk, digest;
    }

    /** Collects a stream chunk by chunk in a temporary file. However the stream splits its bytes, this
        succeeds exactly when enough of them arrive and fit, and leaves nothing behind otherwise. */
    method CollectBody(tempPath: string, u: Upload, body: BodyStream) returns (ok: bool)
      requires tempPath !in disk.files && 0 <= u.contentLength
      modifies disk, body
      ensures ok <==> u.contentLength <= |old(body.rest)| && !(u.fault.DiskFull? && u.fault.room < u.contentLength)
      ensures disk.files == if ok then old(disk.files)[tempPath := old(body.rest)[..u.contentLength]] else old(disk.files)
    {
      ghost var before, data := disk.files, body.rest;
      disk.files := disk.files[tempPath := []];
      var remaining := u.contentLength;
      while remaining > 0
        invariant 0 <= remaining <= u.contentLength
        invariant tempPath in disk.files && disk.files == before[tempPath := disk.files[tempPath]]
        invariant disk.files[tempPath] + body.rest == data
        invariant |disk.files[tempPath]| == u.contentLength - remaining
        invariant u.fault.DiskFull? ==> u.contentLength - remaining <= u.fault.room
      {
        var chunk := body.Read(if CHUNK_SIZE < remaining then CHUNK_SIZE else remaining);
        if chunk == [] || (u.fault.DiskFull? && u.contentLength - remaining + |chunk| > u.fault.room) {
          disk.files := disk.files - {tempPath};
          return false;
        }
        disk.files := disk.files[tempPath := disk.files[tempPath] + chunk];
        remaining := remaining - |chunk|;
      }
      assert disk.files[tempPath] == data[..u.contentLength];
      ok := true;
    }

    /** The chunked copy into a temporary file, which is then renamed into place. Whatever happens,
        the temporary file is gone afterwards. */
    method WriteAssetToFolder(folderPath: string, u: Upload, uuid: string, body: BodyStream)
      returns (stored: Option<StoredAsset>)
      requires u.body == Stream(body.rest) && 0 <= u.contentLength
      requires FreshUuid(disk.files, uuid)
      modifies disk, body
      ensures disk.files == Placed(old(disk.files), folderPath, u, digest).files
      ensures stored == Placed(old(disk.files), folderPath, u, digest).stored
    {
      ghost var before := disk.files;
      if u.fault.DirectoryFails? {
        return None;
      }
      var directory := folderPath + "/" + u.month;
      var finalPath := ResolveConflictSafePath(disk.files.Keys, directory, u.filename);
      ConflictSafePathIsFree(disk.files.Keys, directory, u.filename);
      var tempPath := TempPath(directory, finalPath, uuid);
      TempPathIsNew(before, directory, finalPath, uuid);
      var collected := CollectBody(tempPath, u, body);
      if !collected {
        return None;
      }
      var written := disk.files[tempPath];
      disk.files := disk.files - {tempPath};
      assert disk.files == before;
      if u.fault.RenameFails? {
        return None;
      }
      disk.files := disk.files[finalPath := written];
      if u.fault.UtimeFails? {
        return None;
      }
      stored := Some(StoredAsset(Relative(folderPath, finalPath), digest(written), |written|));
    }

    method MoveStagedAssetToFolder(folderPath: string, u: Upload) returns (stored: Option<StoredAsset>)
      requires u.body.Staged? && 0 <= u.contentLength
      modifies disk
      ensures disk.files == Placed(old(disk.files), folderPath, u, digest).files
      ensures stored == Placed(old(disk.files), folderPath, u, digest).stored
    {
      if u.fault.DirectoryFails? {
        return None;
      }
      var finalPath := ResolveConflictSafePath(disk.files.Keys, folderPath + "/" + u.month, u.filename);
      if u.body.file.None? || |u.body.file.value| != u.contentLength {
        return None;
      }
      var content := u.body.file.value;
      var sha1 := u.body.provided;
      if sha1 == "" {
        sha1 := digest(content);
      }
      if (u.sha1.Some? && sha1 != u.sha1.value) || u.fault.RenameFails? {
        return None;
      }
      if u.fault.CopyFails? {
        disk.files := disk.files[finalPath := u.fault.partial];
        return None;
      }
      disk.files := disk.files[finalPath := content];
      if u.fault.UtimeFails? {
        return None;
      }
      stored := Some(StoredAsset(Relative(folderPath, finalPath), sha1, |content|));
    }

    /** `get_mobile_asset_records_by_signatures`: one query for all signatures, rows in any order, first
        row with an existing file wins. */
    method GetAssetRecordsBySignatures(device: DeviceId, keys: seq<Signature>) returns (matches: map<Signature, AssetKey>)
      ensures forall sig :: sig in matches <==> sig in keys && SignatureHit(db.T(), disk.files, device, sig)
      ensures forall sig :: sig in matches ==> HitBy(db.T(), disk.files, device, sig, matches[sig])
    {
      matches := map[];
      var rows := set k | k in db.assets && k.device == device && db.assets[k].sha1.Some?
                          && db.assets[k].size.Some? && db.assets[k].createdAt.Some?;
      ghost var t, files := db.T(), disk.files;
      while rows != {}
        invariant forall k :: k in rows ==> k in t.assets && t.assets[k].sha1.Some?
                                            && t.assets[k].size.Some? && t.assets[k].createdAt.Some?
        invariant forall sig :: sig in matches ==> sig in keys && HitBy(t, files, device, sig, matches[sig])
        invariant forall sig, k :: sig in keys && HitBy(t, files, device, sig, k) ==> k in rows || sig in matches
        decreases |rows|
      {
        var k :| k in rows;
        var row := db.assets[k];
        var sig := Signature(row.sha1.value, row.size.value, row.createdAt.value);
        var joined := exists f :: f in db.bindings && f in db.folders && db.bindings[f].device == k.device &&
                                  db.folders[f] + "/" + row.path in disk.files;
        assert joined <==> RecordFileExists(t, files, k);
        if sig in keys && k.device == device && joined && sig !in matches {
          matches := matches[sig := k];
        }
        forall other | HasSignature(row, other)
          ensures other == sig
        {
        }
        rows := rows - {k};
      }
    }

    /** The batch existence check: the candidates reported are exactly those whose signature is hit, in
        the order asked. */
    method HandleAssetExistence(sid: SessionId, device: DeviceId, candidates: seq<(string, Signature)>, proofOk: bool)
      returns (reply: Reply, found: seq<string>)
      ensures reply.Accepted200? <==> Admitted(db.T(), sid, device, proofOk)
      ensures reply.Accepted200? ==> found == HitCandidates(db.T(), disk.files, device, candidates)
    {
      found := [];
      var context := db.GetMobileTransferContext(sid, device);
      if context.None? || context.value.status != Transferring || !proofOk {
        return Rejected(403), [];
      }
      var keys := seq(|candidates|, i requires 0 <= i < |candidates| => candidates[i].1);
      var matches := GetAssetRecordsBySignatures(device, keys);
      ghost var t, files := db.T(), disk.files;
      for i := 0 to |candidates|
        invariant found == HitCandidates(t, files, device, candidates[..i])
      {
        assert candidates[..i + 1][..i] == candidates[..i];
        assert keys[i] == candidates[i].1;
        if candidates[i].1 in matches {
          found := found + [candidates[i].0];
        }
      }
      assert candidates[..|candidates|] == candidates;
      reply := Accepted200;
    }

    method HandleStartRequest(sid: SessionId, device: DeviceId, total: int, proofOk: bool) returns (reply: Reply)
      modifies db
      ensures (db.T(), reply) == StartEffect(old(db.T()), sid, device, total, proofOk)
    {
      var context := db.GetMobileTransferContext(sid, device);
      if context.None? || context.value.status !in {Paired, Transferring} || !proofOk {
        return Rejected(403);
      }
      var state := NextFolderState(context.value.folderState, TransferStartedEvent);
      db.UpdateMobileTransferState(sid, device, Transferring, state, Some(total), Some(0), Some(0));
      reply := Accepted200;
    }

    method HandleCompleteRequest(sid: SessionId, device: DeviceId, transferred: int, failed: int,
                                 stoppedByUser: bool, proofOk: bool) returns (reply: Reply)
      modifies db
      ensures (db.T(), reply) == CompleteEffect(old(db.T()), sid, device, transferred, failed, stoppedByUser, proofOk)
    {
      var context := db.GetMobileTransferContext(sid, device);
      if context.None? || context.value.status != Transferring || !proofOk {
        return Rejected(403);
      }
      var status, event;
      if stoppedByUser {
        status, event := StoppedByMobile, TransferStoppedEvent;
      } else {
        status := if failed == 0 then Completed else Failed;
        event := if failed == 0 then TransferCompletedEvent else TransferFailedEvent;
      }
      var state := NextFolderState(context.value.folderState, event);
      db.UpdateMobileTransferState(sid, device, status, state, None, Some(transferred), Some(failed));
      reply := Accepted200;
    }

    method MarkTransferFailed(sid: SessionId, device: DeviceId, context: TransferContext)
      requires Context(db.T(), sid, device) == Some(context)
      modifies db
      ensures db.T() == MarkedFailed(old(db.T()), sid, device)
    {
      var state := NextFolderState(context.folderState, TransferFailedEvent);
      db.UpdateMobileTransferState(sid, device, Failed, state, None, None, None);
    }

    method HandleStreamError(sid: SessionId, device: DeviceId, proofOk: bool)
      modifies db
      ensures db.T() == StreamErrorEffect(old(db.T()), sid, device, proofOk)
    {
      var context := db.GetMobileTransferContext(sid, device);
      if context.Some? && context.value.status == Transferring && proofOk {
        MarkTransferFailed(sid, device, context.value);
      }
    }

    method FindStored(folderPath: string, u: Upload) returns (found: bool)
      ensures found <==> AlreadyStored(db.T(), disk.files, folderPath, u)
    {
      found := false;
      if SignatureOf(u).Some? {
        var sig := SignatureOf(u).value;
        var matches := GetAssetRecordsBySignatures(u.device, [sig]);
        found := sig in matches;
      }
      if !found {
        var key := AssetKey(u.device, u.asset);
        found := key in db.assets && db.assets[key].version == u.version &&
                 folderPath + "/" + db.assets[key].path in disk.files;
      }
    }

    method StoreAndRecord(u: Upload, uuid: string, body: BodyStream, context: TransferContext) returns (reply: Reply)
      requires Context(db.T(), u.sid, u.device) == Some(context)
      requires !u.body.NoBody? && 0 <= u.contentLength
      requires u.body.Stream? ==> u.body.data == body.rest
      requires FreshUuid(disk.files, uuid)
      modifies db, disk, body
      ensures Effect(db.T(), disk.files, reply) == StorageEffect(old(db.T()), old(disk.files), context.folderPath, u, digest)
    {
      var stored;
      if u.body.Staged? {
        stored := MoveStagedAssetToFolder(context.folderPath, u);
      } else {
        stored := WriteAssetToFolder(context.folderPath, u, uuid, body);
      }
      if stored.None? {
        MarkTransferFailed(u.sid, u.device, context);
        return StorageFailed;
      }
      db.UpsertMobileAssetRecord(AssetKey(u.device, u.asset), RecordOf(u, stored.value));
      db.IncrementTransferredCount(u.sid, u.device);
      reply := StoredAt(stored.value.path);
    }

    method HandleAssetUpload(u: Upload, uuid: string, body: BodyStream) returns (reply: Reply)
      requires u.body.Stream? ==> u.body.data == body.rest
      requires FreshUuid(disk.files, uuid)
      modifies db, disk, body
      ensures Effect(db.T(), disk.files, reply) == UploadEffect(old(db.T()), old(disk.files), u, digest)
    {
      if u.body.NoBody? || u.contentLength < 0 || (u.size.Some? && u.size.value != u.contentLength) {
        return Rejected(400);
      }
      var context := db.GetMobileTransferContext(u.sid, u.device);
      if context.None? || context.value.status != Transferring || !u.proofOk {
        return Rejected(403);
      }
      var found := FindStored(context.value.folderPath, u);
      if found {
        db.IncrementTransferredCount(u.sid, u.device);
        return Skipped;
      }
      reply := StoreAndRecord(u, uuid, body, context.value);
    }
  }

  /** The asset ids whose signature is hit, in order. */
  ghost function HitCandidates(t: Tables, files: Files, device: DeviceId, candidates: seq<(string, Signature)>): seq<string> {
    if candidates == [] then []
    else
      var last := candidates[|candidates| - 1];
      HitCandidates(t, files, device, candidates[..|candidates| - 1]) +
      if SignatureHit(t, files, device, last.1) then [last.0] else []
  }
}
