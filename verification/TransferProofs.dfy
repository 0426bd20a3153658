/** What uploads promise about the library directory and the asset records. */
module TransferProofs {
  import opened Options
  import opened BackupStateMachine
  import opened CollisionNames
  import opened PairingStore
  import opened StoreIntegrity
  import opened TransferService

  function PathOf(folderPath: string, row: Asset): string {
    folderPath + "/" + row.path
  }

  ghost predicate RecordHonest(files: Files, path: string, row: Asset, digest: Digest) {
    path in files && row.size == Some(|files[path]|) && row.sha1 == Some(digest(files[path]))
  }

  /** Every record names an existing file with the recorded size and digest. */
  ghost predicate RecordsOnDisk(t: Tables, files: Files, digest: Digest) {
    forall k, f :: k in t.assets && f in t.bindings && f in t.folders && t.bindings[f].device == k.device ==>
      RecordHonest(files, PathOf(t.folders[f], t.assets[k]), t.assets[k], digest)
  }

  ghost predicate PathsDistinct(t: Tables) {
    forall j, k :: j in t.assets && k in t.assets && j.device == k.device && t.assets[j].path == t.assets[k].path ==> j == k
  }

  ghost predicate Sound(t: Tables, files: Files, digest: Digest) {
    Integrity(t) && RecordsOnDisk(t, files, digest) && PathsDistinct(t)
  }

  /** The transport's digest, when it supplies one, is the digest of the staged file. */
  predicate DigestHonest(u: Upload, digest: Digest) {
    u.body.Staged? && u.body.file.Some? && u.body.provided != "" ==> u.body.provided == digest(u.body.file.value)
  }

  lemma TargetPathShape(files: Files, folderPath: string, u: Upload)
    ensures var path := TargetPath(files, folderPath, u);
            path !in files && folderPath + "/" + Relative(folderPath, path) == path
  {
    var directory := folderPath + "/" + u.month;
    ConflictSafePathIsFree(files.Keys, directory, u.filename);
    var path := TargetPath(files, folderPath, u);
    assert (directory + "/" + Stem(u.filename))[..|folderPath| + 1] == folderPath + "/";
    assert path[..|folderPath| + 1] == folderPath + "/";
  }

  /** No upload, whatever its outcome, changes or removes a file that was there. */
  lemma UploadNeverOverwrites(t: Tables, files: Files, u: Upload, digest: Digest)
    ensures forall p :: p in files ==>
              p in UploadEffect(t, files, u, digest).files && UploadEffect(t, files, u, digest).files[p] == files[p]
  {
    if Context(t, u.sid, u.device).Some? {
      TargetPathShape(files, Context(t, u.sid, u.device).value.folderPath, u);
    }
  }

  /** What an upload that is not answered "stored" leaves behind: never a record, and no new file except
      when the system call that failed came after the file was already in place. */
  lemma UnstoredUploadLeaves(t: Tables, files: Files, u: Upload, digest: Digest)
    requires !UploadEffect(t, files, u, digest).reply.StoredAt?
    ensures var e := UploadEffect(t, files, u, digest);
            && e.tables.assets == t.assets
            && (!e.reply.StorageFailed? ==> e.files == files)
            && (e.reply.StorageFailed? ==> (e.files == files <==> FailsBeforePlacing(u, digest)))
            && (u.body.Stream? && |u.body.data| < u.contentLength ==> e.files == files)
            && (u.body.Staged? && u.body.file.Some? && |u.body.file.value| != u.contentLength ==> e.files == files)
  {
    var e := UploadEffect(t, files, u, digest);
    if e.reply.StorageFailed? {
      var folderPath := Context(t, u.sid, u.device).value.folderPath;
      TargetPathShape(files, folderPath, u);
      if !FailsBeforePlacing(u, digest) {
        assert TargetPath(files, folderPath, u) in e.files;
      }
    }
  }

  /** What a stored upload does: one new file, at a path no record or file used, holding the content
      received, and one record for it. */
  lemma StoredUploadAdds(t: Tables, files: Files, u: Upload, digest: Digest)
    requires Integrity(t) && UploadEffect(t, files, u, digest).reply.StoredAt?
    ensures var e := UploadEffect(t, files, u, digest); var key := AssetKey(u.device, u.asset);
            && Admitted(t, u.sid, u.device, u.proofOk)
            && (var path := Context(t, u.sid, u.device).value.folderPath + "/" + e.reply.path;
                && path !in files
                && e.files.Keys == files.Keys + {path}
                && |e.files[path]| == u.contentLength
                && (u.body.Stream? ==> e.files[path] <= u.body.data)
                && (u.body.Staged? ==> Some(e.files[path]) == u.body.file)
                && e.tables.assets.Keys == t.assets.Keys + {key}
                && e.tables.assets[key].path == e.reply.path && e.tables.assets[key].version == u.version
                && e.tables.assets[key].createdAt == u.createdAt
                && (RecordHonest(e.files, path, e.tables.assets[key], digest) <==> DigestHonest(u, digest)))
            && (forall k :: k in t.assets && k != key ==> e.tables.assets[k] == t.assets[k])
  {
    TargetPathShape(files, Context(t, u.sid, u.device).value.folderPath, u);
  }

  /** The folder a session's context names is the only folder the device is bound to. */
  lemma ContextFolder(t: Tables, sid: SessionId, device: DeviceId, f: FolderId)
    requires Integrity(t) && Context(t, sid, device).Some?
    requires f in t.bindings && t.bindings[f].device == device
    ensures t.folders[f] == Context(t, sid, device).value.folderPath
  {
    assert t.bindings[t.sessions[sid].folder].device == device;
  }

  /** An upload leaves the tables alone, or counts a skip, or stores. */
  lemma UploadTables(t: Tables, files: Files, u: Upload, digest: Digest)
    ensures var e := UploadEffect(t, files, u, digest);
            (e.tables == t && !e.reply.StoredAt? && !e.reply.Skipped?)
            || (e.tables == WithOneMoreTransferred(t, u.sid, u.device) && e.reply.Skipped?
                && Admitted(t, u.sid, u.device, u.proofOk))
            || (Admitted(t, u.sid, u.device, u.proofOk) && 0 <= u.contentLength
                && e == StorageEffect(t, files, Context(t, u.sid, u.device).value.folderPath, u, digest))
  {
  }

  lemma UploadKeepsIntegrity(t: Tables, files: Files, u: Upload, digest: Digest)
    requires Integrity(t)
    ensures Integrity(UploadEffect(t, files, u, digest).tables)
    ensures UploadEffect(t, files, u, digest).tables.folders == t.folders
    ensures SameBindings(t, UploadEffect(t, files, u, digest).tables)
  {
    UploadTables(t, files, u, digest);
    var e := UploadEffect(t, files, u, digest);
    if e.tables == t {
    } else if e.tables == WithOneMoreTransferred(t, u.sid, u.device) {
      OneMoreKept(t, u.sid, u.device);
    } else {
      StorageKeepsIntegrity(t, files, Context(t, u.sid, u.device).value.folderPath, u, digest);
    }
  }

  lemma StorageKeepsIntegrity(t: Tables, files: Files, folderPath: string, u: Upload, digest: Digest)
    requires Integrity(t) && Context(t, u.sid, u.device).Some? && 0 <= u.contentLength
    ensures Integrity(StorageEffect(t, files, folderPath, u, digest).tables)
    ensures StorageEffect(t, files, folderPath, u, digest).tables.folders == t.folders
    ensures SameBindings(t, StorageEffect(t, files, folderPath, u, digest).tables)
  {
    match Placed(files, folderPath, u, digest).stored {
      case None =>
        FailureKept(t, u.sid, u.device);
      case Some(s) =>
        var key := AssetKey(u.device, u.asset);
        AssetKept(t, u.sid, key, RecordOf(u, s));
        OneMoreKept(WithAsset(t, key, RecordOf(u, s)), u.sid, u.device);
    }
  }

  lemma FailureKept(t: Tables, sid: SessionId, device: DeviceId)
    requires Integrity(t) && Context(t, sid, device).Some?
    ensures Integrity(MarkedFailed(t, sid, device)) && SameBindings(t, MarkedFailed(t, sid, device))
  {
    TransferStateKept(t, sid, device, Failed,
                      NextFolderState(Context(t, sid, device).value.folderState, TransferFailedEvent), None, None, None);
  }

  /** The same folders bound to the same devices; transfer states may differ. */
  ghost predicate SameBindings(t: Tables, t': Tables) {
    t'.bindings.Keys == t.bindings.Keys && forall f :: f in t.bindings ==> t'.bindings[f].device == t.bindings[f].device
  }

  lemma RecordsCarryOver(t: Tables, t': Tables, files: Files, files': Files, digest: Digest)
    requires RecordsOnDisk(t, files, digest) && PathsDistinct(t)
    requires t'.assets == t.assets && Integrity(t)
    requires forall f :: f in t'.bindings && f in t'.folders && IsBound(t, t'.bindings[f].device) ==>
               f in t.bindings && f in t.folders && t.folders[f] == t'.folders[f] && t.bindings[f].device == t'.bindings[f].device
    requires forall p :: p in files ==> p in files' && files'[p] == files[p]
    ensures RecordsOnDisk(t', files', digest) && PathsDistinct(t')
  {
    forall k, f | k in t'.assets && f in t'.bindings && f in t'.folders && t'.bindings[f].device == k.device
      ensures RecordHonest(files', PathOf(t'.folders[f], t'.assets[k]), t'.assets[k], digest)
    {
      assert IsBound(t, k.device);
      assert RecordHonest(files, PathOf(t.folders[f], t.assets[k]), t.assets[k], digest);
    }
  }

  lemma NewRecordKeepsSound(t: Tables, t': Tables, files: Files, files': Files, digest: Digest,
                            key: AssetKey, row: Asset, folderPath: string)
    requires Sound(t, files, digest) && Integrity(t')
    requires t'.folders == t.folders && SameBindings(t, t') && t'.assets == t.assets[key := row]
    requires forall f :: f in t.bindings && t.bindings[f].device == key.device ==> t.folders[f] == folderPath
    requires PathOf(folderPath, row) !in files && RecordHonest(files', PathOf(folderPath, row), row, digest)
    requires forall p :: p in files ==> p in files' && files'[p] == files[p]
    ensures Sound(t', files', digest)
  {
    forall k, f | k in t'.assets && f in t'.bindings && f in t'.folders && t'.bindings[f].device == k.device
      ensures RecordHonest(files', PathOf(t'.folders[f], t'.assets[k]), t'.assets[k], digest)
    {
      if k != key {
        assert RecordHonest(files, PathOf(t.folders[f], t.assets[k]), t.assets[k], digest);
      }
    }
    forall k | k in t.assets && k != key && k.device == key.device
      ensures t.assets[k].path != row.path
    {
      var f :| f in t.bindings && t.bindings[f].device == k.device;
      assert RecordHonest(files, PathOf(t.folders[f], t.assets[k]), t.assets[k], digest);
    }
  }

  lemma StoredUploadKeepsSound(t: Tables, files: Files, u: Upload, digest: Digest)
    requires Sound(t, files, digest) && DigestHonest(u, digest)
    requires UploadEffect(t, files, u, digest).reply.StoredAt?
    ensures Sound(UploadEffect(t, files, u, digest).tables, UploadEffect(t, files, u, digest).files, digest)
  {
    var e := UploadEffect(t, files, u, digest);
    var key := AssetKey(u.device, u.asset);
    var folderPath := Context(t, u.sid, u.device).value.folderPath;
    UploadKeepsIntegrity(t, files, u, digest);
    StoredUploadAdds(t, files, u, digest);
    UploadNeverOverwrites(t, files, u, digest);
    forall f | f in t.bindings && t.bindings[f].device == u.device
      ensures t.folders[f] == folderPath
    {
      ContextFolder(t, u.sid, u.device, f);
    }
    assert e.tables.assets == t.assets[key := e.tables.assets[key]];
    NewRecordKeepsSound(t, e.tables, files, e.files, digest, key, e.tables.assets[key], folderPath);
  }

  /** Disk and records stay in agreement under every upload whose transport reports honest digests. */
  lemma UploadKeepsSound(t: Tables, files: Files, u: Upload, digest: Digest)
    requires Sound(t, files, digest) && DigestHonest(u, digest)
    ensures Sound(UploadEffect(t, files, u, digest).tables, UploadEffect(t, files, u, digest).files, digest)
  {
    var e := UploadEffect(t, files, u, digest);
    if e.reply.StoredAt? {
      StoredUploadKeepsSound(t, files, u, digest);
    } else {
      UploadKeepsIntegrity(t, files, u, digest);
      UploadNeverOverwrites(t, files, u, digest);
      UnstoredUploadLeaves(t, files, u, digest);
      RecordsCarryOver(t, e.tables, files, e.files, digest);
    }
  }

  /** Honesty of the transport's digest is exactly what agreement needs: the service records it unchecked. */
  lemma StoredUploadSoundIff(t: Tables, files: Files, u: Upload, digest: Digest)
    requires Sound(t, files, digest) && UploadEffect(t, files, u, digest).reply.StoredAt?
    ensures Sound(UploadEffect(t, files, u, digest).tables, UploadEffect(t, files, u, digest).files, digest)
       <==> DigestHonest(u, digest)
  {
    var e := UploadEffect(t, files, u, digest);
    if DigestHonest(u, digest) {
      StoredUploadKeepsSound(t, files, u, digest);
    } else {
      StoredUploadAdds(t, files, u, digest);
      UploadKeepsIntegrity(t, files, u, digest);
      var f := t.sessions[u.sid].folder;
      var key := AssetKey(u.device, u.asset);
      assert !RecordHonest(e.files, PathOf(e.tables.folders[f], e.tables.assets[key]), e.tables.assets[key], digest);
    }
  }

  /** After storing, the session is still admitted and the record and file of this version are there. */
  lemma AfterStoring(t: Tables, files: Files, u: Upload, digest: Digest)
    requires Integrity(t) && UploadEffect(t, files, u, digest).reply.StoredAt?
    ensures var e := UploadEffect(t, files, u, digest);
            Admitted(e.tables, u.sid, u.device, u.proofOk)
            && CurrentVersionStored(e.tables, e.files, Context(e.tables, u.sid, u.device).value.folderPath, u)
            && !u.body.NoBody? && 0 <= u.contentLength && (u.size.Some? ==> u.size.value == u.contentLength)
  {
    StoredUploadAdds(t, files, u, digest);
  }

  lemma StoredIsSkipped(t: Tables, files: Files, u: Upload, digest: Digest)
    requires Admitted(t, u.sid, u.device, u.proofOk)
    requires CurrentVersionStored(t, files, Context(t, u.sid, u.device).value.folderPath, u)
    requires !u.body.NoBody? && 0 <= u.contentLength && (u.size.Some? ==> u.size.value == u.contentLength)
    ensures UploadEffect(t, files, u, digest) == Effect(WithOneMoreTransferred(t, u.sid, u.device), files, Skipped)
  {
  }

  /** The batch check and the upload see the same thing: a candidate is reported exactly when an admitted
      upload of an asset with that signature is skipped or would be skipped for its version anyway. */
  lemma ExistenceMatchesUpload(t: Tables, files: Files, u: Upload, digest: Digest,
                               candidates: seq<(string, Signature)>, i: nat)
    requires i < |candidates| && Some(candidates[i].1) == SignatureOf(u)
    requires Admitted(t, u.sid, u.device, u.proofOk) && !u.body.NoBody? && u.contentLength == candidates[i].1.size >= 0
    requires forall j :: 0 <= j < |candidates| && j != i ==> candidates[j].0 != candidates[i].0
    requires !CurrentVersionStored(t, files, Context(t, u.sid, u.device).value.folderPath, u)
    ensures candidates[i].0 in HitCandidates(t, files, u.device, candidates)
       <==> UploadEffect(t, files, u, digest).reply == Skipped
  {
    HitCandidatesAre(t, files, u.device, candidates, candidates[i].0);
  }

  lemma {:induction false} HitCandidatesAre(t: Tables, files: Files, device: DeviceId,
                                            candidates: seq<(string, Signature)>, id: string)
    ensures id in HitCandidates(t, files, device, candidates)
       <==> exists i :: 0 <= i < |candidates| && candidates[i].0 == id && SignatureHit(t, files, device, candidates[i].1)
  {
    if candidates != [] {
      var front, last := candidates[..|candidates| - 1], candidates[|candidates| - 1];
      HitCandidatesAre(t, files, device, front, id);
      assert forall i :: 0 <= i < |front| ==> front[i] == candidates[i];
      assert candidates[|candidates| - 1] == last;
    }
  }

  // ----- the other operations -----

  lemma DeletionKeepsSound(t: Tables, files: Files, digest: Digest, paths: set<string>)
    requires Sound(t, files, digest)
    ensures Sound(WithoutFolders(t, paths), files, digest)
  {
    var t' := WithoutFolders(t, paths);
    DeletionIsExact(t, paths);
    forall k, f | k in t'.assets && f in t'.bindings && f in t'.folders && t'.bindings[f].device == k.device
      ensures RecordHonest(files, PathOf(t'.folders[f], t'.assets[k]), t'.assets[k], digest)
    {
      assert RecordHonest(files, PathOf(t.folders[f], t.assets[k]), t.assets[k], digest);
    }
  }

  lemma RepairKeepsSound(t: Tables, files: Files, digest: Digest, folder: FolderId, previous: DeviceId, replacement: DeviceId)
    requires Sound(t, files, digest) && replacement in t.devices && previous != replacement
    requires folder in t.bindings && t.bindings[folder].device == previous
    requires RepairedStore(t, folder, previous, replacement).Repaired?
    ensures Sound(RepairedStore(t, folder, previous, replacement).tables, files, digest)
  {
    var t' := RepairedStore(t, folder, previous, replacement).tables;
    RepairIsLossless(t, folder, previous, replacement);
    forall k | k in t'.assets
      ensures Origin(k, previous, replacement) in t.assets && t'.assets[k] == t.assets[Origin(k, previous, replacement)]
    {
      assert k == AssetKey(k.device, k.asset);
    }
    forall k, f | k in t'.assets && f in t'.bindings && f in t'.folders && t'.bindings[f].device == k.device
      ensures RecordHonest(files, PathOf(t'.folders[f], t'.assets[k]), t'.assets[k], digest)
    {
      var o := Origin(k, previous, replacement);
      assert o in t.assets && f in t.bindings && t.bindings[f].device == o.device;
      assert RecordHonest(files, PathOf(t.folders[f], t.assets[o]), t.assets[o], digest);
    }
    forall j, k | j in t'.assets && k in t'.assets && j.device == k.device && t'.assets[j].path == t'.assets[k].path
      ensures j == k
    {
      assert Origin(j, previous, replacement) == Origin(k, previous, replacement);
      assert j == AssetKey(j.device, j.asset) && k == AssetKey(k.device, k.asset);
    }
  }

  /** The key a row had before the repair. */
  function Origin(k: AssetKey, previous: DeviceId, replacement: DeviceId): AssetKey {
    if k.device == replacement then AssetKey(previous, k.asset) else k
  }

  // ----- session statuses -----

  predicate IsTerminal(status: SessionStatus) {
    status in {Completed, Failed, StoppedByMobile}
  }

  predicate StatusMayMove(before: SessionStatus, after: SessionStatus) {
    || before == after
    || (before == Paired && after == Transferring)
    || (before == Transferring && IsTerminal(after))
  }

  /** Sessions keep existing under their ids with legal statuses; the sets of rows need not be equal. */
  ghost predicate StatusesMoveLegally(t: Tables, t': Tables) {
    forall s :: s in t.sessions && s in t'.sessions ==> StatusMayMove(t.sessions[s].status, t'.sessions[s].status)
  }

  lemma OneSessionMoves(t: Tables, sid: SessionId, device: DeviceId, status: SessionStatus, state: string,
                        total: Option<int>, transferred: Option<int>, failed: Option<int>)
    requires Context(t, sid, device).Some? && StatusMayMove(Context(t, sid, device).value.status, status)
    ensures StatusesMoveLegally(t, WithTransferState(t, sid, device, status, state, total, transferred, failed))
  {
  }

  /** Every transfer handler moves every session's status along the lifecycle or not at all. */
  lemma HandlersMoveLegally(t: Tables, sid: SessionId, device: DeviceId, total: int, transferred: int, failed: int,
                            stopped: bool, proofOk: bool)
    ensures StatusesMoveLegally(t, StartEffect(t, sid, device, total, proofOk).0)
    ensures StatusesMoveLegally(t, CompleteEffect(t, sid, device, transferred, failed, stopped, proofOk).0)
    ensures StatusesMoveLegally(t, StreamErrorEffect(t, sid, device, proofOk))
  {
    match Context(t, sid, device) {
      case None =>
      case Some(c) =>
        if c.status in {Paired, Transferring} {
          OneSessionMoves(t, sid, device, Transferring, NextFolderState(c.folderState, TransferStartedEvent),
                          Some(total), Some(0), Some(0));
        }
        if c.status == Transferring {
          OneSessionMoves(t, sid, device, CompletionStatus(failed, stopped),
                          NextFolderState(c.folderState, CompletionEvent(failed, stopped)),
                          None, Some(transferred), Some(failed));
          OneSessionMoves(t, sid, device, Failed, NextFolderState(c.folderState, TransferFailedEvent), None, None, None);
        }
    }
  }

  lemma UploadKeepsSessionIds(t: Tables, files: Files, u: Upload, digest: Digest)
    ensures UploadEffect(t, files, u, digest).tables.sessions.Keys == t.sessions.Keys
  {
    UploadTables(t, files, u, digest);
  }

  lemma UploadMovesLegally(t: Tables, files: Files, u: Upload, digest: Digest)
    ensures StatusesMoveLegally(t, UploadEffect(t, files, u, digest).tables)
  {
    var e := UploadEffect(t, files, u, digest);
    if e.reply.StorageFailed? {
      OneSessionMoves(t, u.sid, u.device, Failed,
                      NextFolderState(Context(t, u.sid, u.device).value.folderState, TransferFailedEvent), None, None, None);
    } else {
      assert forall s :: s in t.sessions && s in e.tables.sessions ==> t.sessions[s].status == e.tables.sessions[s].status;
    }
  }

  /** The desktop's own stop button writes without looking: it respects the status order exactly when the
      session is still transferring at that moment, or was stopped already. */
  lemma StopRespectsOrderIff(t: Tables, sid: SessionId, device: DeviceId)
    requires Context(t, sid, device).Some?
    ensures StatusesMoveLegally(t, StopEffect(t, sid, device))
       <==> t.sessions[sid].status in {Transferring, StoppedByMobile}
  {
    assert StopEffect(t, sid, device).sessions[sid].status == StoppedByMobile;
  }
}
