/** Every answer of the transfer handlers, exactly when it is given, and what the rows are afterwards: in terms of
    the rows and the request, not of the steps that lead there. */
module TransferAnswers {
  import opened Options
  import opened BackupStateMachine
  import opened CollisionNames
  import opened PairingStore
  import opened TransferService
  import opened TransferProofs

  /** The session is this device's, its device and folder have their rows, and its status is one of these. */
  ghost predicate OpenFor(t: Tables, sid: SessionId, device: DeviceId, statuses: set<SessionStatus>) {
    && sid in t.sessions && t.sessions[sid].device == device && t.sessions[sid].status in statuses
    && device in t.devices && t.sessions[sid].folder in t.folders
  }

  lemma AdmittedIff(t: Tables, sid: SessionId, device: DeviceId, proofOk: bool)
    ensures Admitted(t, sid, device, proofOk) <==> OpenFor(t, sid, device, {Transferring}) && proofOk
  {
  }

  /** One session row is replaced, the bindings of its device show a new state, and that is all. */
  ghost predicate Becomes(t: Tables, t': Tables, sid: SessionId, row: Session, state: string) {
    && t'.sessions == t.sessions[sid := row] && t'.bindings.Keys == t.bindings.Keys
    && (forall f :: f in t.bindings ==>
          t'.bindings[f] == if t.bindings[f].device == row.device then Binding(row.device, state) else t.bindings[f])
    && t'.folders == t.folders && t'.devices == t.devices && t'.assets == t.assets
  }

  // ----- start, completion, errors, stop -----

  lemma StatesStored(stored: Option<string>)
    ensures NextFolderState(stored, TransferStartedEvent) == "transferring"
    ensures NextFolderState(stored, TransferCompletedEvent) == "transfer_completed"
    ensures NextFolderState(stored, TransferFailedEvent) == "failed"
    ensures NextFolderState(stored, TransferStoppedEvent) == "paired"
  {
    ResolverIgnoresStoredString(stored, Some(STATE_PAIRED), TransferStartedEvent);
  }

  /** A transfer starts exactly for a paired or running session with a proof, and counts from zero. */
  lemma StartIff(t: Tables, sid: SessionId, device: DeviceId, total: int, proofOk: bool)
    ensures var (t', reply) := StartEffect(t, sid, device, total, proofOk);
            if OpenFor(t, sid, device, {Paired, Transferring}) && proofOk then
              reply == Accepted200
              && Becomes(t, t', sid, Session(device, t.sessions[sid].folder, Transferring, total, 0, 0), "transferring")
            else t' == t && reply == Rejected(403)
  {
    if Context(t, sid, device).Some? {
      StatesStored(Context(t, sid, device).value.folderState);
    }
  }

  /** A running transfer is completed exactly when the phone says nothing failed and it was not stopped; the
      phone's counts are kept, and the total announced at the start. */
  lemma CompletionIff(t: Tables, sid: SessionId, device: DeviceId, transferred: int, failed: int, stopped: bool, proofOk: bool)
    ensures var (t', reply) := CompleteEffect(t, sid, device, transferred, failed, stopped, proofOk);
            if OpenFor(t, sid, device, {Transferring}) && proofOk then
              var status := if stopped then StoppedByMobile else if failed == 0 then Completed else Failed;
              reply == Accepted200
              && Becomes(t, t', sid, Session(device, t.sessions[sid].folder, status, t.sessions[sid].total, transferred, failed),
                         if stopped then "paired" else if failed == 0 then "transfer_completed" else "failed")
            else t' == t && reply == Rejected(403)
  {
    if Context(t, sid, device).Some? {
      StatesStored(Context(t, sid, device).value.folderState);
    }
  }

  /** A broken stream fails a running transfer and no other; counts stay. */
  lemma StreamErrorIff(t: Tables, sid: SessionId, device: DeviceId, proofOk: bool)
    ensures var t' := StreamErrorEffect(t, sid, device, proofOk);
            if OpenFor(t, sid, device, {Transferring}) && proofOk
            then Becomes(t, t', sid, t.sessions[sid].(status := Failed), "failed") else t' == t
  {
    if Context(t, sid, device).Some? {
      StatesStored(Context(t, sid, device).value.folderState);
    }
  }

  /** The stop button stops whatever the session was doing; counts stay. */
  lemma StopIff(t: Tables, sid: SessionId, device: DeviceId)
    ensures var t' := StopEffect(t, sid, device);
            if OpenFor(t, sid, device, {Paired, Transferring, Completed, Failed, StoppedByMobile})
            then Becomes(t, t', sid, t.sessions[sid].(status := StoppedByMobile), "paired") else t' == t
  {
    if Context(t, sid, device).Some? {
      var status := t.sessions[sid].status;
      assert status.Paired? || status.Transferring? || status.Completed? || status.Failed? || status.StoppedByMobile?;
      StatesStored(Context(t, sid, device).value.folderState);
    }
  }

  // ----- uploads -----

  ghost predicate WellFormed(u: Upload) {
    !u.body.NoBody? && 0 <= u.contentLength && (u.size == None || u.size == Some(u.contentLength))
  }

  ghost predicate FileIsThere(t: Tables, files: Files, device: DeviceId, path: string) {
    exists f :: f in t.bindings && f in t.folders && t.bindings[f].device == device && t.folders[f] + "/" + path in files
  }

  /** The phone says digest, size and time, a record of its has the same three, and its file is there. */
  ghost predicate SameContentStored(t: Tables, files: Files, u: Upload) {
    u.sha1.Some? && u.size.Some? && u.createdAt.Some? &&
    exists k :: k in t.assets && k.device == u.device && t.assets[k].sha1 == u.sha1 && t.assets[k].size == u.size
                && t.assets[k].createdAt == u.createdAt && FileIsThere(t, files, u.device, t.assets[k].path)
  }

  /** This version of this asset is recorded, and its file is in the session's folder. */
  ghost predicate SameVersionStored(t: Tables, files: Files, u: Upload) {
    var k := AssetKey(u.device, u.asset);
    && k in t.assets && t.assets[k].version == u.version
    && u.sid in t.sessions && t.sessions[u.sid].folder in t.folders
    && t.folders[t.sessions[u.sid].folder] + "/" + t.assets[k].path in files
  }

  /** The whole content arrived, is what the phone said, and the operating system puts it in place. */
  ghost predicate Placeable(u: Upload, digest: Digest) {
    && !(u.fault.DirectoryFails? || u.fault.RenameFails? || u.fault.UtimeFails?)
    && match u.body
       case NoBody => false
       case Stream(data) => u.contentLength <= |data| && (u.fault.DiskFull? ==> u.contentLength <= u.fault.room)
       case Staged(file, provided) =>
         && file.Some? && |file.value| == u.contentLength && !u.fault.CopyFails?
         && (u.sha1.None? || u.sha1.value == if provided == "" then digest(file.value) else provided)
  }

  lemma StoredIsOneOfTwo(t: Tables, files: Files, u: Upload)
    requires OpenFor(t, u.sid, u.device, {Transferring})
    ensures AlreadyStored(t, files, t.folders[t.sessions[u.sid].folder], u)
       <==> SameContentStored(t, files, u) || SameVersionStored(t, files, u)
  {
    if SameContentStored(t, files, u) {
      var k :| k in t.assets && k.device == u.device && t.assets[k].sha1 == u.sha1 && t.assets[k].size == u.size
               && t.assets[k].createdAt == u.createdAt && FileIsThere(t, files, u.device, t.assets[k].path);
      assert RecordFileExists(t, files, k);
      assert HitBy(t, files, u.device, SignatureOf(u).value, k);
    }
    if SignatureOf(u).Some? && SignatureHit(t, files, u.device, SignatureOf(u).value) {
      var k :| HitBy(t, files, u.device, SignatureOf(u).value, k);
      assert FileIsThere(t, files, u.device, t.assets[k].path);
    }
  }

  lemma PlaceableIff(files: Files, folderPath: string, u: Upload, digest: Digest)
    requires WellFormed(u)
    ensures Placed(files, folderPath, u, digest).stored.Some? <==> Placeable(u, digest)
  {
  }

  /** Every answer to an upload, and exactly when it is given. */
  lemma UploadAnswersIff(t: Tables, files: Files, u: Upload, digest: Digest)
    ensures var reply := UploadEffect(t, files, u, digest).reply;
            var open := WellFormed(u) && OpenFor(t, u.sid, u.device, {Transferring}) && u.proofOk;
            var stored := SameContentStored(t, files, u) || SameVersionStored(t, files, u);
            && (reply == Rejected(400) <==> !WellFormed(u))
            && (reply == Rejected(403) <==> WellFormed(u) && !open)
            && (reply == Skipped <==> open && stored)
            && (reply.StoredAt? <==> open && !stored && Placeable(u, digest))
            && (reply.StorageFailed? <==> open && !stored && !Placeable(u, digest))
  {
    AdmittedIff(t, u.sid, u.device, u.proofOk);
    if WellFormed(u) && Admitted(t, u.sid, u.device, u.proofOk) {
      StoredIsOneOfTwo(t, files, u);
      PlaceableIff(files, t.folders[t.sessions[u.sid].folder], u, digest);
    }
  }

  /** What the rows are after each of them. */
  lemma UploadRows(t: Tables, files: Files, u: Upload, digest: Digest)
    ensures var e := UploadEffect(t, files, u, digest);
            match e.reply
            case Rejected(_) => e.tables == t
            case Accepted200 => false
            case Skipped => u.sid in t.sessions && e.tables == t.(sessions := e.tables.sessions)
                            && e.tables.sessions == t.sessions[u.sid := OneMore(t.sessions[u.sid])]
            case StoredAt(path) => u.sid in t.sessions
                                   && e.tables == t.(sessions := e.tables.sessions, assets := e.tables.assets)
                                   && e.tables.sessions == t.sessions[u.sid := OneMore(t.sessions[u.sid])]
            case StorageFailed => u.sid in t.sessions
                                  && Becomes(t, e.tables, u.sid, t.sessions[u.sid].(status := Failed), "failed")
  {
    UploadTables(t, files, u, digest);
    if UploadEffect(t, files, u, digest).reply.StorageFailed? {
      FailedRow(t, u.sid, u.device);
    }
  }

  lemma FailedRow(t: Tables, sid: SessionId, device: DeviceId)
    requires Context(t, sid, device).Some?
    ensures Becomes(t, MarkedFailed(t, sid, device), sid, t.sessions[sid].(status := Failed), "failed")
  {
    StatesStored(Context(t, sid, device).value.folderState);
  }

  function OneMore(s: Session): Session {
    s.(transferred := s.transferred + 1)
  }

  /** What is recorded of a stored asset: the version sent, digest and size of the content received, and a path in
      the month's directory, under the name sent if that was free, else under that name with the first free number
      before its extension. */
  lemma StoredRecordIs(t: Tables, files: Files, u: Upload, digest: Digest)
    requires UploadEffect(t, files, u, digest).reply.StoredAt?
    ensures var e := UploadEffect(t, files, u, digest); var key := AssetKey(u.device, u.asset);
            && key in e.tables.assets && e.tables.assets == t.assets[key := e.tables.assets[key]]
            && (var row := e.tables.assets[key];
                && row.version == u.version && row.size == Some(u.contentLength) && row.createdAt == u.createdAt
                && row.path == e.reply.path
                && (u.body.Stream? ==> row.sha1 == Some(digest(u.body.data[..u.contentLength])))
                && (u.body.Staged? && u.sha1.Some? ==> row.sha1 == u.sha1)
                && (DigestHonest(u, digest) && u.body.Staged? ==> row.sha1 == Some(digest(u.body.file.value))))
  {
    UploadAnswersIff(t, files, u, digest);
  }

  lemma StoredUnderMonth(t: Tables, files: Files, u: Upload, digest: Digest)
    requires UploadEffect(t, files, u, digest).reply.StoredAt?
    ensures var e := UploadEffect(t, files, u, digest);
            u.sid in t.sessions && t.sessions[u.sid].folder in t.folders &&
            var directory := t.folders[t.sessions[u.sid].folder] + "/" + u.month;
            var plain := directory + "/" + u.filename;
            && (plain !in files ==> e.reply.path == u.month + "/" + u.filename)
            && (plain in files ==>
                  exists k: nat ::
                    IsFirstFree(files.Keys, directory + "/" + Stem(u.filename), Suffix(u.filename), 2, k)
                    && e.reply.path == u.month + "/" + Stem(u.filename) + "-" + Decimal(k) + Suffix(u.filename))
  {
    TargetUnderMonth(files, t.folders[t.sessions[u.sid].folder], u);
  }

  lemma TargetUnderMonth(files: Files, folderPath: string, u: Upload)
    ensures var directory := folderPath + "/" + u.month;
            var path := Relative(folderPath, TargetPath(files, folderPath, u));
            && (directory + "/" + u.filename !in files ==> path == u.month + "/" + u.filename)
            && (directory + "/" + u.filename in files ==>
                  exists k: nat ::
                    IsFirstFree(files.Keys, directory + "/" + Stem(u.filename), Suffix(u.filename), 2, k)
                    && path == u.month + "/" + Stem(u.filename) + "-" + Decimal(k) + Suffix(u.filename))
  {
    var directory := folderPath + "/" + u.month;
    if directory + "/" + u.filename in files {
      var k := FirstFree(files.Keys, directory + "/" + Stem(u.filename), Suffix(u.filename), 2);
      var rest := u.month + "/" + Stem(u.filename) + "-" + Decimal(k) + Suffix(u.filename);
      assert TargetPath(files, folderPath, u) == folderPath + "/" + rest;
    } else {
      assert TargetPath(files, folderPath, u) == folderPath + "/" + (u.month + "/" + u.filename);
    }
  }

  /** An edited asset, sent under its old id with a new version, is stored again with what was received, and its
      record then has the new version; the old file stays. */
  lemma EditedIsStored(t: Tables, files: Files, u: Upload, digest: Digest)
    requires WellFormed(u) && OpenFor(t, u.sid, u.device, {Transferring}) && u.proofOk && Placeable(u, digest)
    requires AssetKey(u.device, u.asset) in t.assets && t.assets[AssetKey(u.device, u.asset)].version != u.version
    requires !SameContentStored(t, files, u)
    ensures var e := UploadEffect(t, files, u, digest);
            && e.reply.StoredAt? && AssetKey(u.device, u.asset) in e.tables.assets
            && e.tables.assets[AssetKey(u.device, u.asset)].version == u.version
            && (forall p :: p in files ==> p in e.files && e.files[p] == files[p]) && |e.files| == |files| + 1
  {
    UploadAnswersIff(t, files, u, digest);
    StoredRecordIs(t, files, u, digest);
    UploadNeverOverwrites(t, files, u, digest);
    TargetPathShape(files, t.folders[t.sessions[u.sid].folder], u);
  }
}
