/** Theorems about whole runs of the desktop system. */
module BackupRuns {
  import opened Options
  import opened Octets
  import opened BackupStateMachine
  import opened PairingStore
  import opened StoreIntegrity
  import opened TransferService
  import opened TransferProofs
  import opened AssetUploadStream
  import opened PairingService
  import opened PairingProofs
  import opened BackupSystem

  lemma Prefix(s: System, es: seq<Event>, digest: Digest, ok: (System, Event) -> bool)
    requires Throughout(s, es, digest, ok) && es != []
    ensures Throughout(s, es[..|es| - 1], digest, ok)
    ensures ok(Run(s, es[..|es| - 1], digest), es[|es| - 1])
  {
    var front := es[..|es| - 1];
    forall i | 0 <= i < |front|
      ensures ok(Run(s, front[..i], digest), front[i])
    {
      assert front[..i] == es[..i] && front[i] == es[i];
    }
  }

  // ----- soundness -----

  lemma {:induction false} InvAlongRun(s: System, es: seq<Event>, digest: Digest)
    requires Inv(s, digest) && Throughout(s, es, digest, Enabled)
    ensures Inv(Run(s, es, digest), digest)
  {
    if es != [] {
      Prefix(s, es, digest, Enabled);
      InvAlongRun(s, es[..|es| - 1], digest);
      EveryStepOk(Run(s, es[..|es| - 1], digest), es[|es| - 1], digest);
    }
  }

  /** After every run from an empty store, over whatever files lie in the library: the store is sound, disk
      and records agree, no live session is lost by a join, and the clean-up of stale rows has nothing to do. */
  lemma EveryRunIsSound(files: Files, es: seq<Event>, digest: Digest)
    requires Throughout(Initial(files), es, digest, Enabled)
    ensures var s := Run(Initial(files), es, digest);
            && Inv(s, digest)
            && (forall sid :: sid in s.tables.sessions ==>
                  Context(s.tables, sid, s.tables.sessions[sid].device).Some? &&
                  Context(s.tables, sid, s.tables.sessions[sid].device).value.folderState.Some?)
            && (forall device :: StaleFolders(s.tables, device) == {})
  {
    InvAlongRun(Initial(files), es, digest);
    var s := Run(Initial(files), es, digest);
    forall sid | sid in s.tables.sessions
      ensures Context(s.tables, sid, s.tables.sessions[sid].device).Some?
      ensures Context(s.tables, sid, s.tables.sessions[sid].device).value.folderState.Some?
    {
      SessionsSurviveJoins(s.tables, sid);
    }
    forall device
      ensures StaleFolders(s.tables, device) == {}
    {
      NoStaleRows(s.tables, device);
    }
  }

  // ----- files -----

  /** No run whatever changes or removes a file. */
  lemma {:induction false} FilesAreForever(s: System, es: seq<Event>, digest: Digest)
    ensures forall p :: p in s.files ==> p in Run(s, es, digest).files && Run(s, es, digest).files[p] == s.files[p]
    decreases |es|
  {
    if es != [] {
      FilesAreForever(s, es[..|es| - 1], digest);
      FilesStay(Run(s, es[..|es| - 1], digest), es[|es| - 1], digest);
    }
  }

  // ----- pairing decisions -----

  lemma {:induction false} PairingAlongRun(s: System, es: seq<Event>, digest: Digest)
    requires PairingInv(s) && Throughout(s, es, digest, Fresh)
    ensures PairingInv(Run(s, es, digest)) && s.used <= Run(s, es, digest).used
    decreases |es|
  {
    if es != [] {
      Prefix(s, es, digest, Fresh);
      PairingAlongRun(s, es[..|es| - 1], digest);
      PairingStepOk(Run(s, es[..|es| - 1], digest), es[|es| - 1], digest);
    }
  }

  /** What the process still remembers of a session is what was decided. */
  ghost predicate Remembered(p: Pairing, sid: SessionId, record: Record) {
    sid in p.records ==>
      && (record.state == PairingCompleted ==> p.records[sid] == record)
      && (record.state == PairingStopped ==> p.records[sid].state == PairingStopped)
  }

  lemma StepRemembers(s: System, e: Event, s': System, sid: SessionId, record: Record)
    requires PairingMove(s, e, s') && (e.Restart? ==> s'.pairing.records == map[])
    requires sid in s.used && Remembered(s.pairing, sid, record)
    ensures Remembered(s'.pairing, sid, record)
  {
  }

  /** Pairing decisions stand over every run, restarts included and whatever became of the store: as long as
      the process remembers a session, its completed record is the same and a stopped one is stopped. */
  lemma {:induction false} DecisionsAreFinal(s: System, es: seq<Event>, digest: Digest, sid: SessionId)
    requires PairingInv(s) && Throughout(s, es, digest, Fresh) && sid in s.pairing.records
    ensures sid in Run(s, es, digest).used && Remembered(Run(s, es, digest).pairing, sid, s.pairing.records[sid])
    decreases |es|
  {
    if es != [] {
      var front, last := es[..|es| - 1], es[|es| - 1];
      var mid := Run(s, front, digest);
      Prefix(s, es, digest, Fresh);
      DecisionsAreFinal(s, front, digest, sid);
      PairingAlongRun(s, front, digest);
      PairingStepOk(mid, last, digest);
      StepRemembers(mid, last, Step(mid, last, digest), sid, s.pairing.records[sid]);
    }
  }

  // ----- session rows are inserted once -----

  ghost function Inserts(s: System, e: Event, digest: Digest, sid: SessionId): nat {
    if sid !in s.tables.sessions && sid in Step(s, e, digest).tables.sessions then 1 else 0
  }

  ghost function InsertCount(s: System, es: seq<Event>, digest: Digest, sid: SessionId): nat {
    if es == [] then 0
    else InsertCount(s, es[..|es| - 1], digest, sid) + Inserts(Run(s, es[..|es| - 1], digest), es[|es| - 1], digest, sid)
  }

  /** A session that was accepted, as far as the process remembers it. */
  ghost predicate WasAccepted(s: System, sid: SessionId) {
    sid in s.used && (sid in s.pairing.records ==> s.pairing.records[sid].state == PairingCompleted)
  }

  lemma StepKeepsAccepted(s: System, e: Event, digest: Digest, sid: SessionId)
    requires PairingInv(s) && Fresh(s, e) && WasAccepted(s, sid)
    ensures WasAccepted(Step(s, e, digest), sid) && Inserts(s, e, digest, sid) == 0
  {
    PairingStepOk(s, e, digest);
    if Inserts(s, e, digest, sid) == 1 {
      InsertionNeedsUndecided(s, e, digest, sid);
      assert false;
    }
  }

  lemma InsertionAccepts(s: System, e: Event, digest: Digest, sid: SessionId)
    requires PairingInv(s) && Fresh(s, e) && Inserts(s, e, digest, sid) == 1
    ensures WasAccepted(Step(s, e, digest), sid)
  {
    PairingStepOk(s, e, digest);
    InsertionNeedsUndecided(s, e, digest, sid);
  }

  lemma {:induction false} SessionsAlongRun(s: System, es: seq<Event>, digest: Digest)
    requires PairingInv(s) && SessionsInv(s) && Throughout(s, es, digest, Fresh)
    ensures SessionsInv(Run(s, es, digest))
    decreases |es|
  {
    if es != [] {
      Prefix(s, es, digest, Fresh);
      SessionsAlongRun(s, es[..|es| - 1], digest);
      PairingAlongRun(s, es[..|es| - 1], digest);
      SessionsStepOk(Run(s, es[..|es| - 1], digest), es[|es| - 1], digest);
    }
  }

  /** Over any run, restarts included and whatever became of the store, a session id reaches the session table at
      most once; it never comes back after a deletion. */
  lemma {:induction false} InsertedAtMostOnce(s: System, es: seq<Event>, digest: Digest, sid: SessionId)
    requires PairingInv(s) && SessionsInv(s) && Throughout(s, es, digest, Fresh)
    ensures InsertCount(s, es, digest, sid) <= 1
    ensures WasAccepted(s, sid) || sid in s.tables.sessions ==> InsertCount(s, es, digest, sid) == 0
    ensures WasAccepted(s, sid) || InsertCount(s, es, digest, sid) == 1 ==> WasAccepted(Run(s, es, digest), sid)
    decreases |es|
  {
    if es != [] {
      var front, last := es[..|es| - 1], es[|es| - 1];
      var mid := Run(s, front, digest);
      Prefix(s, es, digest, Fresh);
      InsertedAtMostOnce(s, front, digest, sid);
      PairingAlongRun(s, front, digest);
      if WasAccepted(mid, sid) {
        StepKeepsAccepted(mid, last, digest, sid);
      } else if Inserts(mid, last, digest, sid) == 1 {
        InsertionAccepts(mid, last, digest, sid);
      }
    }
  }

  // ----- session statuses -----

  /** A stop of this session is not pressed too late; stops of others may be. */
  ghost predicate TimelyFor(s: System, e: Event, sid: SessionId) {
    e.StopBackup? && e.sid == sid ==> Timely(s, e)
  }

  ghost function FreshAndTimely(sid: SessionId): (System, Event) -> bool {
    (s, e) => Fresh(s, e) && TimelyFor(s, e, sid)
  }

  ghost predicate HasStatusOrGone(s: System, sid: SessionId, status: SessionStatus) {
    WasAccepted(s, sid) && (sid in s.tables.sessions ==> s.tables.sessions[sid].status == status)
  }

  lemma OthersStopKeepsStatus(t: Tables, stopped: SessionId, device: DeviceId, sid: SessionId)
    requires sid != stopped && sid in t.sessions
    ensures sid in StopEffect(t, stopped, device).sessions && StopEffect(t, stopped, device).sessions[sid] == t.sessions[sid]
  {
  }

  lemma TerminalStep(s: System, e: Event, digest: Digest, sid: SessionId, status: SessionStatus)
    requires PairingInv(s) && SessionsInv(s) && Fresh(s, e) && TimelyFor(s, e, sid)
    requires HasStatusOrGone(s, sid, status) && IsTerminal(status)
    ensures HasStatusOrGone(Step(s, e, digest), sid, status)
  {
    StepKeepsAccepted(s, e, digest, sid);
    if e.StopBackup? && e.sid != sid && sid in s.tables.sessions {
      OthersStopKeepsStatus(s.tables, e.sid, e.device, sid);
    } else {
      StatusesStepIff(s, e, digest);
    }
  }

  /** A terminal status is final in any run in which no stop of that session comes too late, whatever else became
      of the store: the row keeps it, or is deleted for good. */
  lemma {:induction false} TerminalStatusIsFinal(s: System, es: seq<Event>, digest: Digest, sid: SessionId)
    requires PairingInv(s) && SessionsInv(s) && Throughout(s, es, digest, FreshAndTimely(sid))
    requires sid in s.tables.sessions && IsTerminal(s.tables.sessions[sid].status)
    ensures HasStatusOrGone(Run(s, es, digest), sid, s.tables.sessions[sid].status)
    decreases |es|
  {
    if es != [] {
      var front, last := es[..|es| - 1], es[|es| - 1];
      Prefix(s, es, digest, FreshAndTimely(sid));
      assert Throughout(s, front, digest, Fresh);
      TerminalStatusIsFinal(s, front, digest, sid);
      PairingAlongRun(s, front, digest);
      SessionsAlongRun(s, front, digest);
      TerminalStep(Run(s, front, digest), last, digest, sid, s.tables.sessions[sid].status);
    }
  }

  // ----- the count of transferred assets -----

  /** A transferring row of `t'` was a transferring row of `t`, with the same count. */
  ghost predicate CountKept(t: Tables, t': Tables, sid: SessionId) {
    sid in t'.sessions && t'.sessions[sid].status == Transferring ==>
      sid in t.sessions && t.sessions[sid].status == Transferring
      && t.sessions[sid].transferred == t'.sessions[sid].transferred
  }

  lemma StateChangeKeepsCount(t: Tables, sid: SessionId, device: DeviceId, status: SessionStatus, state: string,
                              total: Option<int>, transferred: Option<int>, failed: Option<int>, other: SessionId)
    requires status != Transferring || other != sid
    ensures CountKept(t, WithTransferState(t, sid, device, status, state, total, transferred, failed), other)
  {
  }

  lemma HandlersKeepCount(t: Tables, sid: SessionId, device: DeviceId, total: int, transferred: int, failed: int,
                          stopped: bool, proofOk: bool, other: SessionId)
    ensures CountKept(t, CompleteEffect(t, sid, device, transferred, failed, stopped, proofOk).0, other)
    ensures CountKept(t, StreamErrorEffect(t, sid, device, proofOk), other)
    ensures CountKept(t, StopEffect(t, sid, device), other)
    ensures var (t', reply) := StartEffect(t, sid, device, total, proofOk);
            other != sid || reply != Accepted200 ==> CountKept(t, t', other)
  {
    match Context(t, sid, device) {
      case None =>
      case Some(c) =>
        StateChangeKeepsCount(t, sid, device, CompletionStatus(failed, stopped),
                              NextFolderState(c.folderState, CompletionEvent(failed, stopped)),
                              None, Some(transferred), Some(failed), other);
        StateChangeKeepsCount(t, sid, device, Failed, NextFolderState(c.folderState, TransferFailedEvent), None, None, None, other);
        StateChangeKeepsCount(t, sid, device, StoppedByMobile, NextFolderState(c.folderState, TransferStoppedEvent),
                              None, None, None, other);
        if other != sid {
          StateChangeKeepsCount(t, sid, device, Transferring, NextFolderState(c.folderState, TransferStartedEvent),
                                Some(total), Some(0), Some(0), other);
        }
    }
  }

  ghost predicate IsAcceptedStart(s: System, e: Event, sid: SessionId) {
    e.TransferStart? && e.sid == sid && StartEffect(s.tables, e.sid, e.device, e.total, e.proofOk).1 == Accepted200
  }

  lemma AcceptanceKeepsCount(p: Pairing, t: Tables, who: Pending, base: string, context: Option<BackupAgain>,
                             decision: Decision, newId: FolderId, sid: SessionId)
    ensures CountKept(t, Acceptance(p, t, who, base, context, decision, newId).1, sid)
  {
    if IsActive(p, who.sid) {
      AcceptedStoreAdds(t, who, p.active.value.root, base, context, decision, newId);
    }
  }

  lemma ClaimKeepsCount(p: Pairing, t: Tables, c: Claim, newId: FolderId, now: int, sid: SessionId)
    ensures CountKept(t, Claimed(p, t, c, newId, now).1, sid)
  {
    if p.active.Some? && c.platform.Some? && c.platform.value in p.active.value.tokens {
      AcceptanceKeepsCount(p, t, Claimant(p, c), c.base, p.context, BackupInNewFolder, newId, sid);
    }
  }

  lemma ResolveKeepsCount(p: Pairing, t: Tables, who: Pending, decision: Decision, base: string, newId: FolderId,
                          sid: SessionId)
    ensures CountKept(t, Resolved(p, t, who, decision, base, newId).1, sid)
  {
    AcceptanceKeepsCount(p.(resolvers := p.resolvers - multiset{who}), t, who, base, Some(who.context), decision, newId, sid);
  }

  lemma EndOfTransferKeepsCount(s: System, e: Event, digest: Digest, sid: SessionId)
    requires e.StreamError? || e.TransferComplete? || e.StopBackup?
    ensures CountKept(s.tables, Step(s, e, digest).tables, sid)
  {
    match e {
      case StreamError(failed, device, proofOk) =>
        HandlersKeepCount(s.tables, failed, device, 0, 0, 0, false, proofOk, sid);
      case TransferComplete(done, device, transferred, failed, stopped, proofOk) =>
        HandlersKeepCount(s.tables, done, device, 0, transferred, failed, stopped, proofOk, sid);
      case StopBackup(stopped, device) =>
        HandlersKeepCount(s.tables, stopped, device, 0, 0, 0, false, true, sid);
    }
  }

  lemma RefusedStartKeepsCount(s: System, e: Event, digest: Digest, sid: SessionId)
    requires e.TransferStart? && !IsAcceptedStart(s, e, sid)
    ensures CountKept(s.tables, Step(s, e, digest).tables, sid)
  {
    HandlersKeepCount(s.tables, e.sid, e.device, e.total, 0, 0, false, e.proofOk, sid);
  }

  lemma PlainStepKeepsCount(s: System, e: Event, digest: Digest, sid: SessionId)
    requires !e.AssetUpload? && !IsAcceptedStart(s, e, sid)
    ensures CountKept(s.tables, Step(s, e, digest).tables, sid)
  {
    if e.ClaimRequest? {
      ClaimKeepsCount(s.pairing, s.tables, e.claim, e.newId, e.now, sid);
    } else if e.Resolve? {
      ResolveKeepsCount(s.pairing, s.tables, e.who, e.decision, e.base, e.newId, sid);
    } else if e.TransferStart? {
      RefusedStartKeepsCount(s, e, digest, sid);
    } else if e.StreamError? || e.TransferComplete? || e.StopBackup? {
      EndOfTransferKeepsCount(s, e, digest, sid);
    } else if e.DeleteFolder? {
      DeletionShrinks(s.tables, e.paths);
    }
  }

  /** 1 for an upload answered "stored" or "skipped" for the session. */
  ghost function Counted(s: System, e: Event, digest: Digest, sid: SessionId): nat {
    match e
    case AssetUpload(u, received) =>
      var reply := UploadEffect(s.tables, s.files, Arrived(u, received, digest), digest).reply;
      if u.sid == sid && (reply.StoredAt? || reply.Skipped?) then 1 else 0
    case _ => 0
  }

  /** Uploads answered "stored" or "skipped" for a session since its last accepted start. */
  ghost function CountSinceStart(s: System, es: seq<Event>, digest: Digest, sid: SessionId): nat {
    if es == [] then 0
    else
      var mid, last := Run(s, es[..|es| - 1], digest), es[|es| - 1];
      if IsAcceptedStart(mid, last, sid) then 0
      else CountSinceStart(s, es[..|es| - 1], digest, sid) + Counted(mid, last, digest, sid)
  }

  lemma StorageCounts(t: Tables, files: Files, folderPath: string, u: Upload, digest: Digest, sid: SessionId)
    requires Context(t, u.sid, u.device).Some? && 0 <= u.contentLength && sid in t.sessions
    ensures var e := StorageEffect(t, files, folderPath, u, digest);
            sid in e.tables.sessions && !e.reply.Skipped?
            && (e.tables.sessions[sid].status == Transferring ==>
                  t.sessions[sid].status == Transferring
                  && e.tables.sessions[sid].transferred == t.sessions[sid].transferred +
                       (if u.sid == sid && e.reply.StoredAt? then 1 else 0))
  {
  }

  lemma UploadCounts(t: Tables, files: Files, u: Upload, digest: Digest, sid: SessionId)
    requires sid in t.sessions
    requires sid in UploadEffect(t, files, u, digest).tables.sessions
    requires UploadEffect(t, files, u, digest).tables.sessions[sid].status == Transferring
    ensures t.sessions[sid].status == Transferring
    ensures var e := UploadEffect(t, files, u, digest);
            e.tables.sessions[sid].transferred == t.sessions[sid].transferred +
              (if u.sid == sid && (e.reply.StoredAt? || e.reply.Skipped?) then 1 else 0)
  {
    UploadTables(t, files, u, digest);
    if Admitted(t, u.sid, u.device, u.proofOk) && 0 <= u.contentLength {
      StorageCounts(t, files, Context(t, u.sid, u.device).value.folderPath, u, digest, sid);
    }
  }

  lemma AcceptedStartZeroes(s: System, e: Event, digest: Digest, sid: SessionId)
    requires IsAcceptedStart(s, e, sid) && sid in Step(s, e, digest).tables.sessions
    ensures Step(s, e, digest).tables.sessions[sid].transferred == 0
  {
  }

  /** One step's effect on the count of a session that is transferring after it. */
  lemma StepCounts(s: System, e: Event, digest: Digest, sid: SessionId)
    requires sid in Step(s, e, digest).tables.sessions && Step(s, e, digest).tables.sessions[sid].status == Transferring
    requires !IsAcceptedStart(s, e, sid)
    ensures sid in s.tables.sessions && s.tables.sessions[sid].status == Transferring
    ensures Step(s, e, digest).tables.sessions[sid].transferred
            == s.tables.sessions[sid].transferred + Counted(s, e, digest, sid)
  {
    if e.AssetUpload? {
      UploadKeepsSessionIds(s.tables, s.files, Arrived(e.upload, e.received, digest), digest);
      UploadCounts(s.tables, s.files, Arrived(e.upload, e.received, digest), digest, sid);
    } else {
      PlainStepKeepsCount(s, e, digest, sid);
    }
  }

  /** Accounting, over every run whatever: while a session is transferring, its row counts exactly the uploads
      answered "stored" or "skipped" since the last accepted start. */
  lemma {:induction false} TransferredCountIsExact(files: Files, es: seq<Event>, digest: Digest, sid: SessionId)
    requires var s := Run(Initial(files), es, digest);
             sid in s.tables.sessions && s.tables.sessions[sid].status == Transferring
    ensures Run(Initial(files), es, digest).tables.sessions[sid].transferred
            == CountSinceStart(Initial(files), es, digest, sid)
    decreases |es|
  {
    var front, last := es[..|es| - 1], es[|es| - 1];
    var mid := Run(Initial(files), front, digest);
    if IsAcceptedStart(mid, last, sid) {
      AcceptedStartZeroes(mid, last, digest, sid);
    } else {
      StepCounts(mid, last, digest, sid);
      TransferredCountIsExact(files, front, digest, sid);
    }
  }

  // ----- repeated uploads -----

  /** As long as the session has its row, its device has this record of the asset, whoever the device is by now. */
  ghost predicate RecordStands(t: Tables, sid: SessionId, asset: string, row: Asset) {
    sid in t.sessions ==>
      AssetKey(t.sessions[sid].device, asset) in t.assets && t.assets[AssetKey(t.sessions[sid].device, asset)] == row
  }

  /** The event does not store the session's asset anew. */
  ghost predicate LeavesAsset(s: System, e: Event, digest: Digest, sid: SessionId, asset: string) {
    e.AssetUpload? && e.upload.asset == asset && sid in s.tables.sessions
    && e.upload.device == s.tables.sessions[sid].device ==>
      !UploadEffect(s.tables, s.files, Arrived(e.upload, e.received, digest), digest).reply.StoredAt?
  }

  ghost function EnabledAndLeaves(digest: Digest, sid: SessionId, asset: string): (System, Event) -> bool {
    (s, e) => Enabled(s, e) && LeavesAsset(s, e, digest, sid, asset)
  }

  lemma RepairMovesRecord(t: Tables, folder: FolderId, previous: DeviceId, replacement: DeviceId, sid: SessionId,
                          asset: string, row: Asset)
    requires Integrity(t) && replacement in t.devices && previous != replacement
    requires SafeToRepair(t, folder, previous, replacement) && RecordStands(t, sid, asset, row)
    requires RepairedStore(t, folder, previous, replacement).Repaired?
    ensures RecordStands(RepairedStore(t, folder, previous, replacement).tables, sid, asset, row)
  {
    if IsBound(t, previous) {
      RepairIsLossless(t, folder, previous, replacement);
      assert !IsBound(t, replacement);
      NoRowsWhenUnbound(t, replacement);
    } else {
      RepairOfUnboundIs(t, folder, previous, replacement);
    }
  }

  lemma InsertionLeavesRecord(t: Tables, who: Pending, folder: FolderId, path: string, sid: SessionId, asset: string, row: Asset)
    requires sid != who.sid && RecordStands(t, sid, asset, row)
    ensures RecordStands(InsertedSession(t, who, folder, path).0, sid, asset, row)
  {
  }

  lemma RepairAcceptanceMovesRecord(t: Tables, who: Pending, context: BackupAgain, sid: SessionId, asset: string, row: Asset)
    requires Integrity(t) && sid != who.sid && who.device != context.expected && RecordStands(t, sid, asset, row)
    requires MayRepair(t, context.folder, context.expected, who.device)
    ensures var o := RepairedStore(WithDevice(t, who.device, DeviceRow(who)), context.folder, context.expected, who.device);
            o.Repaired? ==>
              RecordStands(InsertedSession(o.tables, who, context.folder, context.folderPath).0, sid, asset, row)
  {
    var t1 := WithDevice(t, who.device, DeviceRow(who));
    DeviceKept(t, who.device, DeviceRow(who));
    var o := RepairedStore(t1, context.folder, context.expected, who.device);
    if o.Repaired? {
      SafetyIgnoresDevices(t, t1, context.folder, context.expected, who.device);
      RepairMovesRecord(t1, context.folder, context.expected, who.device, sid, asset, row);
      InsertionLeavesRecord(o.tables, who, context.folder, context.folderPath, sid, asset, row);
    }
  }

  lemma FolderAcceptanceLeavesRecord(t: Tables, who: Pending, root: string, base: string, newId: FolderId, sid: SessionId,
                                     asset: string, row: Asset)
    requires Integrity(t) && newId !in t.folders && sid != who.sid && RecordStands(t, sid, asset, row)
    ensures var o := FolderFor(WithDevice(t, who.device, DeviceRow(who)), root, base, who.device, newId);
            o.FolderRecord? && RecordStands(InsertedSession(o.tables, who, o.folder, o.path).0, sid, asset, row)
  {
    var t1 := WithDevice(t, who.device, DeviceRow(who));
    DeviceKept(t, who.device, DeviceRow(who));
    FolderForKept(t1, root, base, who.device, newId);
    var o := FolderFor(t1, root, base, who.device, newId);
    InsertionLeavesRecord(o.tables, who, o.folder, o.path, sid, asset, row);
  }

  lemma AcceptanceMovesRecord(t: Tables, who: Pending, root: string, base: string, context: Option<BackupAgain>,
                              decision: Decision, newId: FolderId, sid: SessionId, asset: string, row: Asset)
    requires Integrity(t) && newId !in t.folders && sid != who.sid && RecordStands(t, sid, asset, row)
    requires context.Some? && decision == ContinueInSelectedFolder ==>
               MayRepair(t, context.value.folder, context.value.expected, who.device)
    ensures RecordStands(AcceptedStore(t, who, root, base, context, decision, newId).0, sid, asset, row)
  {
    if context.Some? && who.device != context.value.expected && decision == ContinueInSelectedFolder {
      RepairAcceptanceMovesRecord(t, who, context.value, sid, asset, row);
    } else {
      FolderAcceptanceLeavesRecord(t, who, root, base, newId, sid, asset, row);
    }
  }

  lemma UploadLeavesRecord(t: Tables, files: Files, u: Upload, digest: Digest, sid: SessionId, asset: string, row: Asset)
    requires Integrity(t) && RecordStands(t, sid, asset, row)
    requires sid in t.sessions && u.asset == asset && u.device == t.sessions[sid].device ==>
               !UploadEffect(t, files, u, digest).reply.StoredAt?
    ensures RecordStands(UploadEffect(t, files, u, digest).tables, sid, asset, row)
  {
    UploadKeepsDevices(t, files, u, digest);
    if UploadEffect(t, files, u, digest).reply.StoredAt? {
      StoredUploadAdds(t, files, u, digest);
    } else {
      UnstoredUploadLeaves(t, files, u, digest);
    }
  }

  lemma UploadKeepsDevices(t: Tables, files: Files, u: Upload, digest: Digest)
    ensures var t' := UploadEffect(t, files, u, digest).tables;
            t'.sessions.Keys == t.sessions.Keys && forall s :: s in t.sessions ==> t'.sessions[s].device == t.sessions[s].device
  {
    UploadTables(t, files, u, digest);
  }

  lemma ClaimLeavesRecord(s: System, c: Claim, newId: FolderId, now: int, digest: Digest, sid: SessionId, asset: string,
                          row: Asset)
    requires Inv(s, digest) && newId !in s.tables.folders && WasAccepted(s, sid) && RecordStands(s.tables, sid, asset, row)
    ensures RecordStands(Step(s, ClaimRequest(c, newId, now), digest).tables, sid, asset, row)
  {
    ClaimTouchesStoreByAccepting(s.pairing, s.tables, c, newId, now);
    if Claimed(s.pairing, s.tables, c, newId, now).1 != s.tables {
      UndecidedStage(s.pairing);
      AcceptanceMovesRecord(s.tables, Claimant(s.pairing, c), s.pairing.active.value.root, c.base, s.pairing.context,
                            BackupInNewFolder, newId, sid, asset, row);
    }
  }

  lemma ResolveLeavesRecord(s: System, who: Pending, decision: Decision, base: string, newId: FolderId, digest: Digest,
                            sid: SessionId, asset: string, row: Asset)
    requires Inv(s, digest) && Enabled(s, Resolve(who, decision, base, newId))
    requires WasAccepted(s, sid) && RecordStands(s.tables, sid, asset, row)
    ensures RecordStands(Step(s, Resolve(who, decision, base, newId), digest).tables, sid, asset, row)
  {
    WithoutResolverOk(s.pairing, who);
    if decision !in {Cancel, ResolverFailed} && IsActive(s.pairing, who.sid) {
      AcceptanceMovesRecord(s.tables, who, s.pairing.active.value.root, base, Some(who.context), decision, newId,
                            sid, asset, row);
    }
  }

  lemma DeletionLeavesRecord(t: Tables, paths: set<string>, sid: SessionId, asset: string, row: Asset)
    requires Integrity(t) && RecordStands(t, sid, asset, row)
    ensures RecordStands(WithoutFolders(t, paths), sid, asset, row)
  {
    DeletionIsExact(t, paths);
  }

  lemma PlainStepLeavesRecord(s: System, e: Event, digest: Digest, sid: SessionId, asset: string, row: Asset)
    requires Subject(e).None? && !e.AssetUpload? && !e.DeleteFolder? && RecordStands(s.tables, sid, asset, row)
    ensures RecordStands(Step(s, e, digest).tables, sid, asset, row)
  {
  }

  lemma StepLeavesRecord(s: System, e: Event, digest: Digest, sid: SessionId, asset: string, row: Asset)
    requires Inv(s, digest) && Enabled(s, e) && LeavesAsset(s, e, digest, sid, asset)
    requires WasAccepted(s, sid) && RecordStands(s.tables, sid, asset, row)
    ensures RecordStands(Step(s, e, digest).tables, sid, asset, row)
  {
    if e.ClaimRequest? {
      ClaimLeavesRecord(s, e.claim, e.newId, e.now, digest, sid, asset, row);
    } else if e.Resolve? {
      ResolveLeavesRecord(s, e.who, e.decision, e.base, e.newId, digest, sid, asset, row);
    } else if e.AssetUpload? {
      UploadLeavesRecord(s.tables, s.files, Arrived(e.upload, e.received, digest), digest, sid, asset, row);
    } else if e.DeleteFolder? {
      DeletionLeavesRecord(s.tables, e.paths, sid, asset, row);
    } else {
      PlainStepLeavesRecord(s, e, digest, sid, asset, row);
    }
  }

  lemma {:induction false} RecordStaysAlongRun(s: System, es: seq<Event>, digest: Digest, sid: SessionId, asset: string,
                                               row: Asset)
    requires Inv(s, digest) && Throughout(s, es, digest, EnabledAndLeaves(digest, sid, asset))
    requires WasAccepted(s, sid) && RecordStands(s.tables, sid, asset, row)
    ensures var s' := Run(s, es, digest); Inv(s', digest) && WasAccepted(s', sid) && RecordStands(s'.tables, sid, asset, row)
    decreases |es|
  {
    if es != [] {
      var front, last := es[..|es| - 1], es[|es| - 1];
      var mid := Run(s, front, digest);
      Prefix(s, es, digest, EnabledAndLeaves(digest, sid, asset));
      RecordStaysAlongRun(s, front, digest, sid, asset, row);
      EveryStepOk(mid, last, digest);
      StepKeepsAccepted(mid, last, digest, sid);
      StepLeavesRecord(mid, last, digest, sid, asset, row);
    }
  }

  /** An upload that was answered "stored" is answered "skipped" at any later time at which its session is still
      transferring, unless the asset was stored anew in between, and then changes nothing but the count. */
  lemma StoredStaysSkipped(s: System, u: Upload, received: Bytes, es: seq<Event>, digest: Digest)
    requires Inv(s, digest)
    requires UploadEffect(s.tables, s.files, Arrived(u, received, digest), digest).reply.StoredAt?
    requires Throughout(Step(s, AssetUpload(u, received), digest), es, digest, EnabledAndLeaves(digest, u.sid, u.asset))
    requires Admitted(Run(Step(s, AssetUpload(u, received), digest), es, digest).tables, u.sid, u.device, u.proofOk)
    ensures var s' := Run(Step(s, AssetUpload(u, received), digest), es, digest);
            UploadEffect(s'.tables, s'.files, Arrived(u, received, digest), digest)
            == Effect(WithOneMoreTransferred(s'.tables, u.sid, u.device), s'.files, Skipped)
  {
    var arrived, s1 := Arrived(u, received, digest), Step(s, AssetUpload(u, received), digest);
    var s' := Run(s1, es, digest);
    AfterStoring(s.tables, s.files, arrived, digest);
    EveryStepOk(s, AssetUpload(u, received), digest);
    var row := s1.tables.assets[AssetKey(u.device, u.asset)];
    RecordStaysAlongRun(s1, es, digest, u.sid, u.asset, row);
    var folder := s'.tables.sessions[u.sid].folder;
    assert RecordHonest(s'.files, PathOf(s'.tables.folders[folder], row), row, digest);
    StoredIsSkipped(s'.tables, s'.files, arrived, digest);
  }

  // ----- retries -----

  /** The time during which a client may retry: no new session, no closing, no restart, and for a session in
      which the user is still being asked, no answer yet. */
  predicate Quiet(es: seq<Event>, sid: SessionId, record: Record) {
    forall e :: e in es ==> QuietEvent(e, sid, record)
  }

  predicate QuietEvent(e: Event, sid: SessionId, record: Record) {
    !e.Start? && !e.Close? && !e.Restart? && (record.state == PairingMismatched && e.Resolve? ==> e.who.sid != sid)
  }

  /** Accepted, stopped, or mismatched and waiting for the user. */
  ghost predicate SettledOn(p: Pairing, sid: SessionId, record: Record) {
    && IsActive(p, sid) && sid in p.records && p.records[sid] == record
    && record.state in {PairingCompleted, PairingStopped, PairingMismatched}
  }

  lemma ResolveKeepsSettled(s: System, who: Pending, decision: Decision, base: string, newId: FolderId, sid: SessionId, record: Record)
    requires PairingOk(s.pairing) && who in s.pairing.resolvers && SettledOn(s.pairing, sid, record)
    requires record.state == PairingMismatched ==> who.sid != sid
    ensures SettledOn(Resolved(s.pairing, s.tables, who, decision, base, newId).0, sid, record)
  {
    assert ThreadOk(s.pairing, who) && who.sid != sid;
  }

  lemma ClaimKeepsSettled(p: Pairing, t: Tables, c: Claim, newId: FolderId, now: int, sid: SessionId, record: Record)
    requires PairingOk(p) && SettledOn(p, sid, record)
    ensures SettledOn(Claimed(p, t, c, newId, now).0, sid, record)
  {
    assert Decided(p);
  }

  lemma QuietStepKeepsSettled(s: System, e: Event, digest: Digest, sid: SessionId, record: Record)
    requires PairingOk(s.pairing) && Fresh(s, e) && QuietEvent(e, sid, record) && SettledOn(s.pairing, sid, record)
    ensures SettledOn(Step(s, e, digest).pairing, sid, record)
  {
    match e {
      case Resolve(who, decision, base, newId) => ResolveKeepsSettled(s, who, decision, base, newId, sid, record);
      case ClaimRequest(claim, newId, now) => ClaimKeepsSettled(s.pairing, s.tables, claim, newId, now, sid, record);
      case _ =>
    }
  }

  lemma {:induction false} SettledStaysSettled(s: System, es: seq<Event>, digest: Digest, sid: SessionId, record: Record)
    requires PairingInv(s) && Throughout(s, es, digest, Fresh) && Quiet(es, sid, record) && SettledOn(s.pairing, sid, record)
    ensures SettledOn(Run(s, es, digest).pairing, sid, record)
    decreases |es|
  {
    if es != [] {
      var front, last := es[..|es| - 1], es[|es| - 1];
      Prefix(s, es, digest, Fresh);
      assert last in es && forall e :: e in front ==> e in es;
      SettledStaysSettled(s, front, digest, sid, record);
      PairingAlongRun(s, front, digest);
      QuietStepKeepsSettled(Run(s, front, digest), last, digest, sid, record);
    }
  }

  lemma SettledClaim(p: Pairing, t: Tables, sid: SessionId, record: Record, c: Claim, newId: FolderId, now: int)
    requires PairingOk(p) && SettledOn(p, sid, record) && c.wellFormed && c.sid == sid
    ensures Claimed(p, t, c, newId, now) == (p, t, Answered(record.payload))
  {
    assert Decided(p);
  }

  /** However often and however late a claim is retried in an accepted, stopped or mismatched session, whoever
      sends it, and whatever else happened since, it is answered with the payload stored then, and nothing changes. */
  lemma RetryIsAnsweredFromRecord(s: System, es: seq<Event>, digest: Digest, sid: SessionId, record: Record,
                                  c: Claim, newId: FolderId, now: int)
    requires PairingInv(s) && Throughout(s, es, digest, Fresh) && Quiet(es, sid, record)
    requires SettledOn(s.pairing, sid, record) && c.wellFormed && c.sid == sid
    ensures var s' := Run(s, es, digest);
            Claimed(s'.pairing, s'.tables, c, newId, now) == (s'.pairing, s'.tables, Answered(record.payload))
  {
    PairingAlongRun(s, es, digest);
    SettledStaysSettled(s, es, digest, sid, record);
    var s' := Run(s, es, digest);
    SettledClaim(s'.pairing, s'.tables, sid, record, c, newId, now);
  }

  // ----- resolutions that come too late -----

  lemma StepNeverActivates(s: System, e: Event, digest: Digest, sid: SessionId)
    requires Fresh(s, e) && sid in s.used && !IsActive(s.pairing, sid)
    ensures sid in Step(s, e, digest).used && !IsActive(Step(s, e, digest).pairing, sid)
  {
  }

  /** A session that was closed or replaced is never active again. */
  lemma {:induction false} NeverActiveAgain(s: System, es: seq<Event>, digest: Digest, sid: SessionId)
    requires Throughout(s, es, digest, Fresh) && sid in s.used && !IsActive(s.pairing, sid)
    ensures sid in Run(s, es, digest).used && !IsActive(Run(s, es, digest).pairing, sid)
    decreases |es|
  {
    if es != [] {
      Prefix(s, es, digest, Fresh);
      NeverActiveAgain(s, es[..|es| - 1], digest, sid);
      StepNeverActivates(Run(s, es[..|es| - 1], digest), es[|es| - 1], digest, sid);
    }
  }

  /** The session is closed, replaced by another or ended with the process; at any time after that, whatever
      happened in between, the answer of its resolver changes neither store nor record nor result. */
  lemma LateResolutionIsVoid(s: System, end: Event, es: seq<Event>, digest: Digest, who: Pending, decision: Decision,
                             base: string, newId: FolderId)
    requires Fresh(s, end) && (end.Close? || end.Start? || end.Restart?) && who.sid in s.used
    requires Throughout(Step(s, end, digest), es, digest, Fresh)
    ensures var s' := Run(Step(s, end, digest), es, digest);
            Resolved(s'.pairing, s'.tables, who, decision, base, newId)
              == (s'.pairing.(resolvers := s'.pairing.resolvers - multiset{who}), s'.tables)
  {
    var s1 := Step(s, end, digest);
    NeverActiveAgain(s1, es, digest, who.sid);
    var s' := Run(s1, es, digest);
    InactiveResolution(s'.pairing, s'.tables, who, decision, base, newId);
  }

  // ----- what goes wrong without the repair condition -----

  /** A library with one folder, backed up from device "A" in an earlier life of the application. */
  const BACKED_UP := System(NO_SESSION,
    Tables(map[1 := "/m/Phone"], map["A" := Device("ios", "Phone", "key")], map[1 := Binding("A", STATE_PAIRED)], map[], map[]),
    map[], {})
  const AGAIN := BackupAgain(1, "/m/Phone", "A")
  const OTHER_PHONE := Pending("s", Ios, "p", "B", "Phone", AGAIN)

  /** The folder is chosen to be backed up again, another phone claims the session, the folder is deleted while
      the user is being asked, and the user says to go on. */
  const DELETED_MEANWHILE := [
    Start("s", "/m", Some(AGAIN), "p", 0),
    ClaimRequest(Claim(true, "s", "p", Some(Ios), "B", "Phone", "Phone"), 2, 0),
    DeleteFolder({"/m/Phone"}),
    Resolve(OTHER_PHONE, ContinueInSelectedFolder, "Phone", 2)]

  lemma RunUpTo(s: System, es: seq<Event>, i: nat, digest: Digest)
    requires 0 < i <= |es|
    ensures Run(s, es[..i], digest) == Step(Run(s, es[..i - 1], digest), es[i - 1], digest)
  {
    assert es[..i][..i - 1] == es[..i - 1];
  }

  /** The run after its first `i` events. */
  ghost function Meanwhile(i: nat, digest: Digest): System
    requires i <= 4
  {
    Run(BACKED_UP, DELETED_MEANWHILE[..i], digest)
  }

  lemma SessionStarted(digest: Digest)
    ensures Meanwhile(1, digest) == System(Started(NO_SESSION, "s", "/m", Some(AGAIN), "p", 0), BACKED_UP.tables, map[], {"s"})
  {
    RunUpTo(BACKED_UP, DELETED_MEANWHILE, 1, digest);
    assert DELETED_MEANWHILE[..0] == [];
  }

  lemma MismatchClaimed(digest: Digest)
    ensures var s := Meanwhile(2, digest);
            s.tables == BACKED_UP.tables && IsActive(s.pairing, "s") && "s" in s.pairing.records
            && s.pairing.records["s"].state == PairingMismatched && OTHER_PHONE in s.pairing.resolvers
  {
    SessionStarted(digest);
    RunUpTo(BACKED_UP, DELETED_MEANWHILE, 2, digest);
    assert "A" != "B" by {
      assert "A"[0] != "B"[0];
    }
  }

  lemma FolderDeleted(digest: Digest)
    ensures var s := Meanwhile(3, digest);
            s.tables == EMPTY_STORE && IsActive(s.pairing, "s") && "s" in s.pairing.records
            && s.pairing.records["s"].state == PairingMismatched && OTHER_PHONE in s.pairing.resolvers
  {
    MismatchClaimed(digest);
    RunUpTo(BACKED_UP, DELETED_MEANWHILE, 3, digest);
    assert Meanwhile(3, digest) == Meanwhile(2, digest).(tables := WithoutFolders(BACKED_UP.tables, {"/m/Phone"}));
    FolderGone(BACKED_UP.tables);
  }

  lemma FolderGone(t: Tables)
    requires t == BACKED_UP.tables
    ensures WithoutFolders(t, {"/m/Phone"}) == EMPTY_STORE
  {
    assert FolderIds(t, {"/m/Phone"}) == {1};
    assert BoundDevices(t, {1}) == {"A"} by {
      assert 1 in t.bindings && t.bindings[1].device == "A";
    }
  }

  lemma BackedUpIsSound(digest: Digest)
    ensures Inv(BACKED_UP, digest)
  {
    assert IsBound(BACKED_UP.tables, "A") by {
      assert 1 in BACKED_UP.tables.bindings;
    }
  }

  /** The session is accepted and has its row, and no transfer request finds it. */
  ghost predicate AcceptedUnseen(p: Pairing, t: Tables) {
    "s" in p.records && p.records["s"].state == PairingCompleted && "s" in t.sessions && Context(t, "s", "B").None?
  }

  lemma AcceptedOnEmptyStore(p: Pairing)
    requires IsActive(p, "s") && "s" in p.records && p.records["s"].state == PairingMismatched
    ensures var (p', t') := Resolved(p, EMPTY_STORE, OTHER_PHONE, ContinueInSelectedFolder, "Phone", 2);
            AcceptedUnseen(p', t')
  {
    RepairOfEmptyStore();
    assert AGAIN.expected != "B" by {
      assert "A"[0] != "B"[0];
    }
  }

  lemma AnsweredOnEmptyStore(s: System, digest: Digest)
    requires s.tables == EMPTY_STORE
    requires IsActive(s.pairing, "s") && "s" in s.pairing.records && s.pairing.records["s"].state == PairingMismatched
    ensures var s' := Step(s, Resolve(OTHER_PHONE, ContinueInSelectedFolder, "Phone", 2), digest);
            AcceptedUnseen(s'.pairing, s'.tables)
  {
    AcceptedOnEmptyStore(s.pairing);
    StepOfAnswer(s, digest);
  }

  lemma StepOfAnswer(s: System, digest: Digest)
    ensures var s' := Step(s, Resolve(OTHER_PHONE, ContinueInSelectedFolder, "Phone", 2), digest);
            var (p', t') := Resolved(s.pairing, s.tables, OTHER_PHONE, ContinueInSelectedFolder, "Phone", 2);
            s'.pairing == p' && s'.tables == t'
  {
  }

  /** From a state in which every invariant holds, by a run in which only the repair is not safe: repair does not
      raise, the session is accepted, and no transfer request will ever find it. */
  lemma RepairAfterDeletionLosesSession(digest: Digest)
    ensures Inv(BACKED_UP, digest) && Throughout(BACKED_UP, DELETED_MEANWHILE, digest, Fresh)
    ensures AcceptedUnseen(Run(BACKED_UP, DELETED_MEANWHILE, digest).pairing, Run(BACKED_UP, DELETED_MEANWHILE, digest).tables)
  {
    BackedUpIsSound(digest);
    FolderDeleted(digest);
    forall i | 0 <= i < |DELETED_MEANWHILE|
      ensures Fresh(Run(BACKED_UP, DELETED_MEANWHILE[..i], digest), DELETED_MEANWHILE[i])
    {
      assert i == 3 ==> Run(BACKED_UP, DELETED_MEANWHILE[..i], digest) == Meanwhile(3, digest);
      assert i == 0 ==> DELETED_MEANWHILE[..0] == [];
    }
    AnsweredOnEmptyStore(Meanwhile(3, digest), digest);
    LastAnswer(digest);
  }

  lemma LastAnswer(digest: Digest)
    ensures Run(BACKED_UP, DELETED_MEANWHILE, digest)
            == Step(Meanwhile(3, digest), Resolve(OTHER_PHONE, ContinueInSelectedFolder, "Phone", 2), digest)
  {
    RunUpTo(BACKED_UP, DELETED_MEANWHILE, 4, digest);
    assert DELETED_MEANWHILE[..4] == DELETED_MEANWHILE;
  }

  lemma RepairOfEmptyStore()
    ensures var t := WithDevice(EMPTY_STORE, "B", Device("ios", "Phone", KeyMaterial("s", "p", Ios)));
            RepairedStore(t, 1, "A", "B") == Repaired(t)
  {
    var t := WithDevice(EMPTY_STORE, "B", Device("ios", "Phone", KeyMaterial("s", "p", Ios)));
    assert "A" != "B" by {
      assert "A"[0] != "B"[0];
    }
    assert t.devices - {"A"} == t.devices;
    assert ReboundAssets(t.assets, "A", "B") == t.assets;
    assert RepairedStore(t, 1, "A", "B").Repaired?;
    assert RepairedStore(t, 1, "A", "B").tables.sessions == t.sessions;
    assert RepairedStore(t, 1, "A", "B").tables.bindings == t.bindings;
  }
}
