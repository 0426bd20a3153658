/** The whole desktop side as one state machine: pairing service, store and library directory. A run is any
    list of requests, user actions, resolver threads and restarts of the application; the theorems hold after
    every run. */
module BackupSystem {
  import opened Options
  import opened Octets
  import opened BackupStateMachine
  import opened PairingStore
  import opened StoreIntegrity
  import opened TransferService
  import opened TransferProofs
  import opened AssetUploadStream
  import opened PairingService
  import opened PairingProofs

  /** `used` are the session ids drawn so far, in this life of the process or an earlier one. */
  datatype System = System(pairing: Pairing, tables: Tables, files: Files, used: set<SessionId>)

  datatype Event =
    | Start(sid: SessionId, root: string, context: Option<BackupAgain>, passcode: string, now: int)
    | Refresh(platform: Platform, passcode: string, now: int)
    | Close
    | Restart
    | ClaimRequest(claim: Claim, newId: FolderId, now: int)
    | Resolve(who: Pending, decision: Decision, base: string, newId: FolderId)
    | AddFolder(path: string, newId: FolderId)
    | DeleteFolder(paths: set<string>)
    | TransferStart(sid: SessionId, device: DeviceId, total: int, proofOk: bool)
    | AssetUpload(upload: Upload, received: Bytes)
    | StreamError(sid: SessionId, device: DeviceId, proofOk: bool)
    | TransferComplete(sid: SessionId, device: DeviceId, transferred: int, failed: int, stopped: bool, proofOk: bool)
    | StopBackup(sid: SessionId, device: DeviceId)

  function Initial(files: Files): System {
    System(NO_SESSION, EMPTY_STORE, files, {})
  }

  ghost function Step(s: System, e: Event, digest: Digest): System {
    match e
    case Start(sid, root, context, passcode, now) =>
      s.(pairing := Started(s.pairing, sid, root, context, passcode, now), used := s.used + {sid})
    case Refresh(platform, passcode, now) =>
      (match Refreshed(s.pairing, platform, passcode, now)
       case None => s
       case Some(p) => s.(pairing := p))
    case Close => s.(pairing := Closed(s.pairing))
    case Restart => s.(pairing := NO_SESSION)
    case ClaimRequest(claim, newId, now) =>
      var (p, t, _) := Claimed(s.pairing, s.tables, claim, newId, now);
      s.(pairing := p, tables := t)
    case Resolve(who, decision, base, newId) =>
      var (p, t) := Resolved(s.pairing, s.tables, who, decision, base, newId);
      s.(pairing := p, tables := t)
    case AddFolder(path, newId) => s.(tables := WithFolder(s.tables, newId, path))
    case DeleteFolder(paths) => s.(tables := WithoutFolders(s.tables, paths))
    case TransferStart(sid, device, total, proofOk) => s.(tables := StartEffect(s.tables, sid, device, total, proofOk).0)
    case AssetUpload(u, received) =>
      var effect := UploadEffect(s.tables, s.files, Arrived(u, received, digest), digest);
      s.(tables := effect.tables, files := effect.files)
    case StreamError(sid, device, proofOk) => s.(tables := StreamErrorEffect(s.tables, sid, device, proofOk))
    case TransferComplete(sid, device, transferred, failed, stopped, proofOk) =>
      s.(tables := CompleteEffect(s.tables, sid, device, transferred, failed, stopped, proofOk).0)
    case StopBackup(sid, device) => s.(tables := StopEffect(s.tables, sid, device))
  }

  /** Session ids are drawn at random and never again, and a resolver thread runs once. */
  ghost predicate Fresh(s: System, e: Event) {
    match e
    case Start(sid, _, _, _, _) => sid !in s.used
    case Resolve(who, _, _, _) => who in s.pairing.resolvers
    case _ => true
  }

  /** What soundness of the store relies on besides: row ids are new, and a repair that does not raise strands
      nobody. The last is an exact condition: see `RepairSoundIff`. */
  ghost predicate Enabled(s: System, e: Event) {
    && Fresh(s, e)
    && match e
       case ClaimRequest(_, newId, _) => newId !in s.tables.folders
       case Resolve(who, decision, _, newId) =>
         && newId !in s.tables.folders
         && (decision == ContinueInSelectedFolder && IsActive(s.pairing, who.sid) ==>
               MayRepair(s.tables, who.context.folder, who.context.expected, who.device))
       case AddFolder(_, newId) => newId !in s.tables.folders
       case _ => true
  }

  /** A repair that raises does nothing. */
  ghost predicate MayRepair(t: Tables, folder: FolderId, previous: DeviceId, replacement: DeviceId) {
    RepairConflict(t, folder, replacement) || SafeToRepair(t, folder, previous, replacement)
  }

  /** The stop button is not pressed too late: the session is transferring, or stopped already. */
  ghost predicate Timely(s: System, e: Event) {
    e.StopBackup? && Context(s.tables, e.sid, e.device).Some? ==>
      Context(s.tables, e.sid, e.device).value.status in {Transferring, StoppedByMobile}
  }

  ghost function Run(s: System, es: seq<Event>, digest: Digest): System {
    if es == [] then s else Step(Run(s, es[..|es| - 1], digest), es[|es| - 1], digest)
  }

  /** Every event of the run is `ok` in the state it meets. */
  ghost predicate Throughout(s: System, es: seq<Event>, digest: Digest, ok: (System, Event) -> bool) {
    forall i :: 0 <= i < |es| ==> ok(Run(s, es[..i], digest), es[i])
  }

  /** A row in the session table is that of a completed pairing, as far as the process remembers it. */
  ghost predicate SessionsWerePaired(p: Pairing, t: Tables) {
    forall sid :: sid in t.sessions && sid in p.records ==> p.records[sid].state == PairingCompleted
  }

  ghost predicate PairingInv(s: System) {
    PairingOk(s.pairing) && s.pairing.records.Keys <= s.used
  }

  ghost predicate SessionsInv(s: System) {
    SessionsWerePaired(s.pairing, s.tables) && s.tables.sessions.Keys <= s.used
  }

  ghost predicate Inv(s: System, digest: Digest) {
    Sound(s.tables, s.files, digest) && PairingInv(s) && SessionsInv(s)
  }

  /** Only `sid` may be a new session; every other row keeps everything but its device. */
  ghost predicate SessionsGrowBy(t: Tables, t': Tables, sid: SessionId) {
    && (forall s :: s in t'.sessions ==> s in t.sessions || s == sid)
    && t.sessions.Keys <= t'.sessions.Keys
    && (forall s :: s in t.sessions ==> t'.sessions[s].status == t.sessions[s].status)
    && (forall s :: s in t.sessions ==> t'.sessions[s].transferred == t.sessions[s].transferred)
  }

  // ----- the store under an acceptance -----

  lemma RepairOfUnboundKeepsSound(t: Tables, files: Files, digest: Digest, folder: FolderId, previous: DeviceId,
                                  replacement: DeviceId)
    requires Sound(t, files, digest) && replacement in t.devices && previous != replacement
    requires SafeToRepair(t, folder, previous, replacement) && !IsBound(t, previous)
    requires RepairedStore(t, folder, previous, replacement).Repaired?
    ensures Sound(RepairedStore(t, folder, previous, replacement).tables, files, digest)
  {
    var t' := RepairedStore(t, folder, previous, replacement).tables;
    RepairOfUnboundKept(t, folder, previous, replacement);
    RepairOfUnboundIs(t, folder, previous, replacement);
    forall f | f in t'.bindings && f in t'.folders && IsBound(t, t'.bindings[f].device)
      ensures f in t.bindings && t.bindings[f].device == t'.bindings[f].device
    {
      if f == folder {
        var g :| g in t.bindings && t.bindings[g].device == replacement;
        assert g == folder;
      }
    }
    RecordsCarryOver(t, t', files, files, digest);
  }

  lemma RepairKeepsAll(t: Tables, files: Files, digest: Digest, folder: FolderId, previous: DeviceId, replacement: DeviceId)
    requires Sound(t, files, digest) && replacement in t.devices && previous != replacement
    requires SafeToRepair(t, folder, previous, replacement)
    requires RepairedStore(t, folder, previous, replacement).Repaired?
    ensures Sound(RepairedStore(t, folder, previous, replacement).tables, files, digest)
    ensures RepairedStore(t, folder, previous, replacement).tables.sessions.Keys == t.sessions.Keys
  {
    if IsBound(t, previous) {
      RepairKeepsSound(t, files, digest, folder, previous, replacement);
    } else {
      RepairOfUnboundKeepsSound(t, files, digest, folder, previous, replacement);
    }
  }

  lemma DeviceKeepsSound(t: Tables, files: Files, digest: Digest, device: DeviceId, row: Device)
    requires Sound(t, files, digest)
    ensures Sound(WithDevice(t, device, row), files, digest)
  {
    DeviceKept(t, device, row);
    RecordsCarryOver(t, WithDevice(t, device, row), files, files, digest);
  }

  lemma SessionKeepsSound(t: Tables, files: Files, digest: Digest, sid: SessionId, device: DeviceId, folder: FolderId)
    requires Sound(t, files, digest) && folder in t.bindings && t.bindings[folder].device == device
    ensures Sound(WithSession(t, sid, device, folder), files, digest)
  {
    SessionKept(t, sid, device, folder);
    RecordsCarryOver(t, WithSession(t, sid, device, folder), files, files, digest);
  }

  lemma FolderForKeepsSound(t: Tables, files: Files, digest: Digest, root: string, base: string, device: DeviceId, newId: FolderId)
    requires Sound(t, files, digest) && device in t.devices && newId !in t.folders
    ensures var o := FolderFor(t, root, base, device, newId);
            && o.FolderRecord? && Sound(o.tables, files, digest) && o.tables.sessions == t.sessions
            && o.folder in o.tables.bindings && o.tables.bindings[o.folder].device == device
  {
    FolderForKept(t, root, base, device, newId);
    var o := FolderFor(t, root, base, device, newId);
    forall f | f in o.tables.bindings && f in o.tables.folders && IsBound(t, o.tables.bindings[f].device)
      ensures f in t.bindings && f in t.folders && t.folders[f] == o.tables.folders[f]
      ensures t.bindings[f].device == o.tables.bindings[f].device
    {
      var g :| g in t.bindings && t.bindings[g].device == o.tables.bindings[f].device;
      assert g in o.tables.bindings && o.tables.bindings[g].device == t.bindings[g].device;
      assert f == g;
    }
    RecordsCarryOver(t, o.tables, files, files, digest);
  }

  lemma InsertionSound(t: Tables, t2: Tables, files: Files, digest: Digest, who: Pending, folder: FolderId, path: string)
    requires Sound(t2, files, digest) && t2.sessions.Keys == t.sessions.Keys && StatusesSame(t, t2) && who.sid !in t.sessions
    requires folder in t2.bindings && t2.bindings[folder].device == who.device
    ensures var (t', stored) := InsertedSession(t2, who, folder, path);
            && Sound(t', files, digest) && SessionsGrowBy(t, t', who.sid) && stored.Some?
            && who.sid in t'.sessions && t'.sessions[who.sid].status == Paired
  {
    SessionKeepsSound(t2, files, digest, who.sid, who.device, folder);
  }

  ghost predicate StatusesSame(t: Tables, t': Tables) {
    forall s :: s in t.sessions && s in t'.sessions ==>
      t'.sessions[s].status == t.sessions[s].status && t'.sessions[s].transferred == t.sessions[s].transferred
  }

  /** What an acceptance promises of the store. */
  ghost predicate AcceptedWell(t: Tables, t': Tables, stored: bool, sid: SessionId, files: Files, digest: Digest) {
    && Sound(t', files, digest) && SessionsGrowBy(t, t', sid)
    && (stored <==> sid in t'.sessions)
    && (stored ==> t'.sessions[sid].status == Paired)
    && (!stored ==> t'.sessions == t.sessions)
  }

  lemma RepairAcceptedSound(t: Tables, files: Files, digest: Digest, who: Pending, context: BackupAgain)
    requires Sound(t, files, digest) && who.sid !in t.sessions && who.device in t.devices && who.device != context.expected
    requires SafeToRepair(t, context.folder, context.expected, who.device)
    requires RepairedStore(t, context.folder, context.expected, who.device).Repaired?
    ensures var t2 := RepairedStore(t, context.folder, context.expected, who.device).tables;
            var (t', folder) := InsertedSession(t2, who, context.folder, context.folderPath);
            folder.Some? && AcceptedWell(t, t', true, who.sid, files, digest)
  {
    var t2 := RepairedStore(t, context.folder, context.expected, who.device).tables;
    RepairKeepsAll(t, files, digest, context.folder, context.expected, who.device);
    RepairBinds(t, context.folder, context.expected, who.device);
    InsertionSound(t, t2, files, digest, who, context.folder, context.folderPath);
  }

  lemma RepairBinds(t: Tables, folder: FolderId, previous: DeviceId, replacement: DeviceId)
    requires folder in t.bindings && previous != replacement
    requires RepairedStore(t, folder, previous, replacement).Repaired?
    ensures var t' := RepairedStore(t, folder, previous, replacement).tables;
            StatusesSame(t, t') && folder in t'.bindings && t'.bindings[folder].device == replacement
  {
  }

  lemma FolderAcceptedSound(t: Tables, files: Files, digest: Digest, who: Pending, root: string, base: string, newId: FolderId)
    requires Sound(t, files, digest) && newId !in t.folders && who.sid !in t.sessions && who.device in t.devices
    ensures var o := FolderFor(t, root, base, who.device, newId);
            o.FolderRecord? && var (t', folder) := InsertedSession(o.tables, who, o.folder, o.path);
            folder.Some? && AcceptedWell(t, t', true, who.sid, files, digest)
  {
    FolderForKeepsSound(t, files, digest, root, base, who.device, newId);
    var o := FolderFor(t, root, base, who.device, newId);
    InsertionSound(t, o.tables, files, digest, who, o.folder, o.path);
  }

  /** The database half of an acceptance keeps the store sound; unless a repair conflict raises, it adds
      exactly the session row asked for, and the primary key is never violated. */
  lemma AcceptedStoreSound(t: Tables, files: Files, digest: Digest, who: Pending, root: string, base: string,
                           context: Option<BackupAgain>, decision: Decision, newId: FolderId)
    requires Sound(t, files, digest) && newId !in t.folders && who.sid !in t.sessions
    requires context.Some? && decision == ContinueInSelectedFolder ==>
               MayRepair(t, context.value.folder, context.value.expected, who.device)
    ensures var (t', folder) := AcceptedStore(t, who, root, base, context, decision, newId);
            AcceptedWell(t, t', folder.Some?, who.sid, files, digest)
            && (folder.None? ==> decision == ContinueInSelectedFolder)
  {
    if context.Some? && who.device != context.value.expected && decision == ContinueInSelectedFolder {
      AcceptedByRepair(t, files, digest, who, root, base, context.value, newId);
    } else {
      AcceptedByFolder(t, files, digest, who, root, base, newId);
    }
  }

  function DeviceRow(who: Pending): Device {
    Device(PlatformName(who.platform), who.name, KeyMaterial(who.sid, who.passcode, who.platform))
  }

  lemma AcceptedByRepair(t: Tables, files: Files, digest: Digest, who: Pending, root: string, base: string,
                         context: BackupAgain, newId: FolderId)
    requires Sound(t, files, digest) && who.sid !in t.sessions && who.device != context.expected
    requires MayRepair(t, context.folder, context.expected, who.device)
    ensures var (t', folder) := AcceptedStore(t, who, root, base, Some(context), ContinueInSelectedFolder, newId);
            AcceptedWell(t, t', folder.Some?, who.sid, files, digest)
  {
    var t1 := WithDevice(t, who.device, DeviceRow(who));
    DeviceKeepsSound(t, files, digest, who.device, DeviceRow(who));
    if RepairedStore(t1, context.folder, context.expected, who.device).Repaired? {
      SafetyIgnoresDevices(t, t1, context.folder, context.expected, who.device);
      RepairAcceptedSound(t1, files, digest, who, context);
      var t2 := RepairedStore(t1, context.folder, context.expected, who.device).tables;
      SameSessionsAccepted(t, t1, InsertedSession(t2, who, context.folder, context.folderPath).0, true, who.sid, files, digest);
    }
  }

  lemma AcceptedByFolder(t: Tables, files: Files, digest: Digest, who: Pending, root: string, base: string, newId: FolderId)
    requires Sound(t, files, digest) && newId !in t.folders && who.sid !in t.sessions
    ensures var o := FolderFor(WithDevice(t, who.device, DeviceRow(who)), root, base, who.device, newId);
            o.FolderRecord? && var (t', folder) := InsertedSession(o.tables, who, o.folder, o.path);
            folder.Some? && AcceptedWell(t, t', true, who.sid, files, digest)
  {
    var t1 := WithDevice(t, who.device, DeviceRow(who));
    DeviceKeepsSound(t, files, digest, who.device, DeviceRow(who));
    FolderAcceptedSound(t1, files, digest, who, root, base, newId);
    var o := FolderFor(t1, root, base, who.device, newId);
    SameSessionsAccepted(t, t1, InsertedSession(o.tables, who, o.folder, o.path).0, true, who.sid, files, digest);
  }

  lemma SameSessionsAccepted(t: Tables, t1: Tables, t': Tables, stored: bool, sid: SessionId, files: Files, digest: Digest)
    requires t1.sessions == t.sessions && AcceptedWell(t1, t', stored, sid, files, digest)
    ensures AcceptedWell(t, t', stored, sid, files, digest)
  {
  }

  lemma SafetyIgnoresDevices(t: Tables, t': Tables, folder: FolderId, previous: DeviceId, replacement: DeviceId)
    requires t' == t.(devices := t'.devices)
    requires SafeToRepair(t, folder, previous, replacement)
    ensures SafeToRepair(t', folder, previous, replacement)
  {
    assert IsBound(t', previous) ==> IsBound(t, previous);
  }

  // ----- one step: pairing records -----

  /** What a step may do to pairing: records move along the table, decisions stand, and only a restart forgets;
      a new record has an id never drawn before. */
  ghost predicate PairingMove(s: System, e: Event, s': System) {
    && PairingInv(s') && s.used <= s'.used
    && (!e.Restart? ==> RecordsMoveLegally(s.pairing, s'.pairing) && DecisionsStand(s.pairing, s'.pairing))
    && (forall sid :: sid in s'.pairing.records && sid !in s.pairing.records ==> sid !in s.used)
  }

  lemma AcceptanceKeys(p: Pairing, t: Tables, who: Pending, base: string, context: Option<BackupAgain>, decision: Decision,
                       newId: FolderId)
    requires PairingOk(p)
    ensures Acceptance(p, t, who, base, context, decision, newId).0.records.Keys == p.records.Keys
  {
  }

  lemma ClaimKeys(p: Pairing, t: Tables, c: Claim, newId: FolderId, now: int)
    requires PairingOk(p)
    ensures Claimed(p, t, c, newId, now).0.records.Keys == p.records.Keys
  {
    if p.active.Some? && c.platform.Some? && c.platform.value in p.active.value.tokens {
      AcceptanceKeys(p, t, Claimant(p, c), c.base, p.context, BackupInNewFolder, newId);
    }
  }

  lemma ResolveKeys(p: Pairing, t: Tables, who: Pending, decision: Decision, base: string, newId: FolderId)
    requires PairingOk(p) && who in p.resolvers
    ensures Resolved(p, t, who, decision, base, newId).0.records.Keys == p.records.Keys
  {
    var q := p.(resolvers := p.resolvers - multiset{who});
    WithoutResolverOk(p, who);
    AcceptanceKeys(q, t, who, base, Some(who.context), decision, newId);
  }

  lemma ClaimMoves(s: System, c: Claim, newId: FolderId, now: int, digest: Digest)
    requires PairingInv(s)
    ensures PairingMove(s, ClaimRequest(c, newId, now), Step(s, ClaimRequest(c, newId, now), digest))
  {
    ClaimedOk(s.pairing, s.tables, c, newId, now);
    ClaimKeys(s.pairing, s.tables, c, newId, now);
  }

  lemma ResolveMoves(s: System, who: Pending, decision: Decision, base: string, newId: FolderId, digest: Digest)
    requires PairingInv(s) && who in s.pairing.resolvers
    ensures PairingMove(s, Resolve(who, decision, base, newId), Step(s, Resolve(who, decision, base, newId), digest))
  {
    ResolvedOk(s.pairing, s.tables, who, decision, base, newId);
    ResolveKeys(s.pairing, s.tables, who, decision, base, newId);
  }

  lemma UserMoves(s: System, e: Event, digest: Digest)
    requires PairingInv(s) && Fresh(s, e) && (e.Start? || e.Refresh? || e.Close? || e.Restart?)
    ensures PairingMove(s, e, Step(s, e, digest))
  {
    match e {
      case Start(sid, root, context, passcode, now) => StartedOk(s.pairing, sid, root, context, passcode, now);
      case Refresh(platform, passcode, now) => RefreshedOk(s.pairing, platform, passcode, now);
      case Close => ClosedOk(s.pairing);
      case Restart =>
    }
  }

  /** Pairing is in order whatever becomes of the store: nothing is asked of its rows. */
  lemma PairingStepOk(s: System, e: Event, digest: Digest)
    requires PairingInv(s) && Fresh(s, e)
    ensures PairingMove(s, e, Step(s, e, digest))
  {
    if e.ClaimRequest? {
      ClaimMoves(s, e.claim, e.newId, e.now, digest);
    } else if e.Resolve? {
      ResolveMoves(s, e.who, e.decision, e.base, e.newId, digest);
    } else if e.Start? || e.Refresh? || e.Close? || e.Restart? {
      UserMoves(s, e, digest);
    } else {
      StoreOnly(s, e, digest);
    }
  }

  lemma StoreOnly(s: System, e: Event, digest: Digest)
    requires !(e.ClaimRequest? || e.Resolve? || e.Start? || e.Refresh? || e.Close? || e.Restart?)
    ensures Step(s, e, digest).pairing == s.pairing && Step(s, e, digest).used == s.used
  {
  }

  // ----- one step: files -----

  /** Nothing at all is asked of the state here. */
  lemma FilesStay(s: System, e: Event, digest: Digest)
    ensures forall p :: p in s.files ==> p in Step(s, e, digest).files && Step(s, e, digest).files[p] == s.files[p]
  {
    if e.AssetUpload? {
      UploadNeverOverwrites(s.tables, s.files, Arrived(e.upload, e.received, digest), digest);
    }
  }

  // ----- one step: session rows -----

  /** Rows keep status and count, except that of `sid`, which if `added` is a new one. */
  ghost predicate OnlyAdds(t: Tables, t': Tables, sid: SessionId, added: bool) {
    && (added ==> sid in t'.sessions)
    && forall s :: s in t'.sessions ==>
         || (s == sid && added && t'.sessions[s].status == Paired)
         || (s in t.sessions && t'.sessions[s].status == t.sessions[s].status
             && t'.sessions[s].transferred == t.sessions[s].transferred)
  }

  /** Rows may go, none is new, and those that stay keep status and count. */
  ghost predicate NoneAdded(t: Tables, t': Tables) {
    forall s :: s in t'.sessions ==>
      s in t.sessions && t'.sessions[s].status == t.sessions[s].status
      && t'.sessions[s].transferred == t.sessions[s].transferred
  }

  lemma FolderForAddsNone(t: Tables, root: string, base: string, device: DeviceId, newId: FolderId)
    ensures NoneAdded(t, FolderFor(t, root, base, device, newId).tables)
  {
  }

  lemma RepairAddsNone(t: Tables, folder: FolderId, previous: DeviceId, replacement: DeviceId)
    requires RepairedStore(t, folder, previous, replacement).Repaired?
    ensures NoneAdded(t, RepairedStore(t, folder, previous, replacement).tables)
  {
  }

  lemma InsertedAdds(t: Tables, t2: Tables, who: Pending, folder: FolderId, path: string)
    requires NoneAdded(t, t2)
    ensures var (t', stored) := InsertedSession(t2, who, folder, path);
            OnlyAdds(t, t', who.sid, stored.Some?)
            && (stored.Some? ==> t'.sessions[who.sid].device == who.device && t'.sessions[who.sid].folder == stored.value.0)
  {
  }

  lemma AcceptedStoreAdds(t: Tables, who: Pending, root: string, base: string, context: Option<BackupAgain>,
                          decision: Decision, newId: FolderId)
    ensures var (t', folder) := AcceptedStore(t, who, root, base, context, decision, newId);
            OnlyAdds(t, t', who.sid, folder.Some?)
            && (folder.Some? ==> t'.sessions[who.sid].device == who.device && t'.sessions[who.sid].folder == folder.value.0)
  {
    var t1 := WithDevice(t, who.device, DeviceRow(who));
    if context.Some? && who.device != context.value.expected && decision == ContinueInSelectedFolder {
      var o := RepairedStore(t1, context.value.folder, context.value.expected, who.device);
      if o.Repaired? {
        RepairAddsNone(t1, context.value.folder, context.value.expected, who.device);
        InsertedAdds(t, o.tables, who, context.value.folder, context.value.folderPath);
      }
    } else {
      var o := FolderFor(t1, root, base, who.device, newId);
      FolderForAddsNone(t1, root, base, who.device, newId);
      if o.FolderRecord? {
        InsertedAdds(t, o.tables, who, o.folder, o.path);
      }
    }
  }

  lemma AcceptanceRecords(p: Pairing, sid: SessionId, device: DeviceId, folder: FolderId, path: string)
    requires PairingOk(p) && IsActive(p, sid) && p.records[sid].state != PairingCompleted
    ensures var p' := WithAcceptance(p, sid, device, folder, path);
            sid in p'.records && p'.records[sid].state == PairingCompleted
            && p'.records[sid].payload == PairingService.Payload.Payload(PairingCompleted, sid, Some(device), Some(folder), Some(path))
  {
    NoIgnoredTransition(p, sid);
  }

  ghost predicate Undecided(p: Pairing, sid: SessionId) {
    sid in p.records && p.records[sid].state in {PendingPairing, PairingExpired, PairingMismatched}
  }

  /** Session row and completed record appear together or not at all, and name the same device and folder. */
  lemma AcceptanceLinks(p: Pairing, t: Tables, who: Pending, base: string, context: Option<BackupAgain>,
                        decision: Decision, newId: FolderId)
    requires PairingOk(p) && (IsActive(p, who.sid) ==> Undecided(p, who.sid))
    ensures var (p', t', answer) := Acceptance(p, t, who, base, context, decision, newId);
            && OnlyAdds(t, t', who.sid, answer.Answered?)
            && (who.sid !in t.sessions ==> (answer.Answered? <==> who.sid in t'.sessions))
            && (answer.Answered? ==>
                  && Undecided(p, who.sid) && who.sid in p'.records && p'.records[who.sid].state == PairingCompleted
                  && p'.records[who.sid].payload.device == Some(t'.sessions[who.sid].device)
                  && p'.records[who.sid].payload.folder == Some(t'.sessions[who.sid].folder))
            && (!answer.Answered? ==> p' == p)
  {
    if IsActive(p, who.sid) {
      AcceptedStoreAdds(t, who, p.active.value.root, base, context, decision, newId);
      var (t', folder) := AcceptedStore(t, who, p.active.value.root, base, context, decision, newId);
      if folder.Some? {
        AcceptanceRecords(p, who.sid, who.device, folder.value.0, folder.value.1);
      }
    }
  }

  /** A claim touches the store only by accepting an undecided session. */
  lemma ClaimTouchesStoreByAccepting(p: Pairing, t: Tables, c: Claim, newId: FolderId, now: int)
    requires PairingOk(p)
    ensures Claimed(p, t, c, newId, now).1 == t ||
            (p.active.Some? && c.sid == p.active.value.sid && !Decided(p) &&
             c.platform.Some? && c.platform.value in p.active.value.tokens &&
             Claimed(p, t, c, newId, now) == Acceptance(p, t, Claimant(p, c), c.base, p.context, BackupInNewFolder, newId))
  {
  }

  /** Only claims and resolutions add a session row, only for a session not yet decided, which then is. */
  ghost predicate AcceptsInto(p: Pairing, p': Pairing, t: Tables, t': Tables, sid: SessionId) {
    OnlyAdds(t, t', sid, false)
    || (OnlyAdds(t, t', sid, true) && Undecided(p, sid) && sid in p'.records && p'.records[sid].state == PairingCompleted)
  }

  lemma ClaimAdds(s: System, c: Claim, newId: FolderId, now: int, digest: Digest)
    requires PairingOk(s.pairing)
    ensures var s' := Step(s, ClaimRequest(c, newId, now), digest);
            AcceptsInto(s.pairing, s'.pairing, s.tables, s'.tables, c.sid)
  {
    var p, t := s.pairing, s.tables;
    ClaimTouchesStoreByAccepting(p, t, c, newId, now);
    if Claimed(p, t, c, newId, now).1 != t {
      UndecidedStage(p);
      AcceptanceLinks(p, t, Claimant(p, c), c.base, p.context, BackupInNewFolder, newId);
    }
  }

  lemma ResolveAdds(s: System, who: Pending, decision: Decision, base: string, newId: FolderId, digest: Digest)
    requires PairingOk(s.pairing) && who in s.pairing.resolvers
    ensures var s' := Step(s, Resolve(who, decision, base, newId), digest);
            AcceptsInto(s.pairing, s'.pairing, s.tables, s'.tables, who.sid)
  {
    var q := s.pairing.(resolvers := s.pairing.resolvers - multiset{who});
    WithoutResolverOk(s.pairing, who);
    if decision !in {Cancel, ResolverFailed} {
      AcceptanceLinks(q, s.tables, who, base, Some(who.context), decision, newId);
    }
  }

  /** The session a claim or a resolution is about. */
  ghost function Subject(e: Event): Option<SessionId> {
    match e
    case ClaimRequest(c, _, _) => Some(c.sid)
    case Resolve(who, _, _, _) => Some(who.sid)
    case _ => None
  }

  lemma AcceptanceStepAdds(s: System, e: Event, digest: Digest)
    requires PairingOk(s.pairing) && Fresh(s, e) && Subject(e).Some?
    ensures var s' := Step(s, e, digest); AcceptsInto(s.pairing, s'.pairing, s.tables, s'.tables, Subject(e).value)
  {
    match e {
      case ClaimRequest(c, newId, now) => ClaimAdds(s, c, newId, now, digest);
      case Resolve(who, decision, base, newId) => ResolveAdds(s, who, decision, base, newId, digest);
    }
  }

  lemma OtherStepAddsNone(s: System, e: Event, digest: Digest)
    requires Subject(e).None?
    ensures Step(s, e, digest).tables.sessions.Keys <= s.tables.sessions.Keys
  {
    match e {
      case AssetUpload(u, received) => UploadKeepsSessionIds(s.tables, s.files, Arrived(u, received, digest), digest);
      case DeleteFolder(paths) => DeletionShrinks(s.tables, paths);
      case _ =>
    }
  }

  lemma DeletionShrinks(t: Tables, paths: set<string>)
    ensures forall s :: s in WithoutFolders(t, paths).sessions ==>
              s in t.sessions && WithoutFolders(t, paths).sessions[s] == t.sessions[s]
  {
  }

  /** Whatever a step is, a row it adds is that of a session it accepts, which was not decided before. */
  lemma InsertionNeedsUndecided(s: System, e: Event, digest: Digest, sid: SessionId)
    requires PairingOk(s.pairing) && Fresh(s, e)
    requires sid !in s.tables.sessions && sid in Step(s, e, digest).tables.sessions
    ensures Subject(e) == Some(sid) && Undecided(s.pairing, sid)
    ensures var s' := Step(s, e, digest);
            s'.tables.sessions[sid].status == Paired
            && sid in s'.pairing.records && s'.pairing.records[sid].state == PairingCompleted
  {
    if Subject(e).Some? {
      AcceptanceStepAdds(s, e, digest);
    } else {
      OtherStepAddsNone(s, e, digest);
      assert false;
    }
  }

  lemma SessionsStepOk(s: System, e: Event, digest: Digest)
    requires PairingInv(s) && SessionsInv(s) && Fresh(s, e)
    ensures SessionsInv(Step(s, e, digest))
  {
    var s' := Step(s, e, digest);
    PairingStepOk(s, e, digest);
    forall sid | sid in s'.tables.sessions
      ensures sid in s'.used
      ensures sid in s'.pairing.records ==> s'.pairing.records[sid].state == PairingCompleted
    {
      if sid !in s.tables.sessions {
        InsertionNeedsUndecided(s, e, digest, sid);
      }
    }
  }

  lemma AcceptedIsLegal(p: Pairing, p': Pairing, t: Tables, t': Tables, sid: SessionId)
    requires SessionsWerePaired(p, t) && AcceptsInto(p, p', t, t', sid)
    ensures StatusesMoveLegally(t, t')
  {
    assert Undecided(p, sid) ==> sid !in t.sessions;
  }

  lemma TransferStepIsLegal(s: System, e: Event, digest: Digest)
    requires e.TransferStart? || e.StreamError? || e.TransferComplete? || e.AssetUpload? || e.DeleteFolder?
    ensures StatusesMoveLegally(s.tables, Step(s, e, digest).tables)
  {
    match e {
      case AssetUpload(u, received) => UploadMovesLegally(s.tables, s.files, Arrived(u, received, digest), digest);
      case DeleteFolder(paths) => DeletionShrinks(s.tables, paths);
      case TransferStart(sid, device, total, proofOk) =>
        HandlersMoveLegally(s.tables, sid, device, total, 0, 0, false, proofOk);
      case StreamError(sid, device, proofOk) => HandlersMoveLegally(s.tables, sid, device, 0, 0, 0, false, proofOk);
      case TransferComplete(sid, device, transferred, failed, stopped, proofOk) =>
        HandlersMoveLegally(s.tables, sid, device, 0, transferred, failed, stopped, proofOk);
    }
  }

  lemma PlainStepIsLegal(s: System, e: Event, digest: Digest)
    requires e.Start? || e.Refresh? || e.Close? || e.Restart? || e.AddFolder?
    ensures StatusesMoveLegally(s.tables, Step(s, e, digest).tables)
  {
  }

  /** A step keeps the order of statuses exactly when it is not a stop that comes too late. */
  lemma StatusesStepIff(s: System, e: Event, digest: Digest)
    requires PairingInv(s) && SessionsInv(s) && Fresh(s, e)
    ensures StatusesMoveLegally(s.tables, Step(s, e, digest).tables) <==> Timely(s, e)
  {
    if Subject(e).Some? {
      AcceptanceStepAdds(s, e, digest);
      AcceptedIsLegal(s.pairing, Step(s, e, digest).pairing, s.tables, Step(s, e, digest).tables, Subject(e).value);
    } else if e.StopBackup? {
      if Context(s.tables, e.sid, e.device).Some? {
        StopRespectsOrderIff(s.tables, e.sid, e.device);
      }
    } else if e.Start? || e.Refresh? || e.Close? || e.Restart? || e.AddFolder? {
      PlainStepIsLegal(s, e, digest);
    } else {
      TransferStepIsLegal(s, e, digest);
    }
  }

  // ----- one step: the store and the library -----

  lemma ClaimStoreSound(s: System, c: Claim, newId: FolderId, now: int, digest: Digest)
    requires Inv(s, digest) && newId !in s.tables.folders
    ensures Sound(Claimed(s.pairing, s.tables, c, newId, now).1, s.files, digest)
  {
    var p := s.pairing;
    ClaimTouchesStoreByAccepting(p, s.tables, c, newId, now);
    if Claimed(p, s.tables, c, newId, now).1 != s.tables {
      UndecidedStage(p);
      AcceptedStoreSound(s.tables, s.files, digest, Claimant(p, c), p.active.value.root, c.base, p.context,
                         BackupInNewFolder, newId);
    }
  }

  lemma ResolveStoreSound(s: System, who: Pending, decision: Decision, base: string, newId: FolderId, digest: Digest)
    requires Inv(s, digest) && Enabled(s, Resolve(who, decision, base, newId))
    ensures Sound(Resolved(s.pairing, s.tables, who, decision, base, newId).1, s.files, digest)
  {
    WithoutResolverOk(s.pairing, who);
    if decision !in {Cancel, ResolverFailed} && IsActive(s.pairing, who.sid) {
      AcceptedStoreSound(s.tables, s.files, digest, who, s.pairing.active.value.root, base, Some(who.context), decision, newId);
    }
  }

  lemma TransferStateKeepsSound(t: Tables, files: Files, digest: Digest, sid: SessionId, device: DeviceId,
                                status: SessionStatus, state: string, total: Option<int>, transferred: Option<int>,
                                failed: Option<int>)
    requires Sound(t, files, digest)
    ensures Sound(WithTransferState(t, sid, device, status, state, total, transferred, failed), files, digest)
  {
    TransferStateKept(t, sid, device, status, state, total, transferred, failed);
    RecordsCarryOver(t, WithTransferState(t, sid, device, status, state, total, transferred, failed), files, files, digest);
  }

  lemma HandlersKeepSound(t: Tables, files: Files, digest: Digest, sid: SessionId, device: DeviceId, total: int,
                          transferred: int, failed: int, stopped: bool, proofOk: bool)
    requires Sound(t, files, digest)
    ensures Sound(StartEffect(t, sid, device, total, proofOk).0, files, digest)
    ensures Sound(StreamErrorEffect(t, sid, device, proofOk), files, digest)
    ensures Sound(CompleteEffect(t, sid, device, transferred, failed, stopped, proofOk).0, files, digest)
    ensures Sound(StopEffect(t, sid, device), files, digest)
  {
    match Context(t, sid, device) {
      case None =>
      case Some(c) =>
        TransferStateKeepsSound(t, files, digest, sid, device, Transferring,
                                NextFolderState(c.folderState, TransferStartedEvent), Some(total), Some(0), Some(0));
        TransferStateKeepsSound(t, files, digest, sid, device, Failed,
                                NextFolderState(c.folderState, TransferFailedEvent), None, None, None);
        TransferStateKeepsSound(t, files, digest, sid, device, CompletionStatus(failed, stopped),
                                NextFolderState(c.folderState, CompletionEvent(failed, stopped)),
                                None, Some(transferred), Some(failed));
        TransferStateKeepsSound(t, files, digest, sid, device, StoppedByMobile,
                                NextFolderState(c.folderState, TransferStoppedEvent), None, None, None);
    }
  }

  /** What the transport hands on carries the digest of the file it comes with. */
  lemma ArrivedHonest(u: Upload, received: Bytes, digest: Digest)
    ensures DigestHonest(Arrived(u, received, digest), digest)
  {
  }

  lemma FolderKeepsSound(t: Tables, files: Files, digest: Digest, newId: FolderId, path: string)
    requires Sound(t, files, digest) && newId !in t.folders
    ensures Sound(WithFolder(t, newId, path), files, digest)
  {
    FolderKept(t, newId, path);
    RecordsCarryOver(t, WithFolder(t, newId, path), files, files, digest);
  }

  lemma StoreStepOk(s: System, e: Event, digest: Digest)
    requires Inv(s, digest) && Enabled(s, e)
    ensures Sound(Step(s, e, digest).tables, Step(s, e, digest).files, digest)
  {
    match e {
      case ClaimRequest(c, newId, now) => ClaimStoreSound(s, c, newId, now, digest);
      case Resolve(who, decision, base, newId) => ResolveStoreSound(s, who, decision, base, newId, digest);
      case AddFolder(path, newId) => FolderKeepsSound(s.tables, s.files, digest, newId, path);
      case DeleteFolder(paths) => DeletionKeepsSound(s.tables, s.files, digest, paths);
      case AssetUpload(u, received) =>
        ArrivedHonest(u, received, digest);
        UploadKeepsSound(s.tables, s.files, Arrived(u, received, digest), digest);
      case TransferStart(sid, device, total, proofOk) =>
        HandlersKeepSound(s.tables, s.files, digest, sid, device, total, 0, 0, false, proofOk);
      case StreamError(sid, device, proofOk) =>
        HandlersKeepSound(s.tables, s.files, digest, sid, device, 0, 0, 0, false, proofOk);
      case TransferComplete(sid, device, transferred, failed, stopped, proofOk) =>
        HandlersKeepSound(s.tables, s.files, digest, sid, device, 0, transferred, failed, stopped, proofOk);
      case StopBackup(sid, device) => HandlersKeepSound(s.tables, s.files, digest, sid, device, 0, 0, 0, false, true);
      case _ =>
    }
  }

  /** The step theorem. */
  lemma EveryStepOk(s: System, e: Event, digest: Digest)
    requires Inv(s, digest) && Enabled(s, e)
    ensures var s' := Step(s, e, digest);
            && Inv(s', digest) && PairingMove(s, e, s')
            && (StatusesMoveLegally(s.tables, s'.tables) <==> Timely(s, e))
            && (forall p :: p in s.files ==> p in s'.files && s'.files[p] == s.files[p])
  {
    PairingStepOk(s, e, digest);
    SessionsStepOk(s, e, digest);
    StatusesStepIff(s, e, digest);
    StoreStepOk(s, e, digest);
    FilesStay(s, e, digest);
  }
}
