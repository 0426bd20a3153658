/** The pairing service: dt_image_search/mobile/mobile_pairing_service.py with the session draft and its
    tokens from mobile_pairing_session.py. Claims are atomic; the answer to a device mismatch arrives as a
    separate later step, from the resolver thread the claim started. Times are microseconds. */
module PairingService {
  import opened Options
  import opened BackupStateMachine
  import opened PairingStore

  datatype Platform = Android | Ios
  datatype Token = Token(passcode: string, expiresAt: int, generation: nat)
  datatype Draft = Draft(sid: SessionId, root: string, tokens: map<Platform, Token>)
  datatype BackupAgain = BackupAgain(folder: FolderId, folderPath: string, expected: DeviceId)
  datatype Decision = ContinueInSelectedFolder | BackupInNewFolder | Cancel | ResolverFailed

  datatype ResultState = ResultWaiting | ResultAccepted | ResultMismatched | ResultStopped | ResultExpired
  datatype PairingResult = PairingResult(state: ResultState, sid: Option<SessionId>, device: Option<DeviceId>)
  datatype Payload = Payload(state: BackupState, sid: SessionId, device: Option<DeviceId>,
                             folder: Option<FolderId>, folderPath: Option<string>)
  datatype Record = Record(state: BackupState, device: Option<DeviceId>, payload: Payload)
  datatype Pending = Pending(sid: SessionId, platform: Platform, passcode: string, device: DeviceId, name: string,
                             context: BackupAgain)

  datatype Pairing = Pairing(active: Option<Draft>, context: Option<BackupAgain>, result: PairingResult,
                             records: map<SessionId, Record>, pending: Option<Pending>, inProgress: bool,
                             resolvers: multiset<Pending>)

  /** A claim. `wellFormed` stands for the required fields and the schema; `base` is the sanitized name. */
  datatype Claim = Claim(wellFormed: bool, sid: SessionId, passcode: string, platform: Option<Platform>,
                         device: DeviceId, name: string, base: string)

  datatype Answer = Refused(code: int, state: BackupState) | Answered(payload: Payload) | Raised

  const TOKEN_TTL := 15 * 60 * 1_000_000
  const IDLE_RESULT := PairingResult(ResultWaiting, None, None)
  const NO_SESSION := Pairing(None, None, IDLE_RESULT, map[], None, false, multiset{})

  // ----- tokens -----

  /** Whole seconds left, truncated toward zero, never negative. */
  function SecondsRemaining(token: Token, now: int): int {
    var left := token.expiresAt - now;
    if left < 0 then 0 else left / 1_000_000
  }

  predicate IsExpired(token: Token, now: int) {
    SecondsRemaining(token, now) == 0
  }

  function SharedToken(token: Token): map<Platform, Token> {
    map[Android := token, Ios := token]
  }

  function PlatformName(platform: Platform): string {
    if platform.Android? then "android" else "ios"
  }

  /** The text the trust key is hashed from. */
  function KeyMaterial(sid: SessionId, passcode: string, platform: Platform): string {
    "dtis.mobile-pairing.v1\n" + sid + "\n" + passcode + "\n" + PlatformName(platform)
  }

  // ----- effects -----

  function Blank(state: BackupState, sid: SessionId, device: Option<DeviceId>): Record {
    Record(state, device, Payload(state, sid, device, None, None))
  }

  /** `_advance_backup_state_machine`: an invalid transition is logged and ignored. */
  function Advance(state: BackupState, event: BackupEvent): BackupState {
    match Transition(state, event)
    case Some(next) => next
    case None => state
  }

  function Started(p: Pairing, sid: SessionId, root: string, context: Option<BackupAgain>, passcode: string, now: int): Pairing {
    Pairing(Some(Draft(sid, root, SharedToken(Token(passcode, now + TOKEN_TTL, 0)))), context,
            PairingResult(ResultWaiting, Some(sid), None), p.records[sid := Blank(PendingPairing, sid, None)],
            None, false, p.resolvers)
  }

  /** `None`: there is nothing to refresh, or pairing is already accepted. */
  function Refreshed(p: Pairing, platform: Platform, passcode: string, now: int): Option<Pairing> {
    if p.active.None? || p.result.state == ResultAccepted || platform !in p.active.value.tokens then None
    else
      var generation := p.active.value.tokens[platform].generation + 1;
      Some(p.(active := Some(p.active.value.(tokens := SharedToken(Token(passcode, now + TOKEN_TTL, generation))))))
  }

  function Closed(p: Pairing): Pairing {
    var q := if p.active.Some? && p.result.state != ResultAccepted then
               var sid := p.active.value.sid;
               p.(result := PairingResult(ResultStopped, Some(sid), None),
                  records := p.records[sid := Blank(PairingStopped, sid, None)])
             else p;
    q.(active := None, context := None, pending := None, inProgress := false,
       result := if q.result.state == ResultAccepted then IDLE_RESULT else q.result)
  }

  predicate IsActive(p: Pairing, sid: SessionId) {
    p.active.Some? && p.active.value.sid == sid
  }

  function RecordedState(p: Pairing, sid: SessionId): BackupState {
    if sid in p.records then p.records[sid].state else PendingPairing
  }

  function ClearPending(p: Pairing, sid: SessionId): Option<Pending> {
    if p.pending.Some? && p.pending.value.sid == sid then None else p.pending
  }

  /** The database half of an acceptance; the folder is `None` when a statement raised. What was committed
      before the statement that raised stays. */
  ghost function AcceptedStore(t: Tables, who: Pending, root: string, base: string, context: Option<BackupAgain>,
                               decision: Decision, newId: FolderId): (Tables, Option<(FolderId, string)>)
  {
    var row := Device(PlatformName(who.platform), who.name, KeyMaterial(who.sid, who.passcode, who.platform));
    var t1 := WithDevice(t, who.device, row);
    if context.Some? && who.device != context.value.expected && decision == ContinueInSelectedFolder then
      match RepairedStore(t1, context.value.folder, context.value.expected, who.device)
      case RepairRaised => (t1, None)
      case Repaired(t2) => InsertedSession(t2, who, context.value.folder, context.value.folderPath)
    else
      match FolderFor(t1, root, base, who.device, newId)
      case FolderRaised(t2) => (t2, None)
      case FolderRecord(t2, folder, path, _) => InsertedSession(t2, who, folder, path)
  }

  function InsertedSession(t: Tables, who: Pending, folder: FolderId, path: string): (Tables, Option<(FolderId, string)>) {
    if who.sid in t.sessions then (t, None)
    else (WithSession(t, who.sid, who.device, folder), Some((folder, path)))
  }

  /** The state an acceptance records, by one or two machine steps. */
  function AcceptedState(state: BackupState): BackupState {
    Advance(if state == PairingMismatched then Advance(state, MismatchResolved) else state, Accepted)
  }

  function WithAcceptance(p: Pairing, sid: SessionId, device: DeviceId, folder: FolderId, path: string): Pairing {
    var state := AcceptedState(RecordedState(p, sid));
    p.(result := PairingResult(ResultAccepted, Some(sid), Some(device)),
       records := p.records[sid := Record(state, Some(device), Payload(state, sid, Some(device), Some(folder), Some(path)))],
       pending := ClearPending(p, sid))
  }

  /** `_complete_pairing_acceptance`. */
  ghost function Acceptance(p: Pairing, t: Tables, who: Pending, base: string, context: Option<BackupAgain>,
                            decision: Decision, newId: FolderId): (Pairing, Tables, Answer)
  {
    if !IsActive(p, who.sid) then (p, t, Refused(404, PairingStopped))
    else
      var (t', folder) := AcceptedStore(t, who, p.active.value.root, base, context, decision, newId);
      if folder.None? then (p, t', Raised)
      else
        var p' := WithAcceptance(p, who.sid, who.device, folder.value.0, folder.value.1);
        (p', t', Answered(p'.records[who.sid].payload))
  }

  /** `_complete_pairing_stopped`. */
  function Stoppage(p: Pairing, sid: SessionId, device: DeviceId): Pairing {
    if !IsActive(p, sid) then p
    else
      var state := Advance(RecordedState(p, sid), Stopped);
      p.(result := PairingResult(ResultStopped, Some(sid), Some(device)),
         records := p.records[sid := Blank(state, sid, Some(device))],
         pending := ClearPending(p, sid))
  }

  predicate Decided(p: Pairing) {
    p.result.state in {ResultAccepted, ResultMismatched, ResultStopped} &&
    p.active.Some? && p.active.value.sid in p.records
  }

  function Expiry(p: Pairing, sid: SessionId): Pairing {
    p.(result := PairingResult(ResultExpired, Some(sid), None),
       records := p.records[sid := Blank(PairingExpired, sid, None)])
  }

  function Mismatch(p: Pairing, who: Pending): Pairing {
    p.(result := PairingResult(ResultMismatched, Some(who.sid), Some(who.device)),
       records := p.records[who.sid := Blank(PairingMismatched, who.sid, Some(who.device))],
       pending := Some(who),
       resolvers := p.resolvers + multiset{who})
  }

  /** What a valid claim is carried on with; without a backup-again context the last field is unused. */
  function Claimant(p: Pairing, c: Claim): Pending
    requires p.active.Some? && c.platform.Some? && c.platform.value in p.active.value.tokens
  {
    Pending(c.sid, c.platform.value, p.active.value.tokens[c.platform.value].passcode, c.device, c.name,
            if p.context.Some? then p.context.value else BackupAgain(0, "", ""))
  }

  /** `handle_pairing_request`, with the store it works on. */
  ghost function Claimed(p: Pairing, t: Tables, c: Claim, newId: FolderId, now: int): (Pairing, Tables, Answer) {
    if p.active.None? then (p, t, Refused(404, PairingStopped))
    else if !c.wellFormed then (p, t, Refused(400, PendingPairing))
    else if c.sid != p.active.value.sid then (p, t, Refused(404, PairingStopped))
    else if Decided(p) then (p, t, Answered(p.records[c.sid].payload))
    else if p.inProgress then (p, t, Refused(409, PendingPairing))
    else if c.platform.None? || c.platform.value !in p.active.value.tokens then (p, t, Refused(400, PendingPairing))
    else
      var token := p.active.value.tokens[c.platform.value];
      if IsExpired(token, now) then (Expiry(p, c.sid), t, Refused(410, PairingExpired))
      else if c.passcode != token.passcode then (p, t, Refused(403, PendingPairing))
      else
        var who := Claimant(p, c);
        if p.context.Some? && c.device != p.context.value.expected then
          var p' := Mismatch(p, who);
          (p', t, Answered(p'.records[c.sid].payload))
        else
          Acceptance(p, t, who, c.base, p.context, BackupInNewFolder, newId)
  }

  /** A resolver thread runs to its end with the user's decision. */
  ghost function Resolved(p: Pairing, t: Tables, who: Pending, decision: Decision, base: string, newId: FolderId): (Pairing, Tables)
  {
    var q := p.(resolvers := p.resolvers - multiset{who});
    if decision in {Cancel, ResolverFailed} then (Stoppage(q, who.sid, who.device), t)
    else
      var (p', t', _) := Acceptance(q, t, who, base, Some(who.context), decision, newId);
      (p', t')
  }

  /** `handle_pairing_state_request`, past its field checks. */
  function StateRequest(p: Pairing, sid: SessionId, device: DeviceId): Answer {
    if sid !in p.records then Refused(404, PairingStopped)
    else
      var r := p.records[sid];
      if r.device.Some? && r.device.value != device then Refused(403, PairingStopped)
      else Answered(if r.payload.device.None? then r.payload.(device := Some(device)) else r.payload)
  }

  // ----- the imperative service -----

  class MobilePairingService {
    const db: Database
    var active: Option<Draft>
    var context: Option<BackupAgain>
    var result: PairingResult
    var records: map<SessionId, Record>
    var pending: Option<Pending>
    var inProgress: bool
    var resolvers: multiset<Pending>

    ghost function P(): Pairing
      reads this
    {
      Pairing(active, context, result, records, pending, inProgress, resolvers)
    }

    constructor (db: Database)
      ensures this.db == db && P() == NO_SESSION
    {
      this.db := db;
      active, context, pending, inProgress := None, None, None, false;
      result, records, resolvers := IDLE_RESULT, map[], multiset{};
    }

    method StartPairingSession(sid: SessionId, root: string, backupAgain: Option<BackupAgain>, passcode: string, now: int)
      modifies this
      ensures P() == Started(old(P()), sid, root, backupAgain, passcode, now)
    {
      var token := Token(passcode, now + TOKEN_TTL, 0);
      active := Some(Draft(sid, root, map[Android := token, Ios := token]));
      context := backupAgain;
      pending := None;
      inProgress := false;
      result := PairingResult(ResultWaiting, Some(sid), None);
      records := records[sid := Blank(PendingPairing, sid, None)];
    }

    method RefreshToken(platform: Platform, passcode: string, now: int) returns (raised: bool)
      modifies `active
      ensures raised <==> Refreshed(old(P()), platform, passcode, now).None?
      ensures P() == if raised then old(P()) else Refreshed(old(P()), platform, passcode, now).value
    {
      raised := active.None? || result.state == ResultAccepted || platform !in active.value.tokens;
      if !raised {
        var current := active.value.tokens[platform];
        var rotated := Token(passcode, now + TOKEN_TTL, current.generation + 1);
        active := Some(active.value.(tokens := map[Android := rotated, Ios := rotated]));
      }
    }

    method CloseActiveSession()
      modifies this
      ensures P() == Closed(old(P()))
    {
      if active.Some? && result.state != ResultAccepted {
        var sid := active.value.sid;
        result := PairingResult(ResultStopped, Some(sid), None);
        records := records[sid := Blank(PairingStopped, sid, result.device)];
      }
      active, context, pending, inProgress := None, None, None, false;
      if result.state == ResultAccepted {
        result := IDLE_RESULT;
      }
    }

    /** The statements `_complete_pairing_acceptance` runs on its connection. */
    method StoreAcceptance(who: Pending, root: string, base: string, backupAgain: Option<BackupAgain>,
                           decision: Decision, newId: FolderId) returns (stored: Option<(FolderId, string)>)
      requires SchemaOk(db.T()) && newId !in db.folders
      modifies db
      ensures (db.T(), stored) == AcceptedStore(old(db.T()), who, root, base, backupAgain, decision, newId)
    {
      db.UpsertMobileDevice(who.device, Device(PlatformName(who.platform), who.name,
                                               KeyMaterial(who.sid, who.passcode, who.platform)));
      var raised, folder, path, reused;
      if backupAgain.Some? && who.device != backupAgain.value.expected && decision == ContinueInSelectedFolder {
        folder, path := backupAgain.value.folder, backupAgain.value.folderPath;
        raised := db.RepairMobileFolderDeviceBinding(folder, backupAgain.value.expected, who.device);
      } else {
        raised, folder, path, reused := db.GetOrCreateMobileFolder(root, base, who.device, newId);
      }
      if raised {
        return None;
      }
      raised := db.InsertMobileBackupSession(who.sid, who.device, folder);
      stored := if raised then None else Some((folder, path));
    }

    method CompletePairingAcceptance(who: Pending, base: string, backupAgain: Option<BackupAgain>, decision: Decision,
                                     newId: FolderId) returns (answer: Answer)
      requires SchemaOk(db.T()) && newId !in db.folders
      modifies `result, `records, `pending, db
      ensures (P(), db.T(), answer) == Acceptance(old(P()), old(db.T()), who, base, backupAgain, decision, newId)
    {
      if active.None? || active.value.sid != who.sid {
        return Refused(404, PairingStopped);
      }
      var stored := StoreAcceptance(who, active.value.root, base, backupAgain, decision, newId);
      if stored.None? {
        return Raised;
      }
      var payload := RecordAcceptance(who.sid, who.device, stored.value.0, stored.value.1);
      answer := Answered(payload);
    }

    /** Its second half, once the store is written. */
    method RecordAcceptance(sid: SessionId, device: DeviceId, folder: FolderId, path: string) returns (payload: Payload)
      modifies `result, `records, `pending
      ensures P() == WithAcceptance(old(P()), sid, device, folder, path)
      ensures sid in records && payload == records[sid].payload
    {
      var state := if sid in records then records[sid].state else PendingPairing;
      if state == PairingMismatched {
        state := Advance(state, MismatchResolved);
      }
      state := Advance(state, Accepted);
      payload := Payload(state, sid, Some(device), Some(folder), Some(path));
      result := PairingResult(ResultAccepted, Some(sid), Some(device));
      records := records[sid := Record(state, Some(device), payload)];
      if pending.Some? && pending.value.sid == sid {
        pending := None;
      }
    }

    method CompletePairingStopped(sid: SessionId, device: DeviceId)
      modifies `result, `records, `pending
      ensures P() == Stoppage(old(P()), sid, device)
    {
      if active.None? || active.value.sid != sid {
        return;
      }
      var state := if sid in records then records[sid].state else PendingPairing;
      state := Advance(state, Stopped);
      result := PairingResult(ResultStopped, Some(sid), Some(device));
      records := records[sid := Blank(state, sid, Some(device))];
      if pending.Some? && pending.value.sid == sid {
        pending := None;
      }
    }

    method HandlePairingRequest(c: Claim, newId: FolderId, now: int) returns (answer: Answer)
      requires SchemaOk(db.T()) && newId !in db.folders
      modifies this, db
      ensures (P(), db.T(), answer) == Claimed(old(P()), old(db.T()), c, newId, now)
    {
      if active.None? {
        return Refused(404, PairingStopped);
      }
      var session := active.value;
      if !c.wellFormed {
        return Refused(400, PendingPairing);
      }
      if c.sid != session.sid {
        return Refused(404, PairingStopped);
      }
      if result.state in {ResultAccepted, ResultMismatched, ResultStopped} && session.sid in records {
        return Answered(records[session.sid].payload);
      }
      if inProgress {
        return Refused(409, PendingPairing);
      }
      if c.platform.None? || c.platform.value !in session.tokens {
        return Refused(400, PendingPairing);
      }
      var token := session.tokens[c.platform.value];
      if IsExpired(token, now) {
        result := PairingResult(ResultExpired, Some(session.sid), None);
        records := records[session.sid := Blank(PairingExpired, session.sid, result.device)];
        return Refused(410, PairingExpired);
      }
      if c.passcode != token.passcode {
        return Refused(403, PendingPairing);
      }
      var backupAgain := context;
      var who := Pending(c.sid, c.platform.value, token.passcode, c.device, c.name,
                         if backupAgain.Some? then backupAgain.value else BackupAgain(0, "", ""));
      inProgress := true;
      if backupAgain.Some? && c.device != backupAgain.value.expected {
        answer := RecordMismatch(who);
      } else {
        answer := CompletePairingAcceptance(who, c.base, backupAgain, BackupInNewFolder, newId);
      }
      inProgress := false;
    }

    /** The answer to a device that is not the expected one; the question to the user goes to a thread. */
    method RecordMismatch(who: Pending) returns (answer: Answer)
      modifies `result, `records, `pending, `resolvers
      ensures P() == Mismatch(old(P()), who)
      ensures who.sid in records && answer == Answered(records[who.sid].payload)
    {
      result := PairingResult(ResultMismatched, Some(who.sid), Some(who.device));
      var record := Blank(PairingMismatched, who.sid, Some(who.device));
      records := records[who.sid := record];
      pending := Some(who);
      resolvers := resolvers + multiset{who};
      answer := Answered(record.payload);
    }

    method ResolveBackupAgainMismatch(who: Pending, decision: Decision, base: string, newId: FolderId)
      requires who in resolvers
      requires SchemaOk(db.T()) && newId !in db.folders
      modifies this, db
      ensures (P(), db.T()) == Resolved(old(P()), old(db.T()), who, decision, base, newId)
    {
      resolvers := resolvers - multiset{who};
      if decision == ResolverFailed || decision == Cancel {
        CompletePairingStopped(who.sid, who.device);
        return;
      }
      var _ := CompletePairingAcceptance(who, base, Some(who.context), decision, newId);
    }

    method HandlePairingStateRequest(sid: SessionId, device: DeviceId) returns (answer: Answer)
      ensures answer == StateRequest(P(), sid, device)
    {
      if sid !in records {
        return Refused(404, PairingStopped);
      }
      var record := records[sid];
      if record.device.Some? && record.device.value != device {
        return Refused(403, PairingStopped);
      }
      var payload := record.payload;
      if payload.device.None? {
        payload := payload.(device := Some(device));
      }
      answer := Answered(payload);
    }
  }
}
