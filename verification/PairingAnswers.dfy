/** Who may pair, and what becomes of a claim, of the user's answer and of a question for the state: in terms of
    the codes shown, the times and the rows, not of the steps that lead there. */
module PairingAnswers {
  import opened Options
  import opened BackupStateMachine
  import opened PairingStore
  import opened StoreIntegrity
  import opened PairingService
  import opened PairingProofs

  // ----- claims -----

  /** A complete request to the session that is open, for a platform that exists. */
  ghost predicate Addressed(p: Pairing, c: Claim) {
    && p.active.Some? && c.wellFormed && c.sid == p.active.value.sid
    && c.platform.Some? && c.platform.value in p.active.value.tokens
  }

  /** The passcode is the one on the screen for that platform. */
  ghost predicate ShowsCode(p: Pairing, c: Claim) {
    Addressed(p, c) && c.passcode == p.active.value.tokens[c.platform.value].passcode
  }

  /** At least a whole second of the code's life is left. */
  ghost predicate InTime(p: Pairing, c: Claim, now: int) {
    Addressed(p, c) && now + 1_000_000 <= p.active.value.tokens[c.platform.value].expiresAt
  }

  ghost predicate Entitled(p: Pairing, c: Claim, now: int) {
    ShowsCode(p, c) && InTime(p, c, now)
  }

  /** The session is to back up again what another device backed up. */
  ghost predicate OtherDevice(p: Pairing, c: Claim) {
    p.context.Some? && c.device != p.context.value.expected
  }

  /** Every answer to a claim in an open question, and exactly when it is given. A right code in time is answered
      with a payload, unless a statement of the acceptance raises. */
  lemma ClaimAnswersIff(p: Pairing, t: Tables, c: Claim, newId: FolderId, now: int)
    requires PairingOk(p) && !Decided(p)
    ensures var a := Claimed(p, t, c, newId, now).2;
            && (a.Answered? || a.Raised? <==> Entitled(p, c, now))
            && (a == Refused(403, PendingPairing) <==> InTime(p, c, now) && !ShowsCode(p, c))
            && (a == Refused(410, PairingExpired) <==> Addressed(p, c) && !InTime(p, c, now))
            && (a == Refused(400, PendingPairing) <==>
                  p.active.Some? && (!c.wellFormed || (c.sid == p.active.value.sid && c.platform.None?)))
            && (a == Refused(404, PairingStopped) <==>
                  p.active.None? || (c.wellFormed && c.sid != p.active.value.sid))
            && a != Refused(409, PendingPairing)
  {
    BothPlatforms(p, c);
  }

  lemma BothPlatforms(p: Pairing, c: Claim)
    requires p.active.Some? ==> p.active.value.tokens.Keys == {Android, Ios}
    ensures p.active.Some? && c.platform.Some? ==> c.platform.value in p.active.value.tokens
  {
    assert p.active.Some? ==> Android in p.active.value.tokens && Ios in p.active.value.tokens;
    assert c.platform.Some? ==> c.platform.value == Android || c.platform.value == Ios;
  }

  /** A claim that is not entitled changes nothing, but that a late one is remembered as expired. */
  lemma UnentitledChangesNothing(p: Pairing, t: Tables, c: Claim, newId: FolderId, now: int)
    requires PairingOk(p) && !Entitled(p, c, now)
    ensures var (p', t', a) := Claimed(p, t, c, newId, now);
            && t' == t && p'.active == p.active && p'.resolvers == p.resolvers
            && (forall s :: s in p.records && s != c.sid ==> s in p'.records && p'.records[s] == p.records[s])
            && (a != Refused(410, PairingExpired) ==> p' == p)
            && (a == Refused(410, PairingExpired) ==>
                  p'.result.state == ResultExpired && c.sid in p'.records && p'.records[c.sid].state == PairingExpired)
  {
  }

  /** A right code from another device than the one expected: the user is asked, and nothing is stored. */
  lemma OtherDeviceIsAsked(p: Pairing, t: Tables, c: Claim, newId: FolderId, now: int)
    requires PairingOk(p) && !Decided(p) && Entitled(p, c, now) && OtherDevice(p, c)
    ensures var (p', t', a) := Claimed(p, t, c, newId, now);
            var who := Pending(c.sid, c.platform.value, c.passcode, c.device, c.name, p.context.value);
            && t' == t && a == Answered(Payload(PairingMismatched, c.sid, Some(c.device), None, None))
            && p'.result == PairingResult(ResultMismatched, Some(c.sid), Some(c.device))
            && c.sid in p'.records && p'.records[c.sid].payload == a.payload
            && p'.resolvers == p.resolvers + multiset{who}
  {
  }

  /** What an accepted device has afterwards: its row with the key of this code, a folder bound to it, a session
      with that folder, and the record that tells it. */
  ghost predicate PairedWith(p: Pairing, t: Tables, who: Pending) {
    && p.result == PairingResult(ResultAccepted, Some(who.sid), Some(who.device))
    && who.sid in p.records && p.records[who.sid].state == PairingCompleted && p.records[who.sid].device == Some(who.device)
    && who.sid in t.sessions && t.sessions[who.sid].device == who.device
    && (var f := t.sessions[who.sid].folder;
        && t.sessions[who.sid] == Session(who.device, f, Paired, 0, 0, 0)
        && f in t.bindings && t.bindings[f].device == who.device
        && p.records[who.sid].payload.folder == Some(f))
    && who.device in t.devices
    && t.devices[who.device] == Device(if who.platform.Android? then "android" else "ios", who.name,
                                       "dtis.mobile-pairing.v1\n" + who.sid + "\n" + who.passcode + "\n"
                                       + if who.platform.Android? then "android" else "ios")
  }

  /** The folder is the device's own, made now if it had none, and no row of any other device is touched. */
  ghost predicate InOwnFolder(t: Tables, t': Tables, p': Pairing, who: Pending) {
    who.sid in t'.sessions && who.sid in p'.records &&
    var f := t'.sessions[who.sid].folder;
    && f in t'.folders && p'.records[who.sid].payload.folderPath == Some(t'.folders[f])
    && (forall g :: g in t.bindings ==> g in t'.bindings && t'.bindings[g].device == t.bindings[g].device)
    && (forall g :: g in t.bindings && t.bindings[g].device != who.device ==> t'.bindings[g] == t.bindings[g])
    && (forall d :: d in t.devices && d != who.device ==> d in t'.devices && t'.devices[d] == t.devices[d])
    && (forall s :: s in t.sessions ==> s in t'.sessions && t'.sessions[s] == t.sessions[s])
    && t'.assets == t.assets
  }

  /** The store half: the device has a folder of its own, its session is there, and other rows are as before. */
  lemma StoredInOwnFolder(t: Tables, who: Pending, row: Device, root: string, base: string, newId: FolderId)
    requires Integrity(t) && newId !in t.folders
    ensures var o := FolderFor(WithDevice(t, who.device, row), root, base, who.device, newId);
            && o.FolderRecord? && o.folder in o.tables.folders && o.tables.folders[o.folder] == o.path
            && o.folder in o.tables.bindings && o.tables.bindings[o.folder].device == who.device
            && o.tables.devices == t.devices[who.device := row]
            && o.tables.sessions == t.sessions && o.tables.assets == t.assets
            && (forall g :: g in t.bindings ==>
                  g in o.tables.bindings && o.tables.bindings[g].device == t.bindings[g].device)
            && (forall g :: g in t.bindings && t.bindings[g].device != who.device ==> o.tables.bindings[g] == t.bindings[g])
  {
    DeviceKept(t, who.device, row);
    FolderForKept(WithDevice(t, who.device, row), root, base, who.device, newId);
  }

  lemma AcceptedInOwnFolder(p: Pairing, t: Tables, who: Pending, base: string, context: Option<BackupAgain>,
                            decision: Decision, newId: FolderId)
    requires PairingOk(p) && IsActive(p, who.sid) && p.records[who.sid].state != PairingCompleted
    requires Integrity(t) && newId !in t.folders && who.sid !in t.sessions
    requires context.Some? && who.device != context.value.expected ==> decision != ContinueInSelectedFolder
    ensures var (p', t', a) := Acceptance(p, t, who, base, context, decision, newId);
            a.Answered? && PairedWith(p', t', who) && InOwnFolder(t, t', p', who) && a.payload == p'.records[who.sid].payload
  {
    var row := Device(PlatformName(who.platform), who.name, KeyMaterial(who.sid, who.passcode, who.platform));
    var o := FolderFor(WithDevice(t, who.device, row), p.active.value.root, base, who.device, newId);
    StoredInOwnFolder(t, who, row, p.active.value.root, base, newId);
    assert Acceptance(p, t, who, base, context, decision, newId).1 == WithSession(o.tables, who.sid, who.device, o.folder);
    assert Acceptance(p, t, who, base, context, decision, newId).0 == WithAcceptance(p, who.sid, who.device, o.folder, o.path);
    RecordOfAccepted(p, who, o.folder, o.path);
    KeyIs(who);
  }

  lemma RecordOfAccepted(p: Pairing, who: Pending, folder: FolderId, path: string)
    requires PairingOk(p) && IsActive(p, who.sid) && p.records[who.sid].state != PairingCompleted
    ensures var p' := WithAcceptance(p, who.sid, who.device, folder, path);
            && p'.result == PairingResult(ResultAccepted, Some(who.sid), Some(who.device)) && who.sid in p'.records
            && p'.records[who.sid]
               == Record(PairingCompleted, Some(who.device),
                         Payload(PairingCompleted, who.sid, Some(who.device), Some(folder), Some(path)))
  {
    NoIgnoredTransition(p, who.sid);
  }

  lemma KeyIs(who: Pending)
    ensures var name := if who.platform.Android? then "android" else "ios";
            PlatformName(who.platform) == name
            && KeyMaterial(who.sid, who.passcode, who.platform)
               == "dtis.mobile-pairing.v1\n" + who.sid + "\n" + who.passcode + "\n" + name
  {
  }

  /** In a sound store a right code in time, from the device expected if one is, pairs; and only that does. */
  lemma ClaimPairsIff(p: Pairing, t: Tables, c: Claim, newId: FolderId, now: int)
    requires PairingOk(p) && !Decided(p) && Integrity(t) && newId !in t.folders && c.sid !in t.sessions
    ensures var (p', t', a) := Claimed(p, t, c, newId, now);
            && (c.sid in t'.sessions <==> Entitled(p, c, now) && !OtherDevice(p, c))
            && (t' != t ==> c.sid in t'.sessions)
            && (c.sid in t'.sessions ==>
                  var who := Pending(c.sid, c.platform.value, c.passcode, c.device, c.name,
                                     if p.context.Some? then p.context.value else BackupAgain(0, "", ""));
                  PairedWith(p', t', who) && InOwnFolder(t, t', p', who) && a == Answered(p'.records[c.sid].payload))
  {
    if !Entitled(p, c, now) {
      UnentitledChangesNothing(p, t, c, newId, now);
    } else if OtherDevice(p, c) {
      OtherDeviceIsAsked(p, t, c, newId, now);
    } else {
      UndecidedStage(p);
      AcceptedInOwnFolder(p, t, Claimant(p, c), c.base, p.context, BackupInNewFolder, newId);
    }
  }

  /** A code just drawn pairs until a second before its fifteen minutes are over. */
  lemma CodeLives(p: Pairing, sid: SessionId, root: string, context: Option<BackupAgain>, passcode: string, drawn: int,
                  c: Claim, now: int)
    requires c.wellFormed && c.sid == sid && c.platform.Some? && c.passcode == passcode
    ensures Entitled(Started(p, sid, root, context, passcode, drawn), c, now) <==> now <= drawn + 899_000_000
  {
    BothPlatforms(Started(p, sid, root, context, passcode, drawn), c);
  }

  /** A refreshed code replaces the one before on both platforms. */
  lemma RefreshedCodeCounts(p: Pairing, platform: Platform, passcode: string, drawn: int, c: Claim, now: int)
    requires PairingOk(p) && Refreshed(p, platform, passcode, drawn).Some?
    requires c.wellFormed && c.sid == p.active.value.sid && c.platform.Some?
    ensures Entitled(Refreshed(p, platform, passcode, drawn).value, c, now)
       <==> c.passcode == passcode && now <= drawn + 899_000_000
  {
    BothPlatforms(Refreshed(p, platform, passcode, drawn).value, c);
  }

  /** Closing: every later claim is refused until a new session, and what was not accepted is recorded as stopped. */
  lemma ClosedRefuses(p: Pairing, t: Tables, c: Claim, newId: FolderId, now: int)
    requires PairingOk(p)
    ensures var q := Closed(p);
            && Claimed(q, t, c, newId, now) == (q, t, Refused(404, PairingStopped))
            && q.result.state != ResultAccepted
            && (p.active.Some? && p.records[p.active.value.sid].state != PairingCompleted ==>
                  q.records[p.active.value.sid].state == PairingStopped && q.result.state == ResultStopped)
            && (p.active.Some? && p.records[p.active.value.sid].state == PairingCompleted ==>
                  q.records == p.records && q.result.state == ResultWaiting)
  {
  }

  // ----- the answer of the user -----

  /** After "cancel", or when asking failed, nothing is stored; an open session is stopped, any other left alone. */
  lemma CancelStores(p: Pairing, t: Tables, who: Pending, decision: Decision, base: string, newId: FolderId)
    requires PairingOk(p) && who in p.resolvers && decision in {Cancel, ResolverFailed}
    ensures var (p', t') := Resolved(p, t, who, decision, base, newId);
            && t' == t
            && (IsActive(p, who.sid) ==>
                  && p'.result == PairingResult(ResultStopped, Some(who.sid), Some(who.device))
                  && who.sid in p'.records && p'.records[who.sid].state == PairingStopped
                  && p'.records[who.sid].payload == Payload(PairingStopped, who.sid, Some(who.device), None, None))
            && (!IsActive(p, who.sid) ==> p'.result == p.result && p'.records == p.records)
            && (forall s :: s in p.records && s != who.sid ==> s in p'.records && p'.records[s] == p.records[s])
  {
    WithoutResolverOk(p, who);
  }

  /** "Continue" pairs the device with the folder that was chosen, unless another folder is its own already; the
      device expected is gone. */
  lemma ContinueTakesFolder(p: Pairing, t: Tables, who: Pending, base: string, newId: FolderId)
    requires PairingOk(p) && who in p.resolvers && IsActive(p, who.sid) && who.sid !in t.sessions
    ensures var (p', t') := Resolved(p, t, who, ContinueInSelectedFolder, base, newId);
            && (who.sid in t'.sessions
                <==> forall f :: f in t.bindings && t.bindings[f].device == who.device ==> f == who.context.folder)
            && (who.sid in t'.sessions <==> p'.records[who.sid].state == PairingCompleted)
            && (who.sid in t'.sessions ==>
                  && t'.sessions[who.sid] == Session(who.device, who.context.folder, Paired, 0, 0, 0)
                  && p'.records[who.sid].payload
                     == Payload(PairingCompleted, who.sid, Some(who.device), Some(who.context.folder), Some(who.context.folderPath))
                  && who.context.expected !in t'.devices && who.device in t'.devices)
            && (who.sid !in t'.sessions ==> p'.records == p.records && t' == t.(devices := t'.devices))
  {
    assert ThreadOk(p, who);
    NoIgnoredTransition(p, who.sid);
  }

  /** "Back up in a new folder" pairs the device with its own folder, and leaves the expected device all it has. */
  lemma NewFolderLeavesExpected(p: Pairing, t: Tables, who: Pending, base: string, newId: FolderId)
    requires PairingOk(p) && who in p.resolvers && IsActive(p, who.sid)
    requires Integrity(t) && newId !in t.folders && who.sid !in t.sessions
    ensures var (p', t') := Resolved(p, t, who, BackupInNewFolder, base, newId);
            PairedWith(p', t', who) && InOwnFolder(t, t', p', who)
            && (who.context.expected in t.devices ==> t'.devices[who.context.expected] == t.devices[who.context.expected])
            && (who.context.folder in t.bindings && t.bindings[who.context.folder].device == who.context.expected ==>
                  t'.bindings[who.context.folder] == t.bindings[who.context.folder]
                  && t'.sessions[who.sid].folder != who.context.folder)
  {
    assert ThreadOk(p, who);
    var q := p.(resolvers := p.resolvers - multiset{who});
    WithoutResolverOk(p, who);
    AcceptedInOwnFolder(q, t, who, base, Some(who.context), BackupInNewFolder, newId);
  }

  // ----- questions for the state -----

  /** Only the device of a session, once it has one, is told its state; and it is told what the record says. */
  lemma StateIsToldIff(p: Pairing, sid: SessionId, device: DeviceId)
    requires RecordsOk(p)
    ensures var a := StateRequest(p, sid, device);
            && (a.Answered? <==> sid in p.records && p.records[sid].device in {None, Some(device)})
            && (a == Refused(403, PairingStopped) <==> sid in p.records && p.records[sid].device !in {None, Some(device)})
            && (a == Refused(404, PairingStopped) <==> sid !in p.records)
            && (a.Answered? ==> a.payload == p.records[sid].payload.(device := Some(device))
                                && a.payload.state == p.records[sid].state && a.payload.sid == sid)
  {
  }
}
