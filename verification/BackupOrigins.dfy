/** Where rows, statuses and answers come from, over whole runs of the desktop system. */
module BackupOrigins {
  import opened Options
  import opened BackupStateMachine
  import opened PairingStore
  import opened TransferService
  import opened TransferAnswers
  import opened AssetUploadStream
  import opened PairingService
  import opened PairingProofs
  import opened PairingAnswers
  import opened BackupSystem
  import opened BackupRuns

  // ----- a session row goes back to the code on the screen -----

  /** A claim for the session that shows its code in time. */
  ghost predicate Claims(s: System, e: Event, sid: SessionId) {
    e.ClaimRequest? && e.claim.sid == sid && Entitled(s.pairing, e.claim, e.now)
  }

  /** Somewhere in the run there was one. */
  ghost predicate CodeShown(s: System, es: seq<Event>, digest: Digest, sid: SessionId) {
    es != [] &&
    (CodeShown(s, es[..|es| - 1], digest, sid) || Claims(Run(s, es[..|es| - 1], digest), es[|es| - 1], sid))
  }

  lemma ThreadsCarry(p: Pairing, p': Pairing, r: Pending)
    requires p'.resolvers <= p.resolvers && r in p'.resolvers
    ensures r in p.resolvers
  {
    assert p'.resolvers[r] <= p.resolvers[r];
  }

  /** A resolver thread is started by such a claim only. */
  lemma ThreadNeedsCode(s: System, e: Event, digest: Digest, r: Pending)
    requires PairingOk(s.pairing) && r in Step(s, e, digest).pairing.resolvers && r !in s.pairing.resolvers
    ensures Claims(s, e, r.sid)
  {
    if e.ClaimRequest? {
      ClaimThreads(s.pairing, s.tables, e.claim, e.newId, e.now, r);
    } else if e.Resolve? {
      ResolveThreads(s.pairing, s.tables, e.who, e.decision, e.base, e.newId, r);
    } else {
      OtherThreads(s, e, digest);
    }
  }

  lemma ClaimThreads(p: Pairing, t: Tables, c: Claim, newId: FolderId, now: int, r: Pending)
    requires PairingOk(p) && r in Claimed(p, t, c, newId, now).0.resolvers && r !in p.resolvers
    ensures r.sid == c.sid && Entitled(p, c, now)
  {
    if !Entitled(p, c, now) {
      UnentitledChangesNothing(p, t, c, newId, now);
    }
  }

  lemma ResolveThreads(p: Pairing, t: Tables, who: Pending, decision: Decision, base: string, newId: FolderId, r: Pending)
    requires r in Resolved(p, t, who, decision, base, newId).0.resolvers
    ensures r in p.resolvers
  {
    assert Resolved(p, t, who, decision, base, newId).0.resolvers == p.resolvers - multiset{who};
    ThreadsCarry(p, Resolved(p, t, who, decision, base, newId).0, r);
  }

  lemma OtherThreads(s: System, e: Event, digest: Digest)
    requires !e.ClaimRequest? && !e.Resolve?
    ensures Step(s, e, digest).pairing.resolvers <= s.pairing.resolvers
  {
  }

  lemma {:induction false} ThreadsByCode(s: System, es: seq<Event>, digest: Digest, r: Pending)
    requires PairingInv(s) && Throughout(s, es, digest, Fresh) && r in Run(s, es, digest).pairing.resolvers
    ensures r in s.pairing.resolvers || CodeShown(s, es, digest, r.sid)
    decreases |es|
  {
    if es != [] {
      var mid := Run(s, es[..|es| - 1], digest);
      Prefix(s, es, digest, Fresh);
      PairingAlongRun(s, es[..|es| - 1], digest);
      if r in mid.pairing.resolvers {
        ThreadsByCode(s, es[..|es| - 1], digest, r);
      } else {
        ThreadNeedsCode(mid, es[|es| - 1], digest, r);
      }
    }
  }

  lemma InsertionNeedsCode(s: System, e: Event, digest: Digest, sid: SessionId)
    requires PairingOk(s.pairing) && Fresh(s, e) && Inserts(s, e, digest, sid) == 1
    ensures Claims(s, e, sid) || (e.Resolve? && e.who in s.pairing.resolvers && e.who.sid == sid)
  {
    InsertionNeedsUndecided(s, e, digest, sid);
    if e.ClaimRequest? && !Entitled(s.pairing, e.claim, e.now) {
      UnentitledChangesNothing(s.pairing, s.tables, e.claim, e.newId, e.now);
    }
  }

  /** Over every run with fresh ids, whatever became of the store: a session that reached the session table was
      claimed in that run with the code on the screen, in time. */
  lemma {:induction false} InsertedByCode(s: System, es: seq<Event>, digest: Digest, sid: SessionId)
    requires PairingInv(s) && Throughout(s, es, digest, Fresh) && forall r :: r in s.pairing.resolvers ==> r.sid != sid
    ensures InsertCount(s, es, digest, sid) > 0 ==> CodeShown(s, es, digest, sid)
    decreases |es|
  {
    if es != [] {
      var front, last := es[..|es| - 1], es[|es| - 1];
      var mid := Run(s, front, digest);
      Prefix(s, es, digest, Fresh);
      InsertedByCode(s, front, digest, sid);
      PairingAlongRun(s, front, digest);
      if Inserts(mid, last, digest, sid) == 1 {
        InsertionNeedsCode(mid, last, digest, sid);
        if !Claims(mid, last, sid) {
          ThreadsByCode(s, front, digest, last.who);
        }
      }
    }
  }

  // ----- a canceled session stays out of the store -----

  ghost predicate StoppedFor(s: System, sid: SessionId) {
    sid in s.used && (sid in s.pairing.records ==> s.pairing.records[sid].state == PairingStopped)
  }

  lemma StoppedStep(s: System, e: Event, digest: Digest, sid: SessionId)
    requires PairingInv(s) && Fresh(s, e) && StoppedFor(s, sid)
    ensures StoppedFor(Step(s, e, digest), sid) && Inserts(s, e, digest, sid) == 0
  {
    PairingStepOk(s, e, digest);
    if Inserts(s, e, digest, sid) == 1 {
      InsertionNeedsUndecided(s, e, digest, sid);
      assert false;
    }
  }

  lemma {:induction false} StoppedNeverInserted(s: System, es: seq<Event>, digest: Digest, sid: SessionId)
    requires PairingInv(s) && Throughout(s, es, digest, Fresh) && StoppedFor(s, sid)
    ensures StoppedFor(Run(s, es, digest), sid) && InsertCount(s, es, digest, sid) == 0
    ensures sid !in s.tables.sessions ==> sid !in Run(s, es, digest).tables.sessions
    decreases |es|
  {
    if es != [] {
      Prefix(s, es, digest, Fresh);
      StoppedNeverInserted(s, es[..|es| - 1], digest, sid);
      PairingAlongRun(s, es[..|es| - 1], digest);
      StoppedStep(Run(s, es[..|es| - 1], digest), es[|es| - 1], digest, sid);
    }
  }

  /** The user cancels, or cannot be asked: the session is not stored by that nor by anything that follows. */
  lemma CanceledNeverStored(s: System, who: Pending, decision: Decision, base: string, newId: FolderId, es: seq<Event>,
                            digest: Digest)
    requires PairingInv(s) && who in s.pairing.resolvers && decision in {Cancel, ResolverFailed}
    requires IsActive(s.pairing, who.sid) && who.sid !in s.tables.sessions
    requires Throughout(Step(s, Resolve(who, decision, base, newId), digest), es, digest, Fresh)
    ensures var s1 := Step(s, Resolve(who, decision, base, newId), digest);
            s1.tables == s.tables && who.sid !in Run(s1, es, digest).tables.sessions
            && StoppedFor(Run(s1, es, digest), who.sid)
  {
    var e := Resolve(who, decision, base, newId);
    CancelStores(s.pairing, s.tables, who, decision, base, newId);
    PairingStepOk(s, e, digest);
    StoppedNeverInserted(Step(s, e, digest), es, digest, who.sid);
  }

  // ----- only its device is told -----

  /** Once a device is paired, no other device is told the state of the session, over every run. */
  lemma OnlyItsDeviceIsTold(s: System, es: seq<Event>, digest: Digest, sid: SessionId, device: DeviceId, other: DeviceId)
    requires PairingInv(s) && Throughout(s, es, digest, Fresh)
    requires sid in s.pairing.records && s.pairing.records[sid].state == PairingCompleted
    requires s.pairing.records[sid].device == Some(device) && other != device
    ensures var p := Run(s, es, digest).pairing;
            && StateRequest(p, sid, other).Refused?
            && (StateRequest(p, sid, device).Answered? ==> StateRequest(p, sid, device).payload == s.pairing.records[sid].payload)
  {
    DecisionsAreFinal(s, es, digest, sid);
    PairingAlongRun(s, es, digest);
    StateIsToldIff(Run(s, es, digest).pairing, sid, other);
    StateIsToldIff(Run(s, es, digest).pairing, sid, device);
  }

  // ----- a status has its cause -----

  /** What may give a session this status. */
  ghost predicate Causes(s: System, e: Event, digest: Digest, sid: SessionId, status: SessionStatus) {
    match status
    case Paired => e.ClaimRequest? || e.Resolve?
    case Transferring => e.TransferStart? && e.sid == sid && e.proofOk
    case Completed => e.TransferComplete? && e.sid == sid && e.proofOk && e.failed == 0 && !e.stopped
    case Failed =>
      || (e.TransferComplete? && e.sid == sid && e.proofOk && e.failed != 0 && !e.stopped)
      || (e.StreamError? && e.sid == sid && e.proofOk)
      || (e.AssetUpload? && e.upload.sid == sid
          && UploadEffect(s.tables, s.files, Arrived(e.upload, e.received, digest), digest).reply.StorageFailed?)
    case StoppedByMobile =>
      (e.TransferComplete? && e.sid == sid && e.proofOk && e.stopped) || (e.StopBackup? && e.sid == sid)
  }

  /** The status of the row is new. */
  ghost predicate NewStatus(t: Tables, t': Tables, sid: SessionId) {
    sid in t'.sessions && (sid in t.sessions ==> t'.sessions[sid].status != t.sessions[sid].status)
  }

  lemma AcceptanceStatus(p: Pairing, t: Tables, who: Pending, base: string, context: Option<BackupAgain>, decision: Decision,
                         newId: FolderId, sid: SessionId)
    ensures var t' := Acceptance(p, t, who, base, context, decision, newId).1;
            NewStatus(t, t', sid) ==> t'.sessions[sid].status == Paired
  {
    if IsActive(p, who.sid) {
      AcceptedStoreAdds(t, who, p.active.value.root, base, context, decision, newId);
    }
  }

  lemma PairingStepStatus(s: System, e: Event, digest: Digest, sid: SessionId)
    requires (e.ClaimRequest? || e.Resolve?) && NewStatus(s.tables, Step(s, e, digest).tables, sid)
    ensures Step(s, e, digest).tables.sessions[sid].status == Paired
  {
    if e.ClaimRequest? {
      var p, c := s.pairing, e.claim;
      if p.active.Some? && c.platform.Some? && c.platform.value in p.active.value.tokens {
        AcceptanceStatus(p, s.tables, Claimant(p, c), c.base, p.context, BackupInNewFolder, e.newId, sid);
      }
    } else {
      AcceptanceStatus(s.pairing.(resolvers := s.pairing.resolvers - multiset{e.who}), s.tables, e.who, e.base,
                       Some(e.who.context), e.decision, e.newId, sid);
    }
  }

  lemma TransferStepStatus(s: System, e: Event, digest: Digest, sid: SessionId)
    requires e.TransferStart? || e.StreamError? || e.TransferComplete? || e.StopBackup?
    requires NewStatus(s.tables, Step(s, e, digest).tables, sid)
    ensures Causes(s, e, digest, sid, Step(s, e, digest).tables.sessions[sid].status)
  {
    match e {
      case TransferStart(of, device, total, proofOk) => StartIff(s.tables, of, device, total, proofOk);
      case StreamError(of, device, proofOk) => StreamErrorIff(s.tables, of, device, proofOk);
      case TransferComplete(of, device, transferred, failed, stopped, proofOk) =>
        CompletionIff(s.tables, of, device, transferred, failed, stopped, proofOk);
      case StopBackup(of, device) => StopIff(s.tables, of, device);
    }
  }

  /** Whatever the state, a session's status is new after a step only if the step is a cause of that status. */
  lemma StatusHasCause(s: System, e: Event, digest: Digest, sid: SessionId)
    requires NewStatus(s.tables, Step(s, e, digest).tables, sid)
    ensures Causes(s, e, digest, sid, Step(s, e, digest).tables.sessions[sid].status)
  {
    if e.ClaimRequest? || e.Resolve? {
      PairingStepStatus(s, e, digest, sid);
    } else if e.AssetUpload? {
      UploadRows(s.tables, s.files, Arrived(e.upload, e.received, digest), digest);
    } else if e.DeleteFolder? {
      DeletionShrinks(s.tables, e.paths);
    } else if e.TransferStart? || e.StreamError? || e.TransferComplete? || e.StopBackup? {
      TransferStepStatus(s, e, digest, sid);
    }
  }

  /** Somewhere in the run the status had its cause. */
  ghost predicate Caused(s: System, es: seq<Event>, digest: Digest, sid: SessionId, status: SessionStatus) {
    es != [] &&
    (Caused(s, es[..|es| - 1], digest, sid, status)
     || Causes(Run(s, es[..|es| - 1], digest), es[|es| - 1], digest, sid, status))
  }

  /** Over every run whatever from an empty store: a session that is completed was reported complete by its phone
      with nothing failed, one that failed did fail, and so on for every status. */
  lemma {:induction false} EveryStatusWasCaused(files: Files, es: seq<Event>, digest: Digest, sid: SessionId)
    requires sid in Run(Initial(files), es, digest).tables.sessions
    ensures Caused(Initial(files), es, digest, sid, Run(Initial(files), es, digest).tables.sessions[sid].status)
    decreases |es|
  {
    var front, last := es[..|es| - 1], es[|es| - 1];
    var mid := Run(Initial(files), front, digest);
    if NewStatus(mid.tables, Run(Initial(files), es, digest).tables, sid) {
      StatusHasCause(mid, last, digest, sid);
    } else {
      EveryStatusWasCaused(files, front, digest, sid);
    }
  }
}
