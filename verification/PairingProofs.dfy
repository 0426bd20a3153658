/** What every pairing step keeps, and what it may do to the record of a session. */
module PairingProofs {
  import opened Options
  import opened BackupStateMachine
  import opened PairingStore
  import opened PairingService

  /** The two parallel pieces of state name the same stage. */
  predicate SameStage(result: ResultState, state: BackupState) {
    match result
    case ResultWaiting => state == PendingPairing
    case ResultAccepted => state == PairingCompleted
    case ResultMismatched => state == PairingMismatched
    case ResultStopped => state == PairingStopped
    case ResultExpired => state == PairingExpired
  }

  predicate ActiveOk(p: Pairing) {
    p.active.Some? ==>
      var sid := p.active.value.sid;
      && sid in p.records && p.result.sid == Some(sid)
      && SameStage(p.result.state, p.records[sid].state)
      && p.active.value.tokens.Keys == {Android, Ios}
      && p.active.value.tokens[Android] == p.active.value.tokens[Ios]
  }

  /** A resolver thread runs once, for a session that saw a mismatch and, while active, still shows it. */
  ghost predicate ThreadOk(p: Pairing, r: Pending) {
    && p.resolvers[r] == 1 && r.sid in p.records && r.device != r.context.expected
    && p.records[r.sid].state in {PairingMismatched, PairingStopped}
    && (IsActive(p, r.sid) ==> p.records[r.sid].state == PairingMismatched)
  }

  /** At most one resolver thread per session. */
  ghost predicate ResolversOk(p: Pairing) {
    && (forall r :: r in p.resolvers ==> ThreadOk(p, r))
    && (forall r, q :: r in p.resolvers && q in p.resolvers && r.sid == q.sid ==> r == q)
  }

  /** The payload kept for retries says what the record says. */
  predicate RecordOk(r: Record, sid: SessionId) {
    r.payload.state == r.state && r.payload.sid == sid && r.payload.device == r.device
  }

  ghost predicate RecordsOk(p: Pairing) {
    forall sid :: sid in p.records ==> RecordOk(p.records[sid], sid)
  }

  ghost predicate PairingOk(p: Pairing) {
    ActiveOk(p) && ResolversOk(p) && RecordsOk(p) && !p.inProgress
  }

  ghost predicate OneTransition(before: BackupState, after: BackupState) {
    exists e :: Transition(before, e) == Some(after)
  }

  /** Every record written is the initial state of a new session or one transition of the table away. */
  ghost predicate RecordsMoveLegally(p: Pairing, p': Pairing) {
    && p.records.Keys <= p'.records.Keys
    && (forall sid :: sid in p'.records && sid !in p.records ==> p'.records[sid].state == PendingPairing)
    && (forall sid :: sid in p.records ==>
          p'.records[sid].state == p.records[sid].state || OneTransition(p.records[sid].state, p'.records[sid].state))
  }

  /** A completed session's record never changes again; a stopped one keeps its state. */
  ghost predicate DecisionsStand(p: Pairing, p': Pairing) {
    forall sid :: sid in p.records ==>
      && (p.records[sid].state == PairingCompleted ==> sid in p'.records && p'.records[sid] == p.records[sid])
      && (p.records[sid].state == PairingStopped ==> sid in p'.records && p'.records[sid].state == PairingStopped)
  }

  ghost predicate GoodStep(p: Pairing, p': Pairing) {
    PairingOk(p') && RecordsMoveLegally(p, p') && DecisionsStand(p, p')
  }

  /** The "ignored invalid transition" branch is unreachable: whatever the active session recorded, stopping
      it and accepting it are transitions of the table, and accepting always ends completed. */
  lemma NoIgnoredTransition(p: Pairing, sid: SessionId)
    requires PairingOk(p) && IsActive(p, sid)
    ensures var state := RecordedState(p, sid);
            && Transition(state, Stopped).Some?
            && (state == PairingMismatched ==> Transition(state, MismatchResolved).Some?)
            && Transition(if state == PairingMismatched then Transition(state, MismatchResolved).value else state, Accepted)
                 == Some(AcceptedState(state))
            && AcceptedState(state) == PairingCompleted
            && (state != PairingCompleted ==> OneTransition(state, PairingCompleted))
            && OneTransition(state, PairingStopped)
  {
    var state := RecordedState(p, sid);
    assert Transition(state, Stopped) == Some(PairingStopped);
    if state == PairingMismatched {
      assert Transition(state, MismatchResolved) == Some(PairingCompleted);
    } else {
      assert Transition(state, Accepted) == Some(PairingCompleted);
    }
  }

  /** Only the record of `sid` may differ, and only `sid` may be new. */
  ghost predicate OtherRecordsSame(p: Pairing, p': Pairing, sid: SessionId) {
    && p'.records.Keys == p.records.Keys + {sid}
    && forall s :: s in p.records && s != sid ==> p'.records[s] == p.records[s]
  }

  lemma ResolversCarry(p: Pairing, p': Pairing, sid: SessionId)
    requires ResolversOk(p) && OtherRecordsSame(p, p', sid)
    requires p'.resolvers <= p.resolvers && forall r :: r in p'.resolvers ==> r.sid != sid
    requires forall s :: s != sid && IsActive(p', s) ==> IsActive(p, s)
    ensures ResolversOk(p')
  {
    forall r | r in p'.resolvers
      ensures r in p.resolvers && ThreadOk(p', r)
    {
      assert p'.resolvers[r] <= p.resolvers[r];
      assert ThreadOk(p, r);
    }
  }

  lemma RecordsCarry(p: Pairing, p': Pairing, sid: SessionId)
    requires RecordsOk(p) && OtherRecordsSame(p, p', sid)
    requires RecordOk(p'.records[sid], sid)
    requires sid !in p.records ==> p'.records[sid].state == PendingPairing
    requires sid in p.records ==>
               p.records[sid].state != PairingCompleted && OneTransition(p.records[sid].state, p'.records[sid].state)
    requires sid in p.records && p.records[sid].state == PairingStopped ==> p'.records[sid].state == PairingStopped
    ensures RecordsOk(p') && RecordsMoveLegally(p, p') && DecisionsStand(p, p')
  {
  }

  /** Rewriting the record and the result of the active session, consistently. */
  lemma ActiveRewriteOk(p: Pairing, p': Pairing, sid: SessionId)
    requires PairingOk(p) && IsActive(p, sid)
    requires p'.active == p.active && p'.inProgress == p.inProgress
    requires OtherRecordsSame(p, p', sid) && p'.result.sid == Some(sid)
    requires SameStage(p'.result.state, p'.records[sid].state)
    requires RecordOk(p'.records[sid], sid)
    requires p.records[sid].state !in {PairingCompleted, PairingStopped}
    requires OneTransition(p.records[sid].state, p'.records[sid].state)
    requires p'.resolvers <= p.resolvers && forall r :: r in p'.resolvers ==> r.sid != sid
    ensures GoodStep(p, p')
  {
    ResolversCarry(p, p', sid);
    RecordsCarry(p, p', sid);
    assert ActiveOk(p');
  }

  lemma StartedOk(p: Pairing, sid: SessionId, root: string, context: Option<BackupAgain>, passcode: string, now: int)
    requires PairingOk(p) && sid !in p.records
    ensures GoodStep(p, Started(p, sid, root, context, passcode, now))
  {
    var p' := Started(p, sid, root, context, passcode, now);
    ResolversCarry(p, p', sid);
    RecordsCarry(p, p', sid);
    assert ActiveOk(p');
  }

  lemma SameRecordsOk(p: Pairing, p': Pairing)
    requires PairingOk(p) && p'.records == p.records && p'.resolvers <= p.resolvers
    requires forall s :: IsActive(p', s) ==> IsActive(p, s)
    requires ActiveOk(p') && !p'.inProgress
    ensures GoodStep(p, p')
  {
    forall r | r in p'.resolvers
      ensures r in p.resolvers && ThreadOk(p', r)
    {
      assert p'.resolvers[r] <= p.resolvers[r];
      assert ThreadOk(p, r);
    }
  }

  lemma RefreshedOk(p: Pairing, platform: Platform, passcode: string, now: int)
    requires PairingOk(p)
    ensures Refreshed(p, platform, passcode, now).Some? ==> GoodStep(p, Refreshed(p, platform, passcode, now).value)
  {
    if Refreshed(p, platform, passcode, now).Some? {
      SameRecordsOk(p, Refreshed(p, platform, passcode, now).value);
    }
  }

  lemma ClosedResolvers(p: Pairing)
    requires ResolversOk(p)
    ensures ResolversOk(Closed(p))
  {
    var p' := Closed(p);
    forall r | r in p'.resolvers
      ensures ThreadOk(p', r)
    {
      assert ThreadOk(p, r);
    }
  }

  lemma ClosedOk(p: Pairing)
    requires PairingOk(p)
    ensures GoodStep(p, Closed(p))
  {
    var p' := Closed(p);
    if p.active.Some? && p.result.state != ResultAccepted {
      var sid := p.active.value.sid;
      NoIgnoredTransition(p, sid);
      RecordsCarry(p, p', sid);
      ClosedResolvers(p);
    } else {
      SameRecordsOk(p, p');
    }
  }

  lemma MismatchOk(p: Pairing, who: Pending)
    requires PairingOk(p) && IsActive(p, who.sid) && who.device != who.context.expected
    requires p.records[who.sid].state in {PendingPairing, PairingExpired}
    ensures GoodStep(p, Mismatch(p, who))
  {
    var p' := Mismatch(p, who);
    assert Transition(p.records[who.sid].state, MismatchDetected) == Some(PairingMismatched);
    RecordsCarry(p, p', who.sid);
    MismatchResolvers(p, who);
    assert ActiveOk(p');
  }

  lemma MismatchResolvers(p: Pairing, who: Pending)
    requires ResolversOk(p) && IsActive(p, who.sid) && who.device != who.context.expected
    requires who.sid in p.records && p.records[who.sid].state in {PendingPairing, PairingExpired}
    ensures ResolversOk(Mismatch(p, who))
  {
    var p' := Mismatch(p, who);
    forall r | r in p.resolvers
      ensures r.sid != who.sid
    {
      assert ThreadOk(p, r);
    }
    forall r | r in p'.resolvers
      ensures ThreadOk(p', r)
    {
      assert r != who ==> r in p.resolvers && ThreadOk(p, r);
    }
  }

  lemma ExpiryOk(p: Pairing, sid: SessionId)
    requires PairingOk(p) && IsActive(p, sid) && p.records[sid].state in {PendingPairing, PairingExpired}
    ensures GoodStep(p, Expiry(p, sid))
  {
    assert Transition(p.records[sid].state, Expired) == Some(PairingExpired);
    forall r | r in p.resolvers
      ensures r.sid != sid
    {
      assert ThreadOk(p, r);
    }
    ActiveRewriteOk(p, Expiry(p, sid), sid);
  }

  lemma AcceptanceOk(p: Pairing, sid: SessionId, device: DeviceId, folder: FolderId, path: string)
    requires PairingOk(p) && IsActive(p, sid) && p.records[sid].state in {PendingPairing, PairingExpired, PairingMismatched}
    requires forall r :: r in p.resolvers ==> r.sid != sid
    ensures GoodStep(p, WithAcceptance(p, sid, device, folder, path))
  {
    NoIgnoredTransition(p, sid);
    ActiveRewriteOk(p, WithAcceptance(p, sid, device, folder, path), sid);
  }

  lemma StoppageOk(p: Pairing, sid: SessionId, device: DeviceId)
    requires PairingOk(p)
    requires IsActive(p, sid) ==> p.records[sid].state == PairingMismatched
    requires forall r :: r in p.resolvers ==> r.sid != sid
    ensures GoodStep(p, Stoppage(p, sid, device))
  {
    if IsActive(p, sid) {
      NoIgnoredTransition(p, sid);
      ActiveRewriteOk(p, Stoppage(p, sid, device), sid);
    }
  }

  /** A claim that gets past the checks finds an undecided session. */
  lemma UndecidedStage(p: Pairing)
    requires PairingOk(p) && p.active.Some? && !Decided(p)
    ensures p.records[p.active.value.sid].state in {PendingPairing, PairingExpired}
    ensures forall r :: r in p.resolvers ==> r.sid != p.active.value.sid
  {
    forall r | r in p.resolvers
      ensures r.sid != p.active.value.sid
    {
      assert ThreadOk(p, r);
    }
  }

  lemma ClaimedOk(p: Pairing, t: Tables, c: Claim, newId: FolderId, now: int)
    requires PairingOk(p)
    ensures GoodStep(p, Claimed(p, t, c, newId, now).0)
  {
    var (p', t', answer) := Claimed(p, t, c, newId, now);
    if p' != p {
      UndecidedStage(p);
      if p'.result.state == ResultExpired {
        ExpiryOk(p, c.sid);
      } else if p'.result.state == ResultMismatched {
        MismatchOk(p, p'.pending.value);
      } else {
        AcceptanceOk(p, c.sid, c.device, p'.records[c.sid].payload.folder.value, p'.records[c.sid].payload.folderPath.value);
      }
    }
  }

  /** Taking one resolver thread out leaves none for its session. */
  lemma WithoutResolverOk(p: Pairing, who: Pending)
    requires PairingOk(p) && who in p.resolvers
    ensures var q := p.(resolvers := p.resolvers - multiset{who});
            && PairingOk(q) && (forall r :: r in q.resolvers ==> r.sid != who.sid)
            && (IsActive(q, who.sid) ==> q.records[who.sid].state == PairingMismatched)
  {
    var q := p.(resolvers := p.resolvers - multiset{who});
    assert ThreadOk(p, who) && q.resolvers[who] == 0;
    forall r | r in q.resolvers
      ensures r in p.resolvers && ThreadOk(q, r) && r.sid != who.sid
    {
      assert q.resolvers[r] <= p.resolvers[r];
      assert ThreadOk(p, r);
    }
  }

  lemma ResolvedOk(p: Pairing, t: Tables, who: Pending, decision: Decision, base: string, newId: FolderId)
    requires PairingOk(p) && who in p.resolvers
    ensures GoodStep(p, Resolved(p, t, who, decision, base, newId).0)
  {
    WithoutResolverOk(p, who);
    var q := p.(resolvers := p.resolvers - multiset{who});
    var (p', t') := Resolved(p, t, who, decision, base, newId);
    if decision in {Cancel, ResolverFailed} {
      StoppageOk(q, who.sid, who.device);
      assert GoodStep(q, p');
    } else if p' != q {
      AcceptanceOk(q, who.sid, who.device, p'.records[who.sid].payload.folder.value,
                   p'.records[who.sid].payload.folderPath.value);
      assert GoodStep(q, p');
    }
  }

  /** A resolution for a session that is not active changes neither store nor record nor result. */
  lemma InactiveResolution(p: Pairing, t: Tables, who: Pending, decision: Decision, base: string, newId: FolderId)
    requires !IsActive(p, who.sid)
    ensures Resolved(p, t, who, decision, base, newId) == (p.(resolvers := p.resolvers - multiset{who}), t)
  {
  }

  /** Rotating the token keeps one token for both platforms, counts up, and gives it the full lifetime. */
  lemma RefreshRotates(p: Pairing, platform: Platform, passcode: string, now: int)
    requires PairingOk(p) && p.active.Some?
    ensures Refreshed(p, platform, passcode, now).None? <==> p.records[p.active.value.sid].state == PairingCompleted
    ensures Refreshed(p, platform, passcode, now).Some? ==>
              var tokens := Refreshed(p, platform, passcode, now).value.active.value.tokens;
              forall q: Platform, later ::
                q in tokens && tokens[q].passcode == passcode
                && tokens[q].generation == p.active.value.tokens[q].generation + 1
                && (IsExpired(tokens[q], later) <==> later > now + TOKEN_TTL - 1_000_000)
  {
    if Refreshed(p, platform, passcode, now).Some? {
      var tokens := Refreshed(p, platform, passcode, now).value.active.value.tokens;
      forall q: Platform, later: int
        ensures q in tokens && tokens[q].passcode == passcode
        ensures tokens[q].generation == p.active.value.tokens[q].generation + 1
        ensures IsExpired(tokens[q], later) <==> later > now + TOKEN_TTL - 1_000_000
      {
        assert q == Android || q == Ios;
        assert p.active.value.tokens[platform].generation == p.active.value.tokens[q].generation;
      }
    }
  }
}
