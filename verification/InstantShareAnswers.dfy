/** Who may send what, and every answer: in terms of the trust registry, the sessions held and the request, not of
    the steps that lead there. */
module InstantShareAnswers {
  import opened Options
  import opened InstantShareSession
  import opened InstantShareReceiver
  import opened InstantShareProofs

  // ----- trust -----

  /** A session known to the trust registry is served only when trusted, an unknown one only as a well-formed
      revisit; a refused request changes nothing. */
  lemma UntrustedIsRefused(s: Receiver, max: int, id: string, q: ImageRequest, t: TextRequest)
    ensures q.trust == Some(false) ==> ImageEffect(s, max, id, q) == (s, Some(TrustRequired))
    ensures t.trust == Some(false) ==> TextEffect(s, max, id, t) == (s, Some(TrustRequired))
    ensures q.trust == None && !q.wellFormed ==> ImageEffect(s, max, id, q) == (s, Some(NotFound))
    ensures t.trust == None && !t.wellFormed ==> TextEffect(s, max, id, t) == (s, Some(NotFound))
    ensures ImageEffect(s, max, id, q).1 == Some(TrustRequired) ==> q.trust == Some(false)
    ensures TextEffect(s, max, id, t).1 == Some(TrustRequired) ==> t.trust == Some(false)
  {
  }

  /** An image request of a trusted session, or a well-formed one of an unknown session. */
  predicate Permitted(e: Event, id: string) {
    e.Image? && e.id == id && (e.q.trust == Some(true) || (e.q.trust == None && e.q.wellFormed))
  }

  function PermittedCount(events: seq<Event>, id: string): nat {
    if events == [] then 0
    else PermittedCount(events[..|events| - 1], id) + if Permitted(events[|events| - 1], id) then 1 else 0
  }

  lemma StepWrites(s: Receiver, max: int, e: Event, id: string)
    ensures WrittenFor(After(s, max, e), id) <= WrittenFor(s, id) + if Permitted(e, id) then 1 else 0
  {
    if e.id != id {
      WrittenElsewhere(s, max, e, id);
    }
  }

  /** Over every run the files written for a session are no more than its permitted requests, whatever all other
      requests are. */
  lemma {:induction false} WrittenOnlyIfPermitted(s: Receiver, max: int, events: seq<Event>, id: string)
    ensures WrittenFor(Run(s, max, events), id) <= WrittenFor(s, id) + PermittedCount(events, id)
    decreases |events|
  {
    if events != [] {
      var front := events[..|events| - 1];
      WrittenOnlyIfPermitted(s, max, front, id);
      StepWrites(Run(s, max, front), max, events[|events| - 1], id);
    }
  }

  // ----- images -----

  /** A revisiting sender finds its session, or there is room for one; and it is transferring or may go there. */
  ghost predicate RevisitOpens(s: Receiver, max: int, id: string) {
    if id in s.reg.sessions then s.reg.sessions[id].state in {Bootstrapped, Queued, Negotiating, Transferring}
    else |set i | i in s.reg.sessions && Live(s.reg.sessions[i].state)| < max
  }

  /** The request is let in: by trust, or as a revisit. */
  ghost predicate LetIn(s: Receiver, max: int, id: string, trust: Option<bool>, wellFormed: bool) {
    trust == Some(true) || (trust == None && wellFormed && RevisitOpens(s, max, id))
  }

  /** The count a request is measured against: a revisiting sender sets it first. */
  function CountFor(x: Session, q: ImageRequest): int {
    if q.trust.None? && q.count > 0 then q.count else x.imageCount
  }

  /** An image is written exactly when the request is let in, the session is there and takes images, fewer than
      its count were received, the body is readable and the disk takes it; then it is one more file. */
  lemma ImageWrittenIff(s: Receiver, max: int, id: string, q: ImageRequest)
    ensures var (s', error) := ImageEffect(s, max, id, q); var x := Seen(s, id);
            && (error == None <==>
                  && LetIn(s, max, id, q.trust, q.wellFormed) && (q.trust == Some(true) ==> id in s.reg.sessions)
                  && x.image && (CountFor(x, q) > 0 ==> x.receivedCount < CountFor(x, q))
                  && q.body && q.deliverOk)
            && (error == None ==> WrittenFor(s', id) == 1 + if id in s.reg.sessions then WrittenFor(s, id) else 0)
            && (error != None && id in s.reg.sessions ==> WrittenFor(s', id) == WrittenFor(s, id))
  {
    LiveIdsAre(s.reg);
  }

  lemma LiveIdsAre(r: Registry)
    ensures LiveIds(r) == set i | i in r.sessions && Live(r.sessions[i].state)
  {
  }

  // ----- texts -----

  /** A text is taken exactly when the request is let in, the session is there and takes text, and the text can be
      read and delivered. */
  lemma TextTakenIff(s: Receiver, max: int, id: string, t: TextRequest)
    ensures var x := if id in s.reg.sessions then s.reg.sessions[id] else Session(Bootstrapped, false, 0, 0);
            TextEffect(s, max, id, t).1 == None <==>
              && LetIn(s, max, id, t.trust, t.wellFormed) && (t.trust == Some(true) ==> id in s.reg.sessions)
              && !x.image && t.readable && t.deliverOk
  {
    LiveIdsAre(s.reg);
  }

  /** A text that was taken ends its session: done, unless the session was over before, was just delivering, or a
      stray image request had given it a count that one text does not fill. */
  lemma TextEndsDoneIff(s: Receiver, max: int, id: string, t: TextRequest)
    requires TextEffect(s, max, id, t).1 == None
    ensures var x := if id in s.reg.sessions then s.reg.sessions[id] else Session(Bootstrapped, false, 0, 0);
            var got := x.receivedCount + if t.trust == Some(true) then 1 else 0;
            var s' := TextEffect(s, max, id, t).0;
            id in s'.reg.sessions && s'.reg.sessions[id].receivedCount == got
            && (s'.reg.sessions[id].state == Done <==>
                  x.state == Done || (x.state in {Bootstrapped, Queued, Negotiating, Transferring}
                                      && (x.imageCount > 0 ==> x.imageCount <= got)))
  {
    if t.trust == Some(true) {
      ReceivedIs(s.reg, id, 0);
      var r := ReceivedEffect(s.reg, id, 0).0;
      if ReceivedEffect(s.reg, id, 0).1.Some? {
        TextDelivered(r, id);
      }
    } else {
      TextDelivered(Admitted(s, max, id, false, t.trust, t.wellFormed, 0).0.reg, id);
    }
  }

  lemma TextDelivered(r: Registry, id: string)
    requires id in r.sessions && r.sessions[id].state == Transferring
    ensures id in DeliveryEffect(r, id).sessions
    ensures var x := r.sessions[id];
            DeliveryEffect(r, id).sessions[id] ==
              if x.imageCount > 0 && x.receivedCount < x.imageCount then x else x.(state := Done)
  {
    if !(r.sessions[id].imageCount > 0 && r.sessions[id].receivedCount < r.sessions[id].imageCount) {
      DeliveryIs(r, id);
    }
  }

  /** A text session that is sent an image with a count of two by mistake refuses the image and keeps the count; the
      text that follows is taken, and its session is never done. */
  lemma StrayCountHoldsText()
    ensures var s := ConfigEffect(EMPTY, 100, "t", false).0;
            var (s1, refused) := ImageEffect(s, 100, "t", ImageRequest(None, true, 2, true, true));
            var (s2, taken) := TextEffect(s1, 100, "t", TextRequest(None, true, true, true));
            refused == Some(PathInvalid) && taken == None
            && "t" in s2.reg.sessions && s2.reg.sessions["t"].state == Transferring
  {
    var s := ConfigEffect(EMPTY, 100, "t", false).0;
    ConfigStartsIff(EMPTY, 100, "t", false);
    assert |set i | i in EMPTY.reg.sessions && Live(EMPTY.reg.sessions[i].state)| == 0;
    assert s.reg.sessions["t"] == Session(Queued, false, 0, 0);
    var s1 := ImageEffect(s, 100, "t", ImageRequest(None, true, 2, true, true)).0;
    assert s1.reg.sessions["t"] == Session(Transferring, false, 2, 0);
    TextTakenIff(s1, 100, "t", TextRequest(None, true, true, true));
  }

  // ----- starting and failing -----

  /** A configuration starts a session exactly once, and exactly while there is room; then it is queued. */
  lemma ConfigStartsIff(s: Receiver, max: int, id: string, image: bool)
    ensures var (s', error) := ConfigEffect(s, max, id, image);
            && (error == None <==> if id in s.reg.sessions then s.reg.sessions[id].state == Bootstrapped
                                   else |set i | i in s.reg.sessions && Live(s.reg.sessions[i].state)| < max)
            && (error == Some(Busy) <==> id !in s.reg.sessions
                                         && |set i | i in s.reg.sessions && Live(s.reg.sessions[i].state)| >= max)
            && (error != None ==> s' == s)
            && (error == None && id !in s.reg.sessions ==>
                  id in s'.reg.sessions && s'.reg.sessions[id] == Session(Queued, image, 0, 0) && WrittenFor(s', id) == 0)
            && (error == None ==> ConfigEffect(s', max, id, image) == (s', Some(InvalidRequest)))
  {
    LiveIdsAre(s.reg);
  }

  /** A handshake moves on exactly a session that has not negotiated yet; confirming it once more is refused. */
  lemma HandshakeNegotiatesIff(r: Registry, id: string)
    ensures var (r', error) := Moved(r, id, Negotiating);
            && (error == None <==> id in r.sessions && r.sessions[id].state in {Bootstrapped, Queued})
            && (error == None ==> r' == r.(sessions := r.sessions[id := r.sessions[id].(state := Negotiating)])
                                  && Moved(r', id, Negotiating) == (r', Some(InvalidRequest)))
            && (error != None ==> r' == r)
  {
  }

  /** Failing a session ends it exactly when it was queued, negotiating, transferring or delivering: as wanted if its
      state allows that, else as failed; a session only just bootstrapped cannot fail. */
  lemma FailEndsIff(r: Registry, id: string, wanted: State)
    requires wanted in {Failed, TimedOut, Aborted} && id in r.sessions && Live(r.sessions[id].state)
    ensures var (r', error) := FailEffect(r, id, wanted); var state := r.sessions[id].state;
            && id in r'.sessions
            && (error == None <==> state != Bootstrapped) && (error != None ==> r' == r)
            && (error == None ==>
                  r'.sessions[id] == r.sessions[id].(state :=
                    if wanted == TimedOut && state == Delivering then Failed
                    else if wanted == Aborted && state != Transferring then Failed
                    else wanted))
  {
  }
}
