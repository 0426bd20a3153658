/** instant_sharing/orchestrator.py, transfer_server.py and the transfer control flow of https_tls_server.py.
    `written` counts, beside the registry, the images written to disk for the session now held under an id. */
module InstantShareReceiver {
  import opened Options
  import opened InstantShareSession

  /** An image request. `trust` is what the trust registry says of the session: unknown (a revisit), known but
      not trusted, or trusted. */
  datatype ImageRequest = ImageRequest(trust: Option<bool>, wellFormed: bool, count: int, body: bool, deliverOk: bool)
  datatype TextRequest = TextRequest(trust: Option<bool>, wellFormed: bool, readable: bool, deliverOk: bool)

  datatype Receiver = Receiver(reg: Registry, written: map<string, nat>)

  function WrittenFor(s: Receiver, id: string): nat {
    if id in s.written then s.written[id] else 0
  }

  // ----- the orchestrator -----

  function BootedAt(s: Receiver, max: int, id: string, image: bool): (Receiver, Option<Error>) {
    var (r, error) := Booted(s.reg, max, id, image);
    (Receiver(r, if id !in s.reg.sessions && error == None then s.written[id := 0] else s.written), error)
  }

  function ConfigEffect(s: Receiver, max: int, id: string, image: bool): (Receiver, Option<Error>) {
    var (s1, error) := BootedAt(s, max, id, image);
    if error.Some? then (s1, error)
    else
      var (r, e) := Moved(s1.reg, id, Queued);
      (s1.(reg := r), e)
  }

  /** `handle_revisit_transfer`: a request may carry the expected count, and every one of them sets it. */
  function RevisitEffect(s: Receiver, max: int, id: string, image: bool, count: int): (Receiver, Option<Error>) {
    var (s1, error) := BootedAt(s, max, id, image);
    if error.Some? then (s1, error)
    else
      var (r2, e2) := if s1.reg.sessions[id].state != Transferring then Moved(s1.reg, id, Transferring) else (s1.reg, None);
      if e2.Some? then (s1, e2)
      else if count > 0 then (s1.(reg := WithCount(r2, id, count).0), None)
      else (s1.(reg := r2), None)
  }

  /** `handle_transfer_received`: the count is set once, the image counted, and the session moved on, in this
      order; None when the move is refused. */
  function ReceivedEffect(r: Registry, id: string, count: int): (Registry, Option<bool>) {
    if id !in r.sessions then (r, None)
    else
      var r1 := if count > 0 && r.sessions[id].imageCount == 0 then WithCount(r, id, count).0 else r;
      var r2 := WithOneMore(r1, id).0;
      var (r3, error) := if r.sessions[id].state != Transferring then Moved(r2, id, Transferring) else (r2, None);
      if error.Some? then (r2, None)
      else
        var x := r3.sessions[id];
        (r3, Some(x.imageCount == 0 || x.receivedCount >= x.imageCount))
  }

  /** `handle_delivery_complete`. */
  function DeliveryEffect(r: Registry, id: string): Registry {
    if id !in r.sessions then r
    else
      var x := r.sessions[id];
      if x.imageCount > 0 && x.receivedCount < x.imageCount then r
      else
        var (r1, error) := if x.state != Delivering then Moved(r, id, Delivering) else (r, None);
        if error.Some? then r else Moved(r1, id, Done).0
  }

  /** `fail_session`: the wanted end state, or else failed. */
  function FailEffect(r: Registry, id: string, wanted: State): (Registry, Option<Error>) {
    var (r1, error) := Moved(r, id, wanted);
    if error == None then (r1, None) else Moved(r, id, Failed)
  }

  // ----- the requests -----

  function Admitted(s: Receiver, max: int, id: string, image: bool, trust: Option<bool>, wellFormed: bool, count: int)
    : (Receiver, Option<Error>)
  {
    match trust
    case None => if wellFormed then RevisitEffect(s, max, id, image, count) else (s, Some(NotFound))
    case Some(trusted) => (s, if trusted then None else Some(TrustRequired))
  }

  /** The checks of `receive_image`, before anything is written. */
  function Guard(r: Registry, id: string, body: bool): Option<Error> {
    if id !in r.sessions then Some(SessionMismatch)
    else
      var x := r.sessions[id];
      if !x.image then Some(PathInvalid)
      else if x.imageCount > 0 && x.receivedCount >= x.imageCount then Some(LimitExceeded)
      else if !body then Some(Unreadable)
      else None
  }

  function Counted(r: Registry, id: string, count: int): Registry {
    var (r1, complete) := ReceivedEffect(r, id, count);
    if complete == Some(true) then DeliveryEffect(r1, id) else r1
  }

  /** `_do_transfer_image`. Whatever goes wrong after the image is written is only logged. */
  function ImageEffect(s: Receiver, max: int, id: string, q: ImageRequest): (Receiver, Option<Error>) {
    var (s1, error) := Admitted(s, max, id, true, q.trust, q.wellFormed, q.count);
    if error.Some? then (s1, error)
    else if Guard(s1.reg, id, q.body).Some? then (s1, Guard(s1.reg, id, q.body))
    else if !q.deliverOk then (s1, Some(DeliveryFailed))
    else (Receiver(Counted(s1.reg, id, q.count), s1.written[id := WrittenFor(s1, id) + 1]), None)
  }

  /** `_do_transfer_text`: only the trusted flow counts the text as received. */
  function TextEffect(s: Receiver, max: int, id: string, q: TextRequest): (Receiver, Option<Error>) {
    var (s1, error) := Admitted(s, max, id, false, q.trust, q.wellFormed, 0);
    if error.Some? then (s1, error)
    else if id !in s1.reg.sessions then (s1, Some(SessionMismatch))
    else if s1.reg.sessions[id].image then (s1, Some(PathInvalid))
    else if !q.readable then (s1, Some(Unreadable))
    else if !q.deliverOk then (s1, Some(DeliveryFailed))
    else if q.trust.None? then (s1.(reg := DeliveryEffect(s1.reg, id)), None)
    else
      var (r, complete) := ReceivedEffect(s1.reg, id, 0);
      (s1.(reg := if complete.Some? then DeliveryEffect(r, id) else r), None)
  }

  class ShareService {
    const registry: SessionRegistry
    var written: map<string, nat>

    ghost function S(): Receiver
      reads this, registry
    {
      Receiver(registry.R(), written)
    }

    constructor (registry: SessionRegistry)
      requires registry.R() == Registry(map[], {}, multiset{})
      ensures this.registry == registry && S() == Receiver(Registry(map[], {}, multiset{}), map[])
    {
      this.registry, written := registry, map[];
    }

    method BootSession(id: string, image: bool) returns (error: Option<Error>)
      modifies this, registry
      ensures (S(), error) == BootedAt(old(S()), registry.maxSessions, id, image)
    {
      var known := id in registry.activeSessions;
      error := registry.Bootstrap(id, image);
      if !known && error.None? {
        written := written[id := 0];
      }
    }

    method HandleConnectionConfig(id: string, image: bool) returns (error: Option<Error>)
      modifies this, registry
      ensures (S(), error) == ConfigEffect(old(S()), registry.maxSessions, id, image)
    {
      error := BootSession(id, image);
      if error.None? {
        error := registry.Transition(id, Queued);
      }
    }

    method HandleTrustHandshake(id: string) returns (error: Option<Error>)
      modifies registry
      ensures (registry.R(), error) == Moved(old(registry.R()), id, Negotiating)
    {
      error := registry.Transition(id, Negotiating);
    }

    method HandleRevisitTransfer(id: string, image: bool, count: int) returns (error: Option<Error>)
      modifies this, registry
      ensures (S(), error) == RevisitEffect(old(S()), registry.maxSessions, id, image, count)
    {
      error := BootSession(id, image);
      if error.Some? {
        return;
      }
      if registry.activeSessions[id].state != Transferring {
        error := registry.Transition(id, Transferring);
        if error.Some? {
          return;
        }
      }
      if count > 0 {
        error := registry.SetBatchMetadata(id, count);
      }
    }

    method HandleTransferReceived(id: string, count: int) returns (complete: Option<bool>)
      modifies registry
      ensures (registry.R(), complete) == ReceivedEffect(old(registry.R()), id, count)
    {
      if id !in registry.activeSessions {
        return None;
      }
      var session := registry.activeSessions[id];
      if count > 0 && session.imageCount == 0 {
        var _ := registry.SetBatchMetadata(id, count);
      }
      var _ := registry.IncrementReceivedCount(id);
      if session.state != Transferring {
        var error := registry.Transition(id, Transferring);
        if error.Some? {
          return None;
        }
      }
      session := registry.activeSessions[id];
      complete := Some(session.imageCount == 0 || session.receivedCount >= session.imageCount);
    }

    method HandleDeliveryComplete(id: string)
      modifies registry
      ensures registry.R() == DeliveryEffect(old(registry.R()), id)
    {
      if id !in registry.activeSessions {
        return;
      }
      var session := registry.activeSessions[id];
      if session.imageCount > 0 && session.receivedCount < session.imageCount {
        return;
      }
      if session.state != Delivering {
        var error := registry.Transition(id, Delivering);
        if error.Some? {
          return;
        }
      }
      var _ := registry.Transition(id, Done);
    }

    method FailSession(id: string, wanted: State) returns (error: Option<Error>)
      modifies registry
      ensures (registry.R(), error) == FailEffect(old(registry.R()), id, wanted)
    {
      error := registry.Transition(id, wanted);
      if error.Some? {
        error := registry.Transition(id, Failed);
      }
    }

    method ReceiveImage(id: string, body: bool, deliverOk: bool) returns (error: Option<Error>)
      modifies `written
      ensures error == if Guard(registry.R(), id, body).Some? then Guard(registry.R(), id, body)
                       else if deliverOk then None else Some(DeliveryFailed)
      ensures S() == if error.None? then old(S()).(written := old(written)[id := WrittenFor(old(S()), id) + 1]) else old(S())
    {
      if id !in registry.activeSessions {
        return Some(SessionMismatch);
      }
      var session := registry.activeSessions[id];
      if !session.image {
        return Some(PathInvalid);
      }
      if session.imageCount > 0 && session.receivedCount >= session.imageCount {
        return Some(LimitExceeded);
      }
      if !body {
        return Some(Unreadable);
      }
      if !deliverOk {
        return Some(DeliveryFailed);
      }
      written := written[id := 1 + if id in written then written[id] else 0];
      return None;
    }

    method DoTransferImage(id: string, q: ImageRequest) returns (error: Option<Error>)
      modifies this, registry
      ensures (S(), error) == ImageEffect(old(S()), registry.maxSessions, id, q)
    {
      if q.trust.None? {
        if !q.wellFormed {
          return Some(NotFound);
        }
        error := HandleRevisitTransfer(id, true, q.count);
        if error.Some? {
          return;
        }
      } else if !q.trust.value {
        return Some(TrustRequired);
      }
      error := ReceiveImage(id, q.body, q.deliverOk);
      if error.Some? {
        return;
      }
      var complete := HandleTransferReceived(id, q.count);
      if complete == Some(true) {
        HandleDeliveryComplete(id);
      }
    }

    method DoTransferText(id: string, q: TextRequest) returns (error: Option<Error>)
      modifies this, registry
      ensures (S(), error) == TextEffect(old(S()), registry.maxSessions, id, q)
    {
      if q.trust.None? {
        if !q.wellFormed {
          return Some(NotFound);
        }
        error := HandleRevisitTransfer(id, false, 0);
        if error.Some? {
          return;
        }
      } else if !q.trust.value {
        return Some(TrustRequired);
      }
      if id !in registry.activeSessions {
        return Some(SessionMismatch);
      }
      if registry.activeSessions[id].image {
        return Some(PathInvalid);
      }
      if !q.readable {
        return Some(Unreadable);
      }
      if !q.deliverOk {
        return Some(DeliveryFailed);
      }
      if q.trust.Some? {
        var complete := HandleTransferReceived(id, 0);
        if complete.None? {
          return None;
        }
      }
      HandleDeliveryComplete(id);
      return None;
    }
  }
}
