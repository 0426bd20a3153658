/** Runs of the instant-share receiver: the registry stays safe, and a batch whose images carry their count is
    delivered exactly once. */
module InstantShareProofs {
  import opened Options
  import opened InstantShareSession
  import opened InstantShareReceiver

  datatype Event =
    | Config(id: string, image: bool)
    | Handshake(id: string)
    | Image(id: string, q: ImageRequest)
    | Text(id: string, t: TextRequest)
    | Fail(id: string, wanted: State)
    | Abort(id: string)
    | TimerFires(id: string)

  function After(s: Receiver, max: int, e: Event): Receiver {
    match e
    case Config(id, image) => ConfigEffect(s, max, id, image).0
    case Handshake(id) => s.(reg := Moved(s.reg, id, Negotiating).0)
    case Image(id, q) => ImageEffect(s, max, id, q).0
    case Text(id, t) => TextEffect(s, max, id, t).0
    case Fail(id, wanted) => s.(reg := FailEffect(s.reg, id, wanted).0)
    case Abort(id) => s.(reg := Moved(s.reg, id, Aborted).0)
    case TimerFires(id) => s.(reg := Cleaned(s.reg, id))
  }

  // ----- one session -----

  /** Counter and files agree; the count is never passed; a session is done only with all its images, and holds
      all of them only when it is over. */
  ghost predicate BatchOk(x: Session, written: nat) {
    x.image ==>
      && x.receivedCount == written
      && x.imageCount >= 0
      && (x.imageCount == 0 ==> written == 0)
      && (x.imageCount > 0 ==> written <= x.imageCount)
      && (x.state == Done ==> 0 < x.imageCount == written)
      && x.state != Delivering
      && (0 < x.imageCount == written ==> !Live(x.state))
  }

  ghost predicate SessionOk(s: Receiver, id: string) {
    id in s.reg.sessions ==> BatchOk(s.reg.sessions[id], WrittenFor(s, id))
  }

  function Seen(s: Receiver, id: string): Session {
    if id in s.reg.sessions then s.reg.sessions[id] else Session(Bootstrapped, true, 0, 0)
  }

  /** The request gets past the trust and session checks. */
  predicate Reaches(s: Receiver, max: int, id: string, q: ImageRequest) {
    var (s1, error) := Admitted(s, max, id, true, q.trust, q.wellFormed, q.count);
    error == None && id in s1.reg.sessions && Seen(s, id).image
  }

  /** What the sender owes: an image that can be stored comes with a positive count unless the session has one,
      and a revisiting sender does not lower the count to what was already received. */
  predicate CountRight(s: Receiver, max: int, id: string, q: ImageRequest) {
    Reaches(s, max, id, q) ==>
      && (q.trust.None? && q.count > 0 ==> Seen(s, id).receivedCount < q.count)
      && (q.body && q.deliverOk ==> q.count > 0 || Seen(s, id).imageCount > 0)
  }

  lemma AdmittedIs(s: Receiver, max: int, id: string, q: ImageRequest)
    requires Reaches(s, max, id, q)
    ensures var s1, x := Admitted(s, max, id, true, q.trust, q.wellFormed, q.count).0, Seen(s, id);
            s1.reg.sessions[id] ==
              (if q.trust.Some? then x
               else x.(state := Transferring, imageCount := if q.count > 0 then q.count else x.imageCount))
            && WrittenFor(s1, id) == (if id in s.reg.sessions then WrittenFor(s, id) else 0)
            && (q.trust.Some? ==> id in s.reg.sessions)
  {
  }

  /** The new state of a session whose image was written. */
  function AfterImage(x: Session, count: int): Session {
    var n := if x.imageCount == 0 && count > 0 then count else x.imageCount;
    var state := if x.state == Transferring || Transferring in Allowed(x.state) then Transferring else x.state;
    var got := x.receivedCount + 1;
    Session(if state == Transferring && (n == 0 || got >= n) then Done else state, x.image, n, got)
  }

  lemma ReceivedIs(r: Registry, id: string, count: int)
    requires id in r.sessions
    ensures var (r1, complete) := ReceivedEffect(r, id, count);
            var x := r.sessions[id];
            var n := if x.imageCount == 0 && count > 0 then count else x.imageCount;
            var moves := x.state == Transferring || Transferring in Allowed(x.state);
            id in r1.sessions
            && r1.sessions[id] == Session(if moves then Transferring else x.state, x.image, n, x.receivedCount + 1)
            && complete == if moves then Some(n == 0 || x.receivedCount + 1 >= n) else None
  {
  }

  lemma DeliveryIs(r: Registry, id: string)
    requires id in r.sessions && r.sessions[id].state == Transferring
    requires r.sessions[id].imageCount > 0 ==> r.sessions[id].receivedCount >= r.sessions[id].imageCount
    ensures id in DeliveryEffect(r, id).sessions
    ensures DeliveryEffect(r, id).sessions[id] == r.sessions[id].(state := Done)
  {
    MoveIs(r, id, Delivering);
    MoveIs(Moved(r, id, Delivering).0, id, Done);
  }

  lemma MoveIs(r: Registry, id: string, next: State)
    requires id in r.sessions && next in Allowed(r.sessions[id].state)
    ensures Moved(r, id, next).1 == None && id in Moved(r, id, next).0.sessions
    ensures Moved(r, id, next).0.sessions[id] == r.sessions[id].(state := next)
  {
  }

  lemma CountedIs(r: Registry, id: string, count: int)
    requires id in r.sessions
    ensures id in Counted(r, id, count).sessions
    ensures Counted(r, id, count).sessions[id] == AfterImage(r.sessions[id], count)
  {
    ReceivedIs(r, id, count);
    var (r1, complete) := ReceivedEffect(r, id, count);
    if complete == Some(true) {
      DeliveryIs(r1, id);
    }
  }

  lemma UnreachedKeeps(s: Receiver, max: int, id: string, q: ImageRequest)
    requires SessionOk(s, id) && !Reaches(s, max, id, q)
    ensures SessionOk(ImageEffect(s, max, id, q).0, id)
  {
  }

  /** The sessions a request sees after the trust and session checks. */
  function Given(x: Session, q: ImageRequest): Session {
    if q.trust.Some? then x else x.(state := Transferring, imageCount := if q.count > 0 then q.count else x.imageCount)
  }

  lemma GivenIsOkIff(x: Session, written: nat, q: ImageRequest)
    requires x.image && BatchOk(x, written)
    ensures BatchOk(Given(x, q), written) <==>
            (q.trust.None? ==> (q.count > 0 ==> written < q.count) && (q.count <= 0 ==> 0 < x.imageCount ==> written < x.imageCount))
  {
  }

  lemma WrittenIsOkIff(x: Session, written: nat, count: int)
    requires x.image && BatchOk(x, written) && (x.imageCount > 0 ==> written < x.imageCount)
    ensures BatchOk(AfterImage(x, count), written + 1) <==> count > 0 || x.imageCount > 0
  {
  }

  /** Exactly when an image request keeps the batch in order. */
  lemma ImageKeepsBatchIff(s: Receiver, max: int, id: string, q: ImageRequest)
    requires SessionOk(s, id)
    ensures SessionOk(ImageEffect(s, max, id, q).0, id) <==> CountRight(s, max, id, q)
  {
    if !Reaches(s, max, id, q) {
      UnreachedKeeps(s, max, id, q);
    } else {
      ReachedKeepsIff(s, max, id, q);
    }
  }

  lemma ReachedKeepsIff(s: Receiver, max: int, id: string, q: ImageRequest)
    requires SessionOk(s, id) && Reaches(s, max, id, q)
    ensures SessionOk(ImageEffect(s, max, id, q).0, id) <==> CountRight(s, max, id, q)
  {
    var s1, x := Admitted(s, max, id, true, q.trust, q.wellFormed, q.count).0, Seen(s, id);
    var written := WrittenFor(s1, id);
    AdmittedIs(s, max, id, q);
    assert s1.reg.sessions[id] == Given(x, q) && BatchOk(x, written);
    GivenIsOkIff(x, written, q);
    if q.trust.None? && q.count <= 0 {
      assert 0 < x.imageCount ==> written < x.imageCount by {
        assert id in s.reg.sessions ==> x.state == Transferring || Transferring in Allowed(x.state);
      }
    }
    if Guard(s1.reg, id, q.body).None? && q.deliverOk {
      CountedIs(s1.reg, id, q.count);
      if BatchOk(Given(x, q), written) {
        WrittenIsOkIff(Given(x, q), written, q.count);
      }
    }
  }

  /** Once an image is in, only a revisiting sender can change the expected count, by sending another one. */
  lemma CountChangesIff(s: Receiver, max: int, id: string, q: ImageRequest)
    requires SessionOk(s, id) && id in s.reg.sessions && s.reg.sessions[id].image && s.reg.sessions[id].receivedCount > 0
    ensures id in ImageEffect(s, max, id, q).0.reg.sessions
    ensures ImageEffect(s, max, id, q).0.reg.sessions[id].imageCount != s.reg.sessions[id].imageCount
       <==> Reaches(s, max, id, q) && q.trust.None? && q.count > 0 && q.count != s.reg.sessions[id].imageCount
  {
    var s1 := Admitted(s, max, id, true, q.trust, q.wellFormed, q.count).0;
    if Reaches(s, max, id, q) {
      AdmittedIs(s, max, id, q);
      if Guard(s1.reg, id, q.body).None? && q.deliverOk {
        CountedIs(s1.reg, id, q.count);
      }
    }
  }

  /** A live batch is done after a request exactly when that request wrote the last of its images. */
  lemma DoneExactlyAtTheLast(s: Receiver, max: int, id: string, q: ImageRequest)
    requires SessionOk(s, id) && CountRight(s, max, id, q)
    requires id in s.reg.sessions && s.reg.sessions[id].image && Live(s.reg.sessions[id].state)
    ensures var (s', error) := ImageEffect(s, max, id, q);
            id in s'.reg.sessions
            && (s'.reg.sessions[id].state == Done <==>
                  error == None && WrittenFor(s', id) == WrittenFor(s, id) + 1 == s'.reg.sessions[id].imageCount)
  {
    var s1 := Admitted(s, max, id, true, q.trust, q.wellFormed, q.count).0;
    if Reaches(s, max, id, q) {
      AdmittedIs(s, max, id, q);
      if Guard(s1.reg, id, q.body).None? && q.deliverOk {
        CountedIs(s1.reg, id, q.count);
      }
    }
  }

  /** Every further image of a done batch is refused before anything is written, whatever it carries. */
  lemma DoneRefuses(s: Receiver, max: int, id: string, q: ImageRequest)
    requires SessionOk(s, id) && id in s.reg.sessions && s.reg.sessions[id].image && s.reg.sessions[id].state == Done
    ensures ImageEffect(s, max, id, q).1.Some? && ImageEffect(s, max, id, q).0 == s
  {
  }

  // ----- where the sender does not keep to it -----

  const FIRST := ImageRequest(Some(true), true, 0, true, true)

  /** A trusted batch that starts without a count is done after its first image, and the next one is written
      all the same. */
  lemma UncountedBatchOverruns(max: int)
    ensures var s := Receiver(Registry(map["a" := Session(Queued, true, 0, 0)], {}, multiset{}), map["a" := 0]);
            var s1 := ImageEffect(s, max, "a", FIRST).0;
            var s2 := ImageEffect(s1, max, "a", FIRST).0;
            SessionOk(s, "a") && s1.reg.sessions["a"].state == Done && s2.written["a"] == 2
  {
    var s := Receiver(Registry(map["a" := Session(Queued, true, 0, 0)], {}, multiset{}), map["a" := 0]);
    CountedIs(s.reg, "a", 0);
    var s1 := ImageEffect(s, max, "a", FIRST).0;
    assert s1.reg.sessions["a"] == Session(Done, true, 0, 1) && s1.written["a"] == 1;
    CountedIs(s1.reg, "a", 0);
  }

  /** A revisiting sender that announces two images and then three gets three written. */
  lemma ChangedCountOverruns()
    ensures var s := Receiver(Registry(map["a" := Session(Transferring, true, 2, 1)], {}, multiset{}), map["a" := 1]);
            var q := ImageRequest(None, true, 3, true, true);
            var s1 := ImageEffect(s, 100, "a", q).0;
            var s2 := ImageEffect(s1, 100, "a", q).0;
            SessionOk(s, "a") && s1.written["a"] == 2 && s1.reg.sessions["a"].state == Transferring && s2.written["a"] == 3
  {
    var s := Receiver(Registry(map["a" := Session(Transferring, true, 2, 1)], {}, multiset{}), map["a" := 1]);
    var q := ImageRequest(None, true, 3, true, true);
    AdmittedIs(s, 100, "a", q);
    CountedIs(Admitted(s, 100, "a", true, None, true, 3).0.reg, "a", 3);
    var s1 := ImageEffect(s, 100, "a", q).0;
    assert s1.reg.sessions["a"] == Session(Transferring, true, 3, 2);
  }

  // ----- every step -----

  ghost predicate EnabledAt(s: Receiver, max: int, e: Event) {
    match e
    case Image(id, q) => CountRight(s, max, id, q)
    case Fail(_, wanted) => wanted in {Failed, TimedOut, Aborted}
    case TimerFires(id) => id in s.reg.running
    case _ => true
  }

  ghost predicate AllOk(s: Receiver, max: int) {
    RegistryOk(s.reg, max) && forall id :: SessionOk(s, id)
  }

  /** A change that keeps the registry safe and touches no session but one. */
  ghost predicate Kept(r: Registry, r': Registry, max: int, id: string) {
    (RegistryOk(r, max) ==> RegistryOk(r', max)) && r'.sessions - {id} == r.sessions - {id}
  }

  lemma BootedKept(r: Registry, max: int, id: string, image: bool)
    ensures Kept(r, Booted(r, max, id, image).0, max, id)
  {
    if RegistryOk(r, max) {
      BootedOk(r, max, id, image);
    }
  }

  lemma MovedKept(r: Registry, max: int, id: string, next: State)
    ensures Kept(r, Moved(r, id, next).0, max, id)
  {
    if RegistryOk(r, max) {
      MovedOk(r, max, id, next);
    }
  }

  lemma CountsKept(r: Registry, max: int, id: string, count: int)
    ensures Kept(r, WithCount(r, id, count).0, max, id) && Kept(r, WithOneMore(r, id).0, max, id)
  {
    if RegistryOk(r, max) {
      CountsOk(r, max, id, count);
    }
  }

  lemma KeptTwice(r: Registry, r1: Registry, r2: Registry, max: int, id: string)
    requires Kept(r, r1, max, id) && Kept(r1, r2, max, id)
    ensures Kept(r, r2, max, id)
  {
  }

  lemma AdmittedKept(s: Receiver, max: int, id: string, image: bool, trust: Option<bool>, wellFormed: bool, count: int)
    ensures Kept(s.reg, Admitted(s, max, id, image, trust, wellFormed, count).0.reg, max, id)
  {
    var r1 := Booted(s.reg, max, id, image).0;
    BootedKept(s.reg, max, id, image);
    var r2 := Moved(r1, id, Transferring).0;
    MovedKept(r1, max, id, Transferring);
    KeptTwice(s.reg, r1, r2, max, id);
    CountsKept(r1, max, id, count);
    KeptTwice(s.reg, r1, WithCount(r1, id, count).0, max, id);
    CountsKept(r2, max, id, count);
    KeptTwice(s.reg, r2, WithCount(r2, id, count).0, max, id);
  }

  lemma ReceivedKept(r: Registry, max: int, id: string, count: int)
    ensures Kept(r, ReceivedEffect(r, id, count).0, max, id)
  {
    if id in r.sessions {
      CountsKept(r, max, id, count);
      var r1 := if count > 0 && r.sessions[id].imageCount == 0 then WithCount(r, id, count).0 else r;
      CountsKept(r1, max, id, count);
      var r2 := WithOneMore(r1, id).0;
      KeptTwice(r, r1, r2, max, id);
      MovedKept(r2, max, id, Transferring);
      KeptTwice(r, r2, Moved(r2, id, Transferring).0, max, id);
    }
  }

  lemma DeliveryKept(r: Registry, max: int, id: string)
    ensures Kept(r, DeliveryEffect(r, id), max, id)
  {
    var r1 := Moved(r, id, Delivering).0;
    MovedKept(r, max, id, Delivering);
    MovedKept(r1, max, id, Done);
    KeptTwice(r, r1, Moved(r1, id, Done).0, max, id);
    MovedKept(r, max, id, Done);
  }

  lemma ImageKept(s: Receiver, max: int, id: string, q: ImageRequest)
    ensures Kept(s.reg, ImageEffect(s, max, id, q).0.reg, max, id)
  {
    var r1 := Admitted(s, max, id, true, q.trust, q.wellFormed, q.count).0.reg;
    AdmittedKept(s, max, id, true, q.trust, q.wellFormed, q.count);
    var r2 := ReceivedEffect(r1, id, q.count).0;
    ReceivedKept(r1, max, id, q.count);
    KeptTwice(s.reg, r1, r2, max, id);
    DeliveryKept(r2, max, id);
    KeptTwice(s.reg, r2, DeliveryEffect(r2, id), max, id);
  }

  lemma TextKept(s: Receiver, max: int, id: string, t: TextRequest)
    ensures Kept(s.reg, TextEffect(s, max, id, t).0.reg, max, id)
  {
    var r1 := Admitted(s, max, id, false, t.trust, t.wellFormed, 0).0.reg;
    AdmittedKept(s, max, id, false, t.trust, t.wellFormed, 0);
    DeliveryKept(r1, max, id);
    KeptTwice(s.reg, r1, DeliveryEffect(r1, id), max, id);
    var r2 := ReceivedEffect(r1, id, 0).0;
    ReceivedKept(r1, max, id, 0);
    KeptTwice(s.reg, r1, r2, max, id);
    DeliveryKept(r2, max, id);
    KeptTwice(s.reg, r2, DeliveryEffect(r2, id), max, id);
  }

  lemma StepKept(s: Receiver, max: int, e: Event)
    requires !e.TimerFires?
    ensures Kept(s.reg, After(s, max, e).reg, max, e.id)
  {
    match e
    case Config(id, image) =>
      var r1 := Booted(s.reg, max, id, image).0;
      BootedKept(s.reg, max, id, image);
      MovedKept(r1, max, id, Queued);
      KeptTwice(s.reg, r1, Moved(r1, id, Queued).0, max, id);
    case Handshake(id) => MovedKept(s.reg, max, id, Negotiating);
    case Image(id, q) => ImageKept(s, max, id, q);
    case Text(id, t) => TextKept(s, max, id, t);
    case Fail(id, wanted) =>
      MovedKept(s.reg, max, id, wanted);
      MovedKept(s.reg, max, id, Failed);
    case Abort(id) => MovedKept(s.reg, max, id, Aborted);
  }

  lemma StepKeepsRegistry(s: Receiver, max: int, e: Event)
    requires RegistryOk(s.reg, max) && (e.TimerFires? ==> e.id in s.reg.running)
    ensures RegistryOk(After(s, max, e).reg, max)
  {
    if e.TimerFires? {
      CleanupTakesOnlyFinished(s.reg, max, e.id);
    } else {
      StepKept(s, max, e);
    }
  }

  lemma OthersUntouched(s: Receiver, max: int, e: Event, other: string)
    requires other != e.id
    ensures other in After(s, max, e).reg.sessions <==> other in s.reg.sessions
    ensures other in s.reg.sessions ==> After(s, max, e).reg.sessions[other] == s.reg.sessions[other]
    ensures WrittenFor(After(s, max, e), other) == WrittenFor(s, other)
  {
    if !e.TimerFires? {
      StepKept(s, max, e);
    }
    var before, now := s.reg.sessions - {e.id}, After(s, max, e).reg.sessions - {e.id};
    assert before == now && (other in before <==> other in s.reg.sessions);
    WrittenElsewhere(s, max, e, other);
  }

  lemma AdmittedElsewhere(s: Receiver, max: int, id: string, image: bool, trust: Option<bool>, wellFormed: bool, count: int,
                          other: string)
    requires other != id
    ensures WrittenFor(Admitted(s, max, id, image, trust, wellFormed, count).0, other) == WrittenFor(s, other)
  {
  }

  lemma WrittenElsewhere(s: Receiver, max: int, e: Event, other: string)
    requires other != e.id
    ensures WrittenFor(After(s, max, e), other) == WrittenFor(s, other)
  {
    match e
    case Image(id, q) => ImageElsewhere(s, max, id, q, other);
    case Text(id, t) => AdmittedElsewhere(s, max, id, false, t.trust, t.wellFormed, 0, other);
    case _ =>
  }

  lemma ImageElsewhere(s: Receiver, max: int, id: string, q: ImageRequest, other: string)
    requires other != id
    ensures WrittenFor(ImageEffect(s, max, id, q).0, other) == WrittenFor(s, other)
  {
    AdmittedElsewhere(s, max, id, true, q.trust, q.wellFormed, q.count, other);
  }

  /** Outside image requests an image session changes at most its state, and never to the two states that only
      a delivery reaches. */
  lemma TextKeepsSession(s: Receiver, max: int, id: string, t: TextRequest)
    requires SessionOk(s, id)
    ensures SessionOk(TextEffect(s, max, id, t).0, id)
  {
    if id in s.reg.sessions && s.reg.sessions[id].image {
      var x := s.reg.sessions[id];
      var s' := TextEffect(s, max, id, t).0;
      assert s'.reg.sessions[id] == x || s'.reg.sessions[id] == x.(state := Transferring);
    } else {
      TextKeepsClass(s, max, id, t);
    }
  }

  lemma TextKeepsClass(s: Receiver, max: int, id: string, t: TextRequest)
    requires id in s.reg.sessions ==> !s.reg.sessions[id].image
    ensures id in TextEffect(s, max, id, t).0.reg.sessions ==> !TextEffect(s, max, id, t).0.reg.sessions[id].image
  {
    var s1 := Admitted(s, max, id, false, t.trust, t.wellFormed, 0).0;
    AdmittedKeepsClass(s, max, id, t.trust, t.wellFormed);
    if id in s1.reg.sessions {
      ReceivedIs(s1.reg, id, 0);
      DeliveryKeepsClass(s1.reg, id);
      DeliveryKeepsClass(ReceivedEffect(s1.reg, id, 0).0, id);
    }
  }

  lemma AdmittedKeepsClass(s: Receiver, max: int, id: string, trust: Option<bool>, wellFormed: bool)
    requires id in s.reg.sessions ==> !s.reg.sessions[id].image
    ensures var s1 := Admitted(s, max, id, false, trust, wellFormed, 0).0;
            id in s1.reg.sessions ==> !s1.reg.sessions[id].image
  {
  }

  lemma DeliveryKeepsClass(r: Registry, id: string)
    requires id in r.sessions
    ensures id in DeliveryEffect(r, id).sessions && DeliveryEffect(r, id).sessions[id].image == r.sessions[id].image
  {
  }

  lemma StepKeepsSession(s: Receiver, max: int, e: Event)
    requires SessionOk(s, e.id) && EnabledAt(s, max, e)
    ensures SessionOk(After(s, max, e), e.id)
  {
    match e
    case Image(id, q) => ImageKeepsBatchIff(s, max, id, q);
    case Text(id, t) => TextKeepsSession(s, max, id, t);
    case Config(id, image) => ConfigKeepsSession(s, max, id, image);
    case _ =>
  }

  lemma ConfigKeepsSession(s: Receiver, max: int, id: string, image: bool)
    requires SessionOk(s, id)
    ensures SessionOk(ConfigEffect(s, max, id, image).0, id)
  {
  }

  lemma StepKeepsAll(s: Receiver, max: int, e: Event)
    requires AllOk(s, max) && EnabledAt(s, max, e)
    ensures AllOk(After(s, max, e), max)
  {
    StepKeepsRegistry(s, max, e);
    StepKeepsSession(s, max, e);
    forall id
      ensures SessionOk(After(s, max, e), id)
    {
      if id != e.id {
        OthersUntouched(s, max, e, id);
        assert SessionOk(s, id);
      }
    }
  }

  // ----- every run -----

  function Run(s: Receiver, max: int, events: seq<Event>): Receiver {
    if events == [] then s else After(Run(s, max, events[..|events| - 1]), max, events[|events| - 1])
  }

  ghost predicate ValidRun(s: Receiver, max: int, events: seq<Event>) {
    events == [] ||
    (ValidRun(s, max, events[..|events| - 1])
     && EnabledAt(Run(s, max, events[..|events| - 1]), max, events[|events| - 1]))
  }

  const EMPTY := Receiver(Registry(map[], {}, multiset{}), map[])

  lemma {:induction false} RunKeepsAll(s: Receiver, max: int, events: seq<Event>)
    requires AllOk(s, max) && ValidRun(s, max, events)
    ensures AllOk(Run(s, max, events), max)
    decreases |events|
  {
    if events != [] {
      RunKeepsAll(s, max, events[..|events| - 1]);
      StepKeepsAll(Run(s, max, events[..|events| - 1]), max, events[|events| - 1]);
    }
  }

  ghost predicate TimersRun(s: Receiver, max: int, events: seq<Event>) {
    events == [] ||
    (TimersRun(s, max, events[..|events| - 1])
     && var e := events[|events| - 1]; e.TimerFires? ==> e.id in Run(s, max, events[..|events| - 1]).reg.running)
  }

  /** Whatever the senders do, the registry is safe on every run from empty: live sessions stay within the limit
      and cleanup only ever takes finished ones. */
  lemma {:induction false} RegistryAlwaysSafe(max: int, events: seq<Event>)
    requires TimersRun(EMPTY, max, events)
    ensures RegistryOk(Run(EMPTY, max, events).reg, max)
    decreases |events|
  {
    if events == [] {
      assert LiveIds(EMPTY.reg) == {};
    } else {
      RegistryAlwaysSafe(max, events[..|events| - 1]);
      StepKeepsRegistry(Run(EMPTY, max, events[..|events| - 1]), max, events[|events| - 1]);
    }
  }

  /** On every run from an empty registry whose senders count right: the live sessions stay within the limit,
      timers run for exactly the finished sessions held, and every image session has exactly as many files as it
      counted, never more than announced, and is done only with all of them. */
  lemma EveryRunIsOk(max: int, events: seq<Event>)
    requires ValidRun(EMPTY, max, events)
    ensures AllOk(Run(EMPTY, max, events), max)
  {
    assert LiveIds(EMPTY.reg) == {};
    RunKeepsAll(EMPTY, max, events);
  }

  /** What is asked of one session's events: its timer does not fire, a failure wants one of the three states
      errors are mapped to, and a revisiting sender repeats the count or leaves it out. */
  ghost predicate KeepsCount(e: Event, id: string, n: int) {
    e.id == id ==>
      && !e.TimerFires?
      && (e.Fail? ==> e.wanted in {Failed, TimedOut, Aborted})
      && (e.Image? && e.q.trust.None? && e.q.count > 0 ==> e.q.count == n)
  }

  /** A batch under way: its first image is in and it has `n` to come in all. */
  ghost predicate BatchOf(s: Receiver, id: string, n: int) {
    && id in s.reg.sessions && s.reg.sessions[id].image && s.reg.sessions[id].receivedCount > 0
    && s.reg.sessions[id].imageCount == n && SessionOk(s, id)
  }

  lemma KeptCountIsRight(s: Receiver, max: int, e: Event, id: string, n: int)
    requires BatchOf(s, id, n) && e.id == id && KeepsCount(e, id, n)
    ensures EnabledAt(s, max, e)
  {
  }

  lemma ImageKeepsCount(s: Receiver, max: int, id: string, q: ImageRequest, n: int)
    requires BatchOf(s, id, n) && KeepsCount(Image(id, q), id, n)
    ensures var s' := ImageEffect(s, max, id, q).0;
            id in s'.reg.sessions && s'.reg.sessions[id].image && s'.reg.sessions[id].imageCount == n
            && s'.reg.sessions[id].receivedCount > 0
  {
    CountChangesIff(s, max, id, q);
    var s1 := Admitted(s, max, id, true, q.trust, q.wellFormed, q.count).0;
    if Reaches(s, max, id, q) {
      AdmittedIs(s, max, id, q);
      if Guard(s1.reg, id, q.body).None? && q.deliverOk {
        CountedIs(s1.reg, id, q.count);
      }
    }
  }

  lemma StepKeepsBatch(s: Receiver, max: int, e: Event, id: string, n: int)
    requires BatchOf(s, id, n) && KeepsCount(e, id, n)
    ensures BatchOf(After(s, max, e), id, n)
  {
    if e.id != id {
      OthersUntouched(s, max, e, id);
    } else {
      KeptCountIsRight(s, max, e, id, n);
      StepKeepsSession(s, max, e);
      if e.Image? {
        ImageKeepsCount(s, max, id, e.q, n);
      }
    }
  }

  /** From the first image on, as long as the session is held and whatever all other senders do, its count stands,
      counter and files agree, and no more than that many images are ever written. */
  lemma {:induction false} FirstCountStands(s: Receiver, max: int, id: string, n: int, events: seq<Event>)
    requires BatchOf(s, id, n) && forall e :: e in events ==> KeepsCount(e, id, n)
    ensures BatchOf(Run(s, max, events), id, n) && WrittenFor(Run(s, max, events), id) <= n
    decreases |events|
  {
    if events != [] {
      var front, e := events[..|events| - 1], events[|events| - 1];
      FirstCountStands(s, max, id, n, front);
      StepKeepsBatch(Run(s, max, front), max, e, id, n);
    }
  }

  /** The count that stands after a request: a revisiting sender's, else the one given before, else its own. */
  function StandingCount(x: Session, q: ImageRequest): int {
    if Given(x, q).imageCount == 0 then q.count else Given(x, q).imageCount
  }

  /** The first image that is written starts such a batch, with whatever count stands then, also one that an
      earlier request set whose delivery failed; it is done at once exactly when it is the only one. */
  lemma FirstImageStarts(s: Receiver, max: int, id: string, q: ImageRequest)
    requires SessionOk(s, id) && ImageEffect(s, max, id, q).1 == None
    requires Seen(s, id).image && Seen(s, id).receivedCount == 0 && Live(Seen(s, id).state)
    requires StandingCount(Seen(s, id), q) > 0
    ensures var s', n := ImageEffect(s, max, id, q).0, StandingCount(Seen(s, id), q);
            BatchOf(s', id, n) && WrittenFor(s', id) == 1 && (s'.reg.sessions[id].state == Done <==> n == 1)
  {
    var s1 := Admitted(s, max, id, true, q.trust, q.wellFormed, q.count).0;
    ImageKeepsBatchIff(s, max, id, q);
    AdmittedIs(s, max, id, q);
    CountedIs(s1.reg, id, q.count);
  }

  /** One step of a batch: a live one is done afterwards exactly when all its images are there, and a done one is
      untouched. */
  lemma StepEndsBatch(s: Receiver, max: int, e: Event, id: string, n: int)
    requires BatchOf(s, id, n) && KeepsCount(e, id, n)
    ensures var s' := After(s, max, e);
            id in s'.reg.sessions
            && (Live(s.reg.sessions[id].state) ==> (s'.reg.sessions[id].state == Done <==> WrittenFor(s', id) == n))
            && (s.reg.sessions[id].state == Done ==>
                  s'.reg.sessions[id] == s.reg.sessions[id] && WrittenFor(s', id) == WrittenFor(s, id))
  {
    StepKeepsBatch(s, max, e, id, n);
    if s.reg.sessions[id].state == Done {
      StepKeepsDone(s, max, e, id);
    } else if e.id != id {
      OthersUntouched(s, max, e, id);
    } else if e.Image? && Live(s.reg.sessions[id].state) {
      KeptCountIsRight(s, max, e, id, n);
      DoneExactlyAtTheLast(s, max, id, e.q);
    }
  }

  /** Over every run of a batch: it becomes done only by the step that writes its n-th image, it does become done
      by that step if it was still live, and once done neither session nor files change. */
  lemma DoneOnceAtTheLast(s: Receiver, max: int, id: string, n: int, events: seq<Event>, i: nat)
    requires BatchOf(s, id, n) && i < |events| && forall e :: e in events ==> KeepsCount(e, id, n)
    ensures var a, b := Run(s, max, events[..i]), Run(s, max, events[..i + 1]);
            BatchOf(a, id, n) && BatchOf(b, id, n)
            && (Live(a.reg.sessions[id].state) ==> (b.reg.sessions[id].state == Done <==> WrittenFor(b, id) == n))
            && (a.reg.sessions[id].state == Done ==>
                  b.reg.sessions[id] == a.reg.sessions[id] && WrittenFor(b, id) == WrittenFor(a, id))
  {
    var front := events[..i];
    assert events[..i + 1][..i] == front && events[..i + 1][i] == events[i] && events[i] in events;
    assert forall e :: e in front ==> e in events;
    FirstCountStands(s, max, id, n, front);
    StepKeepsBatch(Run(s, max, front), max, events[i], id, n);
    StepEndsBatch(Run(s, max, front), max, events[i], id, n);
  }

  lemma StepKeepsDone(s: Receiver, max: int, e: Event, id: string)
    requires SessionOk(s, id) && id in s.reg.sessions && s.reg.sessions[id].image && s.reg.sessions[id].state == Done
    requires e.id == id ==> !e.TimerFires?
    ensures id in After(s, max, e).reg.sessions && After(s, max, e).reg.sessions[id] == s.reg.sessions[id]
    ensures WrittenFor(After(s, max, e), id) == WrittenFor(s, id)
  {
    if e.id != id {
      OthersUntouched(s, max, e, id);
    } else if e.Image? {
      DoneRefuses(s, max, id, e.q);
    }
  }

  /** Until its timer fires a done batch stays as it is, whatever the senders do: no further image is written. */
  lemma {:induction false} DoneStands(s: Receiver, max: int, id: string, events: seq<Event>)
    requires SessionOk(s, id)
    requires id in s.reg.sessions && s.reg.sessions[id].image && s.reg.sessions[id].state == Done
    requires forall e :: e in events ==> (e.id == id ==> !e.TimerFires?)
    ensures var s' := Run(s, max, events);
            id in s'.reg.sessions && s'.reg.sessions[id] == s.reg.sessions[id] && WrittenFor(s', id) == WrittenFor(s, id)
    decreases |events|
  {
    if events != [] {
      var front, e := events[..|events| - 1], events[|events| - 1];
      DoneStands(s, max, id, front);
      StepKeepsDone(Run(s, max, front), max, e, id);
    }
  }
}
