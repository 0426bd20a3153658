/** instant_sharing/session.py: the registry of instant-share sessions and its cleanup timers. A timer is listed
    under its session id in the registry's dictionary and, independently of that, runs until it fires. */
module InstantShareSession {
  import opened Options

  datatype State = Bootstrapped | Queued | Negotiating | Transferring | Delivering | Done | Failed | TimedOut | Aborted
  datatype Session = Session(state: State, image: bool, imageCount: int, receivedCount: nat)
  datatype Error = Busy | SessionMismatch | InvalidRequest | PathInvalid | LimitExceeded | Unreadable | TrustRequired
                 | NotFound | DeliveryFailed
  datatype Registry = Registry(sessions: map<string, Session>, timers: set<string>, running: multiset<string>)

  const DEFAULT_MAX_SESSIONS := 100

  function Allowed(state: State): set<State> {
    match state
    case Bootstrapped => {Queued, Negotiating, Transferring}
    case Queued => {Negotiating, Transferring, Failed, TimedOut}
    case Negotiating => {Transferring, Failed, TimedOut}
    case Transferring => {Delivering, Failed, TimedOut, Aborted}
    case Delivering => {Done, Failed}
    case _ => {}
  }

  predicate Live(state: State) {
    state in {Bootstrapped, Queued, Negotiating, Transferring, Delivering}
  }

  function LiveIds(r: Registry): set<string> {
    set id | id in r.sessions && Live(r.sessions[id].state)
  }

  function Held(r: Registry, id: string, x: Session): Registry {
    r.(sessions := r.sessions[id := x])
  }

  // ----- what the registry's methods do -----

  function Booted(r: Registry, max: int, id: string, image: bool): (Registry, Option<Error>) {
    if id in r.sessions then (r, None)
    else if |LiveIds(r)| >= max then (r, Some(Busy))
    else (Held(r, id, Session(Bootstrapped, image, 0, 0)), None)
  }

  function Moved(r: Registry, id: string, next: State): (Registry, Option<Error>) {
    if id !in r.sessions then (r, Some(SessionMismatch))
    else if next !in Allowed(r.sessions[id].state) then (r, Some(InvalidRequest))
    else
      var r' := Held(r, id, r.sessions[id].(state := next));
      (if Live(next) then r' else r'.(timers := r.timers + {id}, running := r.running + multiset{id}), None)
  }

  function WithCount(r: Registry, id: string, count: int): (Registry, Option<Error>) {
    if id !in r.sessions then (r, Some(SessionMismatch))
    else (Held(r, id, r.sessions[id].(imageCount := count)), None)
  }

  function WithOneMore(r: Registry, id: string): (Registry, Option<Error>) {
    if id !in r.sessions then (r, Some(SessionMismatch))
    else (Held(r, id, r.sessions[id].(receivedCount := r.sessions[id].receivedCount + 1)), None)
  }

  /** A running timer fires. */
  function Cleaned(r: Registry, id: string): Registry {
    Registry(r.sessions - {id}, r.timers - {id}, r.running - multiset{id})
  }

  class SessionRegistry {
    var activeSessions: map<string, Session>
    var cleanupTimers: set<string>
    var running: multiset<string>
    const maxSessions: int

    ghost function R(): Registry
      reads this
    {
      Registry(activeSessions, cleanupTimers, running)
    }

    constructor (max: Option<int>)
      ensures R() == Registry(map[], {}, multiset{})
      ensures maxSessions == if max.None? then 100 else max.value
    {
      activeSessions, cleanupTimers, running := map[], {}, multiset{};
      maxSessions := if max.None? then DEFAULT_MAX_SESSIONS else max.value;
    }

    method Bootstrap(id: string, image: bool) returns (error: Option<Error>)
      modifies this
      ensures (R(), error) == Booted(old(R()), maxSessions, id, image)
    {
      if id in activeSessions {
        return None;
      }
      var activeCount := |set i | i in activeSessions && Live(activeSessions[i].state)|;
      if activeCount >= maxSessions {
        return Some(Busy);
      }
      activeSessions := activeSessions[id := Session(Bootstrapped, image, 0, 0)];
      return None;
    }

    method Transition(id: string, next: State) returns (error: Option<Error>)
      modifies this
      ensures (R(), error) == Moved(old(R()), id, next)
    {
      if id !in activeSessions {
        return Some(SessionMismatch);
      }
      var current := activeSessions[id];
      if next !in Allowed(current.state) {
        return Some(InvalidRequest);
      }
      activeSessions := activeSessions[id := current.(state := next)];
      if !Live(next) {
        cleanupTimers := cleanupTimers + {id};
        running := running + multiset{id};
      }
      return None;
    }

    method SetBatchMetadata(id: string, imageCount: int) returns (error: Option<Error>)
      modifies this
      ensures (R(), error) == WithCount(old(R()), id, imageCount)
    {
      if id !in activeSessions {
        return Some(SessionMismatch);
      }
      activeSessions := activeSessions[id := activeSessions[id].(imageCount := imageCount)];
      return None;
    }

    method IncrementReceivedCount(id: string) returns (error: Option<Error>)
      modifies this
      ensures (R(), error) == WithOneMore(old(R()), id)
    {
      if id !in activeSessions {
        return Some(SessionMismatch);
      }
      activeSessions := activeSessions[id := activeSessions[id].(receivedCount := activeSessions[id].receivedCount + 1)];
      return None;
    }

    method CleanupSession(id: string)
      requires id in running
      modifies this
      ensures R() == Cleaned(old(R()), id)
    {
      running := running - multiset{id};
      activeSessions := activeSessions - {id};
      cleanupTimers := cleanupTimers - {id};
    }
  }

  // ----- safety of the registry -----

  /** Live sessions stay within the limit; timers are listed, and run once, for exactly the finished sessions
      still held. */
  ghost predicate RegistryOk(r: Registry, max: int) {
    && (LiveIds(r) == {} || |LiveIds(r)| <= max)
    && (forall id :: id in r.timers <==> id in r.sessions && !Live(r.sessions[id].state))
    && r.running == multiset(r.timers)
  }

  lemma SubsetSize(a: set<string>, b: set<string>)
    requires a <= b
    ensures |a| <= |b|
  {
    assert b == a + (b - a);
  }

  lemma FewerLive(r: Registry, r': Registry, max: int)
    requires LiveIds(r') <= LiveIds(r) && (LiveIds(r) == {} || |LiveIds(r)| <= max)
    ensures LiveIds(r') == {} || |LiveIds(r')| <= max
  {
    SubsetSize(LiveIds(r'), LiveIds(r));
  }

  lemma BootedOk(r: Registry, max: int, id: string, image: bool)
    requires RegistryOk(r, max)
    ensures RegistryOk(Booted(r, max, id, image).0, max)
  {
    if id !in r.sessions && |LiveIds(r)| < max {
      assert LiveIds(Booted(r, max, id, image).0) == LiveIds(r) + {id};
    }
  }

  lemma MovedOk(r: Registry, max: int, id: string, next: State)
    requires RegistryOk(r, max)
    ensures RegistryOk(Moved(r, id, next).0, max)
  {
    var r' := Moved(r, id, next).0;
    if r' != r {
      FewerLive(r, r', max);
      if !Live(next) {
        assert id !in r.timers;
        assert r'.running == multiset(r'.timers);
      }
    }
  }

  lemma CountsOk(r: Registry, max: int, id: string, count: int)
    requires RegistryOk(r, max)
    ensures RegistryOk(WithCount(r, id, count).0, max) && RegistryOk(WithOneMore(r, id).0, max)
  {
    FewerLive(r, WithCount(r, id, count).0, max);
    FewerLive(r, WithOneMore(r, id).0, max);
  }

  /** A timer that fires takes away a finished session and no other. */
  lemma CleanupTakesOnlyFinished(r: Registry, max: int, id: string)
    requires RegistryOk(r, max) && id in r.running
    ensures RegistryOk(Cleaned(r, id), max)
    ensures id in r.sessions && !Live(r.sessions[id].state)
    ensures LiveIds(Cleaned(r, id)) == LiveIds(r)
  {
    assert id in r.timers;
    var r' := Cleaned(r, id);
    assert r'.running == multiset(r'.timers);
    assert LiveIds(r') == LiveIds(r);
  }

  function Rank(state: State): nat {
    match state
    case Bootstrapped => 0
    case Queued => 1
    case Negotiating => 2
    case Transferring => 3
    case Delivering => 4
    case _ => 5
  }

  lemma TransitionsRaiseRank(from: State, next: State)
    requires next in Allowed(from)
    ensures Rank(from) < Rank(next) <= 5
    ensures Rank(next) == 5 <==> !Live(next)
  {
  }

  /** The transition graph has no cycle, and no session moves more than five times. */
  lemma SessionsMoveAtMostFiveTimes(states: seq<State>)
    requires states != [] && forall i, j :: 0 <= i < j < |states| && j == i + 1 ==> states[j] in Allowed(states[i])
    ensures Rank(states[|states| - 1]) >= |states| - 1 && |states| <= 6
    ensures forall i, j :: 0 <= i < j < |states| ==> states[i] != states[j]
  {
    RanksRise(states);
  }

  lemma {:induction false} RanksRise(states: seq<State>)
    requires states != [] && forall i, j :: 0 <= i < j < |states| && j == i + 1 ==> states[j] in Allowed(states[i])
    ensures Rank(states[|states| - 1]) >= |states| - 1
    ensures forall i, j :: 0 <= i < j < |states| ==> Rank(states[i]) < Rank(states[j])
  {
    if |states| > 1 {
      var n := |states| - 1;
      var front := states[..n];
      RanksRise(front);
      assert states[n] in Allowed(states[n - 1]);
      TransitionsRaiseRank(states[n - 1], states[n]);
      forall i, j | 0 <= i < j < |states|
        ensures Rank(states[i]) < Rank(states[j])
      {
        if j == n {
          assert i < n - 1 ==> Rank(front[i]) < Rank(front[n - 1]);
        } else {
          assert Rank(front[i]) < Rank(front[j]);
        }
      }
    }
  }
}
