/** The backup state machine of dt_image_search/mobile/mobile_backup_state_machine.py.
    A missing table entry, which the source reports by raising, is `None`. */
module BackupStateMachine {
  import opened Options

  datatype BackupState =
    | PendingPairing | PairingMismatched | PairingCompleted | PairingExpired | PairingStopped
    | TransferInProgress | TransferStopped | TransferCompleted | TransferFailed

  datatype BackupEvent =
    | Accepted | MismatchDetected | MismatchResolved | Expired | Stopped
    | TransferStartedEvent | TransferStoppedEvent | TransferCompletedEvent | TransferFailedEvent

  const STATE_PAIRED := "paired"
  const STATE_TRANSFERRING := "transferring"
  const STATE_COMPLETED := "transfer_completed"
  const STATE_FAILED := "failed"
  const STATE_DISCONNECTED := "disconnected"

  /** The transition table. */
  function Transition(state: BackupState, event: BackupEvent): Option<BackupState> {
    match (state, event)
    case (PendingPairing, Accepted) => Some(PairingCompleted)
    case (PendingPairing, MismatchDetected) => Some(PairingMismatched)
    case (PendingPairing, Expired) => Some(PairingExpired)
    case (PendingPairing, Stopped) => Some(PairingStopped)
    case (PairingMismatched, MismatchDetected) => Some(PairingMismatched)
    case (PairingMismatched, MismatchResolved) => Some(PairingCompleted)
    case (PairingMismatched, Expired) => Some(PairingExpired)
    case (PairingMismatched, Stopped) => Some(PairingStopped)
    case (PairingCompleted, Accepted) => Some(PairingCompleted)
    case (PairingCompleted, Stopped) => Some(PairingStopped)
    case (PairingExpired, Expired) => Some(PairingExpired)
    case (PairingExpired, Accepted) => Some(PairingCompleted)
    case (PairingExpired, MismatchDetected) => Some(PairingMismatched)
    case (PairingExpired, Stopped) => Some(PairingStopped)
    case (PairingStopped, Stopped) => Some(PairingStopped)
    case (PairingStopped, Accepted) => Some(PairingCompleted)
    case (PairingStopped, MismatchDetected) => Some(PairingMismatched)
    case (PairingCompleted, TransferStartedEvent) => Some(TransferInProgress)
    case (TransferInProgress, TransferStartedEvent) => Some(TransferInProgress)
    case (TransferInProgress, TransferStoppedEvent) => Some(TransferStopped)
    case (TransferInProgress, TransferCompletedEvent) => Some(TransferCompleted)
    case (TransferInProgress, TransferFailedEvent) => Some(TransferFailed)
    case (TransferStopped, TransferStartedEvent) => Some(TransferInProgress)
    case (TransferCompleted, TransferStartedEvent) => Some(TransferInProgress)
    case (TransferFailed, TransferStartedEvent) => Some(TransferInProgress)
    case _ => None
  }

  /** The string stored for a state: everything that is not a live or finished transfer is "paired". */
  function FolderTransferState(state: BackupState): string {
    match state
    case TransferInProgress => STATE_TRANSFERRING
    case TransferCompleted => STATE_COMPLETED
    case TransferFailed => STATE_FAILED
    case _ => STATE_PAIRED
  }

  /** The state read back from a stored string. */
  function StateFromStored(stored: Option<string>, default: BackupState): BackupState {
    if stored == Some(STATE_TRANSFERRING) then TransferInProgress
    else if stored == Some(STATE_COMPLETED) then TransferCompleted
    else if stored == Some(STATE_FAILED) then TransferFailed
    else if stored == Some(STATE_DISCONNECTED) then TransferStopped
    else if stored == Some(STATE_PAIRED) then PairingCompleted
    else default
  }

  /** `None` means that the second attempt, from the fallback state, raises as well. */
  function ResolveNext(stored: Option<string>, event: BackupEvent, fallback: BackupState): Option<BackupState> {
    match Transition(StateFromStored(stored, fallback), event)
    case Some(next) => Some(next)
    case None => Transition(fallback, event)
  }

  predicate IsTransferEvent(event: BackupEvent) {
    event.TransferStartedEvent? || event.TransferStoppedEvent? ||
    event.TransferCompletedEvent? || event.TransferFailedEvent?
  }

  /** The fallback every caller of the resolver passes along with its event. */
  function CallerFallback(event: BackupEvent): BackupState {
    if event.TransferStartedEvent? then PairingCompleted else TransferInProgress
  }

  /** Runs the machine itself; `None` once a step raises. */
  function RunMachine(start: BackupState, events: seq<BackupEvent>): Option<BackupState>
    decreases |events|
  {
    if events == [] then Some(start)
    else match Transition(start, events[0])
         case None => None
         case Some(next) => RunMachine(next, events[1..])
  }

  /** Replays events through the stored string alone, the way the transfer handlers do. */
  function ReplayStored(stored: Option<string>, events: seq<BackupEvent>): Option<Option<string>>
    decreases |events|
  {
    if events == [] then Some(stored)
    else match ResolveNext(stored, events[0], CallerFallback(events[0]))
         case None => None
         case Some(next) => ReplayStored(Some(FolderTransferState(next)), events[1..])
  }

  /** The states an event is legal in. */
  predicate LegalIn(event: BackupEvent, state: BackupState) {
    match event
    case Accepted => state in {PendingPairing, PairingCompleted, PairingExpired, PairingStopped}
    case MismatchDetected => state in {PendingPairing, PairingMismatched, PairingExpired, PairingStopped}
    case MismatchResolved => state == PairingMismatched
    case Expired => state in {PendingPairing, PairingMismatched, PairingExpired}
    case Stopped => state in {PendingPairing, PairingMismatched, PairingCompleted, PairingExpired, PairingStopped}
    case TransferStartedEvent =>
      state in {PairingCompleted, TransferInProgress, TransferStopped, TransferCompleted, TransferFailed}
    case _ => state == TransferInProgress
  }

  /** The table by columns: where an event leads is decided by the event alone. */
  lemma EventDecidesTarget(state: BackupState, event: BackupEvent)
    ensures Transition(state, event) ==
            if !LegalIn(event, state) then None
            else Some(match event
                      case Accepted => PairingCompleted
                      case MismatchResolved => PairingCompleted
                      case MismatchDetected => PairingMismatched
                      case Expired => PairingExpired
                      case Stopped => PairingStopped
                      case TransferStartedEvent => TransferInProgress
                      case TransferStoppedEvent => TransferStopped
                      case TransferCompletedEvent => TransferCompleted
                      case TransferFailedEvent => TransferFailed)
  {
  }

  /** Exactly four states survive the trip through the stored string. */
  lemma StoredStringRoundTrip(state: BackupState, default: BackupState)
    ensures StateFromStored(Some(FolderTransferState(state)), default) == state
       <==> state in {PairingCompleted, TransferInProgress, TransferCompleted, TransferFailed}
  {
    assert |STATE_PAIRED| == 6 && |STATE_TRANSFERRING| == 12 && |STATE_COMPLETED| == 18;
    assert |STATE_FAILED| == 6 && STATE_FAILED[0] != STATE_PAIRED[0] && |STATE_DISCONNECTED| == 12;
    assert STATE_DISCONNECTED[0] != STATE_TRANSFERRING[0];
  }

  /** With the callers' fallbacks the resolver never raises, and what is stored never decides the outcome:
      any two stored strings, known or not, lead to the same state, the one the machine itself reaches
      from the fallback. */
  lemma ResolverIgnoresStoredString(stored: Option<string>, other: Option<string>, event: BackupEvent)
    requires IsTransferEvent(event)
    ensures ResolveNext(stored, event, CallerFallback(event)).Some?
    ensures ResolveNext(stored, event, CallerFallback(event)) == ResolveNext(other, event, CallerFallback(event))
    ensures forall state :: Transition(state, event).Some? ==>
              Transition(state, event) == ResolveNext(stored, event, CallerFallback(event))
  {
    var now := StateFromStored(stored, CallerFallback(event));
    var alt := StateFromStored(other, CallerFallback(event));
    assert Transition(CallerFallback(event), event).Some?;
  }

  /** The lossy string is enough: any run of transfer events the machine accepts, from any machine state
      and from any stored string, ends with the string of the state the machine ends in. */
  lemma {:induction false} ReplayFollowsMachine(state: BackupState, stored: Option<string>, events: seq<BackupEvent>)
    requires forall e :: e in events ==> IsTransferEvent(e)
    requires RunMachine(state, events).Some?
    requires events == [] ==> stored == Some(FolderTransferState(state))
    ensures ReplayStored(stored, events) == Some(Some(FolderTransferState(RunMachine(state, events).value)))
    decreases |events|
  {
    if events != [] {
      assert events[0] in events;
      var next := Transition(state, events[0]).value;
      ResolverIgnoresStoredString(stored, stored, events[0]);
      ReplayFollowsMachine(next, Some(FolderTransferState(next)), events[1..]);
    }
  }

  /** Even on event lists the machine would reject, the replay never raises and is decided by the last event. */
  lemma {:induction false} ReplayIsTotal(stored: Option<string>, events: seq<BackupEvent>)
    requires forall e :: e in events ==> IsTransferEvent(e)
    ensures ReplayStored(stored, events).Some?
    ensures events != [] ==>
              ReplayStored(stored, events) == ReplayStored(None, [events[|events| - 1]])
    decreases |events|
  {
    if events != [] {
      assert events[0] in events;
      ResolverIgnoresStoredString(stored, None, events[0]);
      var next := ResolveNext(stored, events[0], CallerFallback(events[0])).value;
      var stored' := Some(FolderTransferState(next));
      ReplayIsTotal(stored', events[1..]);
      var last := [events[|events| - 1]];
      assert last[1..] == [];
      if |events| == 1 {
        assert events == last && events[1..] == [];
      } else {
        assert events[1..][|events[1..]| - 1] == events[|events| - 1];
      }
    }
  }
}
