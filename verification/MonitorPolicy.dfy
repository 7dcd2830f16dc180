/** Data of the monitor and its credential-release policy, stated record by record. Each
    `After…` function gives the record an operation leaves, one field at a time. */
module MonitorPolicy {
  import opened BoundedTime

  /** Operator-visible device states. `NoState` stands for the empty string and for any
      text that is none of the known states. */
  datatype State =
    | Booted | Locked | Indeterminate | Unreachable | Unlocking | Booting | CredentialFailed | Error | NoState

  datatype FailureKind = FailureUnreachable | FailureCredential | FailureHostKey | FailureTransient | NoFailureKind

  /** An operation error: classified by the adapter, a bare deadline, or anything else. */
  datatype OpError = NoError | Classified(kind: FailureKind,
                                          text: string) | DeadlineExceeded(text: string) | Unclassified(text: string)

  datatype ProbeResult = ProbeResult(state: State, detail: string, endpointDown: bool)

  datatype UnlockResult = UnlockResult(accepted: bool, detail: string)

  /** The scheduling options the release policy reads. */
  datatype Options = Options(backoffInitial: Duration, backoffMax: Duration, unlockCooldown: Duration, concurrency: int)
  {
    predicate Valid() {
      0 < backoffInitial <= backoffMax && unlockCooldown >= 0 && concurrency > 0
    }
  }

  /** The durable record of one device. Times count nanoseconds; 0 is the zero time. */
  datatype DeviceRecord = DeviceRecord(
    state: State,
    lastObservation: State,
    detail: string,
    lastError: string,
    lastCheckedAt: nat,
    stateChangedAt: nat,
    lastUnlockAttemptAt: nat,
    nextUnlockEligibleAt: nat,
    lockEpisode: nat,
    lockEpisodeOpen: bool,
    unlockAttempted: bool,
    consecutiveFailures: nat,
    unlockConnectFailures: nat,
    endpointDown: bool,
    latched: bool,
    latchKind: FailureKind,
    latchReason: string)

  const MAX_TEXT := 4096

  /** A device that has no saved record. */
  function FreshRecord(stateChangedAt: nat): DeviceRecord {
    DeviceRecord(Indeterminate, NoState, "", "", 0, stateChangedAt, 0, 0, 0, false, false, 0, 0, false, false,
                 NoFailureKind, "")
  }

  function BoundedText(value: string): (text: string)
    ensures text <= value && |text| == if |value| < 4096 then |value| else 4096
  {
    if |value| <= MAX_TEXT then value else value[..MAX_TEXT]
  }

  predicate ValidRuntimeState(state: State) {
    state != NoState
  }

  predicate ValidProbeState(state: State) {
    state == Booted || state == Locked || state == Indeterminate || state == Unreachable
  }

  function FailureKindOf(err: OpError): FailureKind {
    match err
    case Classified(kind, _) => kind
    case DeadlineExceeded(_) => FailureUnreachable
    case _ => FailureTransient
  }

  function ErrorText(err: OpError): string {
    match err
    case NoError => ""
    case Classified(_, text) => text
    case DeadlineExceeded(text) => text
    case Unclassified(text) => text
  }

  function StateForLatch(kind: FailureKind): State {
    if kind == FailureCredential then CredentialFailed else Error
  }

  function StateForObservation(observation: State): State {
    if ValidProbeState(observation) then observation else Indeterminate
  }

  /** Only credential and host-key failures latch. */
  predicate Latches(err: OpError) {
    err != NoError && (FailureKindOf(err) == FailureCredential || FailureKindOf(err) == FailureHostKey)
  }

  /** An error-free observation of one of the four states a prober may report. */
  predicate Conclusive(p: ProbeResult, err: OpError) {
    err == NoError && ValidProbeState(p.state)
  }

  /** The state a probe shows when nothing is latched. */
  function ShownState(p: ProbeResult, err: OpError): State {
    if err == NoError then (if ValidProbeState(p.state) then p.state else Error)
    else match FailureKindOf(err)
      case FailureUnreachable => Unreachable
      case FailureCredential => CredentialFailed
      case _ => Error
  }

  function FailuresAfterProbe(r: DeviceRecord, p: ProbeResult, err: OpError): nat {
    if err != NoError then (if r.endpointDown && !p.endpointDown then 0 else r.consecutiveFailures) + 1
    else if !ValidProbeState(p.state) || p.state == Unreachable then r.consecutiveFailures + 1
    else 0
  }

  const INVALID_STATE_TEXT := "prober returned invalid state"

  function AfterProbe(r: DeviceRecord, p: ProbeResult, err: OpError, now: nat): DeviceRecord {
    var sawLocked := Conclusive(p, err) && p.state == Locked;
    var sawBooted := Conclusive(p, err) && p.state == Booted;
    var latched := r.latched || Latches(err);
    var latchKind := if Latches(err) then FailureKindOf(err) else r.latchKind;
    var state := if latched then StateForLatch(latchKind) else ShownState(p, err);
    DeviceRecord(
      state,
      if Conclusive(p, err) then p.state
      else if err != NoError && FailureKindOf(err) == FailureUnreachable then Unreachable
      else r.lastObservation,
      BoundedText(p.detail),
      if err != NoError then BoundedText(ErrorText(err))
      else if ValidProbeState(p.state) then ""
      else INVALID_STATE_TEXT,
      now,
      if state == r.state then r.stateChangedAt else now,
      r.lastUnlockAttemptAt,
      r.nextUnlockEligibleAt,
      if sawLocked && !r.lockEpisodeOpen then r.lockEpisode + 1 else r.lockEpisode,
      sawLocked || (r.lockEpisodeOpen && !sawBooted),
      r.unlockAttempted && !sawBooted && (sawLocked ==> r.lockEpisodeOpen),
      FailuresAfterProbe(r, p, err),
      if sawBooted then 0 else r.unlockConnectFailures,
      p.endpointDown,
      latched,
      latchKind,
      if Latches(err) then BoundedText(ErrorText(err)) else r.latchReason)
  }

  /** Which changes must reach the disk at once. Times, details and backoff counters
      wait for the next relevant change. */
  predicate PersistenceRelevantChanged(before: DeviceRecord, after: DeviceRecord) {
    || before.state != after.state
    || before.lastObservation != after.lastObservation
    || before.stateChangedAt != after.stateChangedAt
    || before.lastUnlockAttemptAt != after.lastUnlockAttemptAt
    || before.nextUnlockEligibleAt != after.nextUnlockEligibleAt
    || before.lockEpisode != after.lockEpisode
    || before.lockEpisodeOpen != after.lockEpisodeOpen
    || before.unlockAttempted != after.unlockAttempted
    || before.unlockConnectFailures != after.unlockConnectFailures
    || before.endpointDown != after.endpointDown
    || before.latched != after.latched
    || before.latchKind != after.latchKind
    || before.latchReason != after.latchReason
  }

  /** Whether a probe authorises an unlock: a definitive locked observation of a device
      with automatic unlock, not latched, not yet attempted, and past its cooldown. */
  predicate UnlockDue(after: DeviceRecord, p: ProbeResult, err: OpError, auto: bool, now: nat) {
    err == NoError && p.state == Locked && auto && !after.latched && !after.unlockAttempted &&
    after.nextUnlockEligibleAt <= now
  }

  predicate MayStart(r: DeviceRecord, auto: bool, now: nat) {
    r.state == Locked && !r.latched && !r.unlockAttempted && auto && r.nextUnlockEligibleAt <= now
  }

  function AfterStart(r: DeviceRecord, opts: Options, now: nat): DeviceRecord
    requires opts.Valid()
  {
    r.(unlockAttempted := true, lastUnlockAttemptAt := now, nextUnlockEligibleAt := now + opts.unlockCooldown as int,
       state := Unlocking, stateChangedAt := now)
  }

  const PERSIST_ATTEMPT_TEXT := "persist unlock attempt"

  /** The record kept in memory when the attempt marker could not be saved. */
  function AfterFailedStart(r: DeviceRecord, opts: Options, now: nat): DeviceRecord
    requires opts.Valid()
  {
    AfterStart(r, opts, now).(state := Error, lastError := PERSIST_ATTEMPT_TEXT)
  }

  const NO_RESULT_TEXT := "unlocker returned neither acceptance nor an error"

  /** True when the adapter reports that it never submitted the credential, so the attempt
      may be repeated after a backoff. */
  predicate PreSubmissionRetry(res: UnlockResult, err: OpError) {
    err != NoError && !Latches(err) && !res.accepted
  }

  function AfterUnlock(r: DeviceRecord, res: UnlockResult, err: OpError, opts: Options, now: nat): DeviceRecord
    requires opts.Valid()
  {
    var state :=
      if Latches(err) then StateForLatch(FailureKindOf(err))
      else if res.accepted then Booting
      else if err != NoError && FailureKindOf(err) == FailureUnreachable then Unreachable
      else Error;
    var retry := PreSubmissionRetry(res, err);
    BackoffInRange(opts.backoffInitial as int, opts.backoffMax as int, r.unlockConnectFailures + 1);
    r.(state := state,
       detail := BoundedText(res.detail),
       lastError := if err != NoError then BoundedText(ErrorText(err)) else if res.accepted then "" else NO_RESULT_TEXT,
       stateChangedAt := if state == r.state then r.stateChangedAt else now,
       latched := r.latched || Latches(err),
       latchKind := if Latches(err) then FailureKindOf(err) else r.latchKind,
       latchReason := if Latches(err) then BoundedText(ErrorText(err)) else r.latchReason,
       unlockAttempted := r.unlockAttempted && !retry,
       consecutiveFailures := r.consecutiveFailures + (if retry then 1 else 0),
       unlockConnectFailures :=
         if retry then r.unlockConnectFailures + 1
         else if res.accepted && !Latches(err) then 0
         else r.unlockConnectFailures,
       nextUnlockEligibleAt :=
         if retry then now + BackoffDelay(opts.backoffInitial as int, opts.backoffMax as int,
                                          r.unlockConnectFailures + 1)
         else r.nextUnlockEligibleAt)
  }

  /** An operator clear does something only for a latch or an attempt in an open episode. */
  predicate Clearable(r: DeviceRecord) {
    r.latched || (r.lockEpisodeOpen && r.unlockAttempted)
  }

  function AfterClear(r: DeviceRecord, now: nat): DeviceRecord {
    var state := StateForObservation(r.lastObservation);
    r.(latched := false, latchKind := NoFailureKind, latchReason := "", lastError := "",
       unlockAttempted := r.unlockAttempted && !r.lockEpisodeOpen,
       state := state,
       stateChangedAt := if state == r.state then r.stateChangedAt else now)
  }

  // ---------------------------------------------------------------------------------
  // The same, result by result.

  predicate NeedsOperator(err: OpError) {
    err.Classified? && (err.kind == FailureCredential || err.kind == FailureHostKey)
  }

  predicate SameLatch(r: DeviceRecord, r': DeviceRecord) {
    r'.latched == r.latched && r'.latchKind == r.latchKind && r'.latchReason == r.latchReason
  }

  predicate SameEpisode(r: DeviceRecord, r': DeviceRecord) {
    r'.lockEpisode == r.lockEpisode && r'.lockEpisodeOpen == r.lockEpisodeOpen &&
    r'.unlockAttempted == r.unlockAttempted
  }

  /** The latch an error sets, or leaves alone. */
  predicate LatchedBy(r: DeviceRecord, err: OpError, r': DeviceRecord) {
    if NeedsOperator(err)
    then r'.latched && r'.latchKind == err.kind && r'.latchReason == BoundedText(err.text)
    else SameLatch(r, r')
  }

  /** What a probe does to a record, told by what it brought: an error, an unknown state, or
      one of the four observations. */
  predicate ProbeOutcome(r: DeviceRecord, p: ProbeResult, err: OpError, now: nat, r': DeviceRecord) {
    var down := err.DeadlineExceeded? || (err.Classified? && err.kind == FailureUnreachable);
    && LatchedBy(r, err, r')
    && r'.lastUnlockAttemptAt == r.lastUnlockAttemptAt && r'.nextUnlockEligibleAt == r.nextUnlockEligibleAt
    && r'.lastCheckedAt == now && r'.endpointDown == p.endpointDown && r'.detail == BoundedText(p.detail)
    && r'.stateChangedAt == (if r'.state == r.state then r.stateChangedAt else now)
    && (r'.latched ==> r'.state == if r'.latchKind == FailureCredential then CredentialFailed else Error)
    && if err != NoError then
         && SameEpisode(r, r') && r'.unlockConnectFailures == r.unlockConnectFailures
         && r'.lastObservation == (if down then Unreachable else r.lastObservation)
         && (!r'.latched ==> r'.state == if down then Unreachable else Error)
         && r'.lastError == BoundedText(ErrorText(err))
         && r'.consecutiveFailures == (if r.endpointDown && !p.endpointDown then 1 else r.consecutiveFailures + 1)
       else match p.state
         case Locked =>
           && r'.lastObservation == Locked && (!r'.latched ==> r'.state == Locked) && r'.lastError == ""
           && (if r.lockEpisodeOpen then SameEpisode(r, r')
               else r'.lockEpisode == r.lockEpisode + 1 && r'.lockEpisodeOpen && !r'.unlockAttempted)
           && r'.consecutiveFailures == 0 && r'.unlockConnectFailures == r.unlockConnectFailures
         case Booted =>
           && r'.lastObservation == Booted && (!r'.latched ==> r'.state == Booted) && r'.lastError == ""
           && r'.lockEpisode == r.lockEpisode && !r'.lockEpisodeOpen && !r'.unlockAttempted
           && r'.consecutiveFailures == 0 && r'.unlockConnectFailures == 0
         case Indeterminate =>
           && r'.lastObservation == Indeterminate && (!r'.latched ==> r'.state == Indeterminate) && r'.lastError == ""
           && SameEpisode(r, r')
           && r'.consecutiveFailures == 0 && r'.unlockConnectFailures == r.unlockConnectFailures
         case Unreachable =>
           && r'.lastObservation == Unreachable && (!r'.latched ==> r'.state == Unreachable) && r'.lastError == ""
           && SameEpisode(r, r')
           && r'.consecutiveFailures == r.consecutiveFailures + 1
           && r'.unlockConnectFailures == r.unlockConnectFailures
         case _ =>
           && r'.lastObservation == r.lastObservation && (!r'.latched ==> r'.state == Error)
           && r'.lastError == INVALID_STATE_TEXT && SameEpisode(r, r')
           && r'.consecutiveFailures == r.consecutiveFailures + 1
           && r'.unlockConnectFailures == r.unlockConnectFailures
  }

  /** What starting an unlock does: the attempt stands and the cooldown runs whether or not the
      marker could be saved; a failed save shows an error, so that nothing is submitted. */
  predicate StartOutcome(r: DeviceRecord, opts: Options, now: nat, saved: bool, r': DeviceRecord) {
    && r'.unlockAttempted && r'.lastUnlockAttemptAt == now && r'.stateChangedAt == now
    && r'.nextUnlockEligibleAt == now + opts.unlockCooldown as int
    && r'.state == (if saved then Unlocking else Error)
    && r'.lastError == (if saved then r.lastError else "persist unlock attempt")
    && SameLatch(r, r') && r'.lockEpisode == r.lockEpisode && r'.lockEpisodeOpen == r.lockEpisodeOpen
    && r'.lastObservation == r.lastObservation && r'.lastCheckedAt == r.lastCheckedAt && r'.detail == r.detail
    && r'.consecutiveFailures == r.consecutiveFailures && r'.unlockConnectFailures == r.unlockConnectFailures
    && r'.endpointDown == r.endpointDown
  }

  /** What an unlock result does: an operator's case latches and keeps the attempt, an
      acceptance waits for the boot, a failure before the submission releases the attempt after
      a backoff, and no answer at all keeps it. */
  predicate UnlockOutcome(r: DeviceRecord, res: UnlockResult, err: OpError, opts: Options, now: nat,
                          r': DeviceRecord) {
    var down := err.DeadlineExceeded? || (err.Classified? && err.kind == FailureUnreachable);
    && LatchedBy(r, err, r')
    && r'.lockEpisode == r.lockEpisode && r'.lockEpisodeOpen == r.lockEpisodeOpen
    && r'.lastObservation == r.lastObservation && r'.lastCheckedAt == r.lastCheckedAt
    && r'.lastUnlockAttemptAt == r.lastUnlockAttemptAt && r'.endpointDown == r.endpointDown
    && r'.detail == BoundedText(res.detail)
    && r'.stateChangedAt == (if r'.state == r.state then r.stateChangedAt else now)
    && (err != NoError ==> r'.lastError == BoundedText(ErrorText(err)))
    && if !NeedsOperator(err) && !res.accepted && err != NoError then
         && r'.state == (if down then Unreachable else Error)
         && !r'.unlockAttempted
         && r'.nextUnlockEligibleAt ==
            now + BackoffDelay(opts.backoffInitial as int, opts.backoffMax as int, r.unlockConnectFailures + 1)
         && r'.consecutiveFailures == r.consecutiveFailures + 1
         && r'.unlockConnectFailures == r.unlockConnectFailures + 1
       else
         && r'.unlockAttempted == r.unlockAttempted && r'.nextUnlockEligibleAt == r.nextUnlockEligibleAt
         && r'.consecutiveFailures == r.consecutiveFailures
         && if NeedsOperator(err) then
              && r'.state == (if err.kind == FailureCredential then CredentialFailed else Error)
              && r'.unlockConnectFailures == r.unlockConnectFailures
            else if res.accepted then
              && r'.state == Booting && r'.unlockConnectFailures == 0 && (err == NoError ==> r'.lastError == "")
            else
              && r'.state == Error && r'.unlockConnectFailures == r.unlockConnectFailures
              && r'.lastError == NO_RESULT_TEXT
  }

  /** What an operator clear does. */
  predicate ClearOutcome(r: DeviceRecord, now: nat, r': DeviceRecord) {
    && !r'.latched && r'.latchKind == NoFailureKind && r'.latchReason == "" && r'.lastError == ""
    && (r.lockEpisodeOpen ==> !r'.unlockAttempted) && (!r.lockEpisodeOpen ==> r'.unlockAttempted == r.unlockAttempted)
    && r'.state == (if r.lastObservation in {Booted, Locked, Unreachable} then r.lastObservation else Indeterminate)
    && r'.stateChangedAt == (if r'.state == r.state then r.stateChangedAt else now)
    && r'.lockEpisode == r.lockEpisode && r'.lockEpisodeOpen == r.lockEpisodeOpen
    && r'.lastObservation == r.lastObservation && r'.lastCheckedAt == r.lastCheckedAt
    && r'.lastUnlockAttemptAt == r.lastUnlockAttemptAt && r'.nextUnlockEligibleAt == r.nextUnlockEligibleAt
    && r'.consecutiveFailures == r.consecutiveFailures && r'.unlockConnectFailures == r.unlockConnectFailures
    && r'.endpointDown == r.endpointDown && r'.detail == r.detail
  }

  lemma ProbeByCase(r: DeviceRecord, p: ProbeResult, err: OpError, now: nat)
    ensures ProbeOutcome(r, p, err, now, AfterProbe(r, p, err, now))
  {}

  lemma StartByCase(r: DeviceRecord, opts: Options, now: nat)
    requires opts.Valid()
    ensures StartOutcome(r, opts, now, true, AfterStart(r, opts, now))
    ensures StartOutcome(r, opts, now, false, AfterFailedStart(r, opts, now))
  {}

  lemma UnlockByCase(r: DeviceRecord, res: UnlockResult, err: OpError, opts: Options, now: nat)
    requires opts.Valid()
    ensures UnlockOutcome(r, res, err, opts, now, AfterUnlock(r, res, err, opts, now))
  {}

  lemma ClearByCase(r: DeviceRecord, now: nat)
    ensures ClearOutcome(r, now, AfterClear(r, now))
  {}

  /** What every record satisfies, in memory and on disk: an attempt belongs to an open
      episode, a latch decides the shown state, and a locked view belongs to an open episode. */
  predicate Consistent(r: DeviceRecord) {
    && ValidRuntimeState(r.state)
    && (r.unlockAttempted ==> r.lockEpisodeOpen)
    && (r.latched ==> r.state == StateForLatch(r.latchKind))
    && (r.lastObservation == Locked ==> r.lockEpisodeOpen)
    && (r.lastObservation == Booted ==> !r.lockEpisodeOpen)
    && (r.state == Locked ==> r.lastObservation == Locked)
  }

  lemma ProbeKeepsConsistent(r: DeviceRecord, p: ProbeResult, err: OpError, now: nat)
    requires Consistent(r)
    ensures Consistent(AfterProbe(r, p, err, now))
  {}

  lemma StartKeepsConsistent(r: DeviceRecord, opts: Options, auto: bool, now: nat)
    requires Consistent(r) && opts.Valid() && MayStart(r, auto, now)
    ensures Consistent(AfterStart(r, opts, now)) && Consistent(AfterFailedStart(r, opts, now))
  {}

  lemma UnlockKeepsConsistent(r: DeviceRecord, res: UnlockResult, err: OpError, opts: Options, now: nat)
    requires Consistent(r) && opts.Valid() && !r.latched
    ensures Consistent(AfterUnlock(r, res, err, opts, now))
  {}

  lemma ClearKeepsConsistent(r: DeviceRecord, now: nat)
    requires Consistent(r)
    ensures Consistent(AfterClear(r, now))
  {}

  /** A probe that authorises an unlock leaves a record the recheck accepts at any later time. */
  lemma DueMayStart(r: DeviceRecord, p: ProbeResult, err: OpError, auto: bool, now: nat, later: nat)
    requires now <= later
    requires UnlockDue(AfterProbe(r, p, err, now), p, err, auto, now)
    ensures MayStart(AfterProbe(r, p, err, now), auto, later)
    ensures AfterProbe(r, p, err, now).lockEpisodeOpen
  {}
}
