/** From one SSH exchange to the unlock reply the monitor sees: the analyzer's
    classification, the unlock layer above it and the daemon's adapter. */
module UnlockAdapter {
  import opened PlainText
  import opened MonitorPolicy
  import opened MonitorRuns
  import opened SshExchange
  import opened Shared

  /** What an error wraps; an arbitrary handshake error may wrap any combination. */
  datatype Sentinel =
    | HostKeyMismatch | KnownHostsKeyError | OutcomeUnknown | AuthFailed
    | DeadlineError | CanceledError | RefusedError | NetTimeout

  datatype CoreError = CoreError(wraps: set<Sentinel>, text: string)

  datatype DeviceStatus = StatusUnknown | StatusLocked | StatusUnlocked | StatusUnlockedRecently

  datatype Outcome = Outcome(status: DeviceStatus, error: Option<CoreError>)

  predicate IsHostKeyError(err: CoreError) {
    HostKeyMismatch in err.wraps || KnownHostsKeyError in err.wraps || Contains(err.text, "host key mismatch")
  }

  /** The transport errors the client recognises, mapped to its own sentinels. */
  function DialError(err: CoreError): Option<CoreError> {
    if DeadlineError in err.wraps || CanceledError in err.wraps then Some(err)
    else if RefusedError in err.wraps then Some(CoreError({RefusedError}, "connection refused"))
    else if NetTimeout in err.wraps then Some(CoreError({DeadlineError}, "context deadline exceeded"))
    else None
  }

  function Wrap(sentinel: Sentinel, err: CoreError): CoreError {
    CoreError({sentinel} + err.wraps, err.text)
  }

  function ClassifyHandshakeErr(tr: Trace, err: CoreError): Outcome {
    if IsHostKeyError(err) then Outcome(StatusUnknown, Some(Wrap(HostKeyMismatch, err)))
    else if tr.success then Outcome(StatusUnlocked, None)
    else if tr.answered && tr.transition then Outcome(StatusUnknown, Some(CoreError({OutcomeUnknown}, "")))
    else match DialError(err)
      case Some(de) => Outcome(StatusUnknown, Some(if tr.answered then Wrap(OutcomeUnknown, de) else de))
      case None =>
        if tr.prompted then Outcome(StatusLocked, Some(CoreError({AuthFailed}, "authentication failed")))
        else Outcome(StatusUnknown, Some(err))
  }

  /** `handshake` is the error the SSH library reports, if any. */
  function AnalyzePrompt(tr: Trace, handshake: Option<CoreError>): Outcome {
    match handshake
    case Some(err) => ClassifyHandshakeErr(tr, err)
    case None => Outcome(if tr.success then StatusUnlocked else StatusUnlockedRecently, None)
  }

  /** Everything outside the exchange that decides the reply. `expired` is the context error
      before, `late` after the exchange; `lookup` is the credential lookup of the daemon. */
  datatype Surroundings = Surroundings(configured: bool, lookup: Lookup, expired: Option<CoreError>,
                                       handshake: Option<CoreError>, late: Option<CoreError>)

  datatype Lookup = LookupFailed | LookupEmpty | LookupFound

  /** No password can have been sent when the reply is decided before the exchange. */
  predicate ReachesServer(env: Surroundings) {
    env.configured && env.lookup == LookupFound && env.expired == None
  }

  function CoreUnlock(tr: Trace, env: Surroundings): Outcome {
    match env.expired
    case Some(err) => Outcome(StatusUnknown, Some(err))
    case None =>
      var out := AnalyzePrompt(tr, env.handshake);
      if out.status == StatusUnknown && out.error == None && env.late.Some? then Outcome(StatusUnknown, env.late)
      else out
  }

  predicate Is(err: Option<CoreError>, sentinel: Sentinel) {
    err.Some? && sentinel in err.value.wraps
  }

  /** An error passed through without a classification of its own. */
  function PassedOn(err: CoreError): OpError {
    if DeadlineError in err.wraps then DeadlineExceeded(err.text) else Unclassified(err.text)
  }

  /** How the daemon's adapter reports the outcome of an unlock. */
  function Answer(out: Outcome): (UnlockResult, OpError) {
    var none := UnlockResult(false, "");
    if out.status == StatusUnlocked then (UnlockResult(true, "FileVault accepted the credential"), NoError)
    else if out.status == StatusUnlockedRecently
         then (UnlockResult(true, "normal macOS was already available"), NoError)
    else if Is(out.error, OutcomeUnknown)
         then (UnlockResult(true, "credential submitted; acknowledgement unavailable"), PassedOn(out.error.value))
    else if out.status == StatusLocked || Is(out.error, AuthFailed)
         then (none, Classified(FailureCredential, "FileVault rejected the configured credential"))
    else if Is(out.error, HostKeyMismatch) then (none, Classified(FailureHostKey, out.error.value.text))
    else if out.error.Some? then (none, Classified(FailureUnreachable, out.error.value.text))
    else (none, Classified(FailureTransient, "unlock result was inconclusive before credential submission"))
  }

  function AdapterUnlock(tr: Trace, env: Surroundings): (UnlockResult, OpError) {
    if !env.configured then (UnlockResult(false, ""), Classified(FailureTransient, "configured device not found"))
    else if env.lookup != LookupFound
         then (UnlockResult(false, ""), Classified(FailureCredential, "credential unavailable"))
    else Answer(CoreUnlock(tr, env))
  }

  /** An error an outcome carries means that the password went out, or was there before. */
  lemma UnknownOutcomeMeansSent(tr: Trace, env: Surroundings)
    requires env.expired == None
    ensures Is(CoreUnlock(tr, env).error, OutcomeUnknown) ==> tr.answered || Is(env.handshake, OutcomeUnknown)
  {
    hide IsHostKeyError;
  }

  lemma UnlockedMeansProof(tr: Trace, env: Surroundings)
    ensures CoreUnlock(tr, env).status in {StatusUnlocked, StatusUnlockedRecently} ==>
            env.expired == None && (env.handshake == None || tr.success)
  {
    hide IsHostKeyError;
  }

  lemma AnsweredMeansAuthoritative(tr: Trace, env: Surroundings)
    requires env.expired == None && tr.answered && tr.prompted
    ensures var out := CoreUnlock(tr, env);
            || out.status in {StatusUnlocked, StatusUnlockedRecently, StatusLocked}
            || Is(out.error, OutcomeUnknown) || Is(out.error, HostKeyMismatch)
  {
    hide IsHostKeyError;
  }

  lemma AnsweredReply(tr: Trace, env: Surroundings)
    ensures tr.answered && tr.prompted && ReachesServer(env) ==>
            AdapterUnlock(tr, env).0.accepted || Latches(AdapterUnlock(tr, env).1)
  {
    if tr.answered && tr.prompted && ReachesServer(env) {
      AnsweredMeansAuthoritative(tr, env);
    }
    hide CoreUnlock;
  }

  /** Main theorem of the adapter. For every server behaviour and every way the connection
      can end: a reply that lets the monitor try again in the same episode means that the
      password was never sent. */
  lemma AdapterHonoursContract(events: seq<ServerEvent>, cfg: Settings, env: Surroundings)
    requires cfg.answer
    ensures var tr := After(events, |events|, cfg);
            HonoursContract(AdapterUnlock(tr, env).0, AdapterUnlock(tr, env).1, ReachesServer(env) && tr.answered)
  {
    PasswordSentAtMostOnce(events, cfg);
    AnsweredReply(After(events, |events|, cfg), env);
    hide After, SendsAt, AdapterUnlock;
  }

  /** What each kind of reply means. A clean acceptance: the server showed a success after the
      password, or the handshake completed. An acceptance with an error: the password was
      sent, or the transport itself reported an unknown outcome. Without acceptance after the
      password was sent, the failure latches. */
  lemma ReplyMeaning(events: seq<ServerEvent>, cfg: Settings, env: Surroundings)
    requires cfg.answer
    ensures var tr := After(events, |events|, cfg);
            var (res, err) := AdapterUnlock(tr, env);
            && (res.accepted && err == NoError ==>
                  ReachesServer(env) && (env.handshake == None || (tr.success && tr.answered)))
            && (res.accepted && err != NoError ==>
                  (ReachesServer(env) && (tr.answered || Is(env.handshake, OutcomeUnknown))) ||
                  Is(env.expired, OutcomeUnknown))
            && (tr.answered && ReachesServer(env) && !res.accepted ==> Latches(err))
  {
    hide After, SendsAt, AdapterUnlock, Latches;
    var tr := After(events, |events|, cfg);
    PasswordSentAtMostOnce(events, cfg);
    if !tr.answered {
      NoAnswerNoText(events, |events|, cfg);
    }
    AcceptanceMeaning(tr, env);
    AnsweredReply(tr, env);
  }

  lemma AcceptanceMeaning(tr: Trace, env: Surroundings)
    requires tr.success ==> tr.answered
    ensures var (res, err) := AdapterUnlock(tr, env);
            && (res.accepted && err == NoError ==>
                  ReachesServer(env) && (env.handshake == None || (tr.success && tr.answered)))
            && (res.accepted && err != NoError ==>
                  (ReachesServer(env) && (tr.answered || Is(env.handshake, OutcomeUnknown))) ||
                  Is(env.expired, OutcomeUnknown))
  {
    hide AnalyzePrompt;
    UnlockedMeansProof(tr, env);
    if env.expired == None {
      UnknownOutcomeMeansSent(tr, env);
    }
  }

  /** A rejected password is reported as such, unless something more authoritative happened. */
  lemma RejectionIsCredentialFailure(events: seq<ServerEvent>, cfg: Settings, env: Surroundings)
    requires cfg.answer && ReachesServer(env) && env.handshake.Some?
    ensures var tr := After(events, |events|, cfg);
            tr.answered && !tr.success && !tr.transition && DialError(env.handshake.value) == None &&
            !IsHostKeyError(env.handshake.value)
            ==> AdapterUnlock(tr, env) == (UnlockResult(false, ""),
                                           Classified(FailureCredential,
                                                      "FileVault rejected the configured credential"))
  {
    PasswordSentAtMostOnce(events, cfg);
    hide After, SendsAt, IsHostKeyError;
  }
}
