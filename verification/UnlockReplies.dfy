/** Which reply the monitor gets, as conditions on what the server did and how the connection
    ended: one exact condition for each kind of reply. */
module UnlockReplies {
  import opened PlainText
  import opened Shared
  import opened MonitorPolicy
  import opened SshExchange
  import opened UnlockAdapter

  /** A key that is not the expected one, in any of the three ways it is reported. */
  predicate WrongKey(h: CoreError) {
    HostKeyMismatch in h.wraps || KnownHostsKeyError in h.wraps || Contains(h.text, "host key mismatch")
  }

  /** The connection broke, rather than being refused by the server. */
  predicate Lost(h: CoreError) {
    DeadlineError in h.wraps || CanceledError in h.wraps || RefusedError in h.wraps || NetTimeout in h.wraps
  }

  /** The client reports this error under a name of its own and forgets what it wrapped. */
  predicate Renamed(h: CoreError) {
    DeadlineError !in h.wraps && CanceledError !in h.wraps && (RefusedError in h.wraps || NetTimeout in h.wraps)
  }

  predicate Rejects(h: CoreError) {
    AuthFailed in h.wraps && OutcomeUnknown !in h.wraps
  }

  predicate HasCredential(env: Surroundings) {
    env.configured && env.lookup == LookupFound
  }

  /** The exchange took place and failed without a success that counts. */
  predicate Failed(tr: Trace, env: Surroundings) {
    ReachesServer(env) && env.handshake.Some? && (WrongKey(env.handshake.value) || !tr.success)
  }

  /** The handshake completed, or the server showed the success and its key was right. */
  predicate AcceptedWhen(tr: Trace, env: Surroundings) {
    ReachesServer(env) && (env.handshake.Some? ==> tr.success && !WrongKey(env.handshake.value))
  }

  /** The password was sent and then the service went away; or an error says itself that the
      outcome is unknown. */
  predicate UncertainWhen(tr: Trace, env: Surroundings) {
    || (HasCredential(env) && env.expired.Some? && OutcomeUnknown in env.expired.value.wraps)
    || (Failed(tr, env) &&
        var h := env.handshake.value;
        if WrongKey(h) then OutcomeUnknown in h.wraps
        else if tr.answered then tr.transition || Lost(h)
        else OutcomeUnknown in h.wraps && !Renamed(h))
  }

  /** There is no credential; or the password was sent and the server ended the authentication
      while its service stayed up; or an error says itself that authentication failed. */
  predicate RejectedWhen(tr: Trace, env: Surroundings) {
    || (env.configured && env.lookup != LookupFound)
    || (HasCredential(env) && env.expired.Some? && Rejects(env.expired.value))
    || (Failed(tr, env) &&
        var h := env.handshake.value;
        if WrongKey(h) then Rejects(h)
        else if tr.answered then !tr.transition && !Lost(h)
        else Rejects(h) && !Renamed(h))
  }

  /** The key was wrong, and no error claims more than that. */
  predicate WrongKeyWhen(tr: Trace, env: Surroundings) {
    || (HasCredential(env) && env.expired.Some? && HostKeyMismatch in env.expired.value.wraps &&
        AuthFailed !in env.expired.value.wraps && OutcomeUnknown !in env.expired.value.wraps)
    || (Failed(tr, env) && WrongKey(env.handshake.value) && AuthFailed !in env.handshake.value.wraps &&
        OutcomeUnknown !in env.handshake.value.wraps)
  }

  /** Every other error of an attempt that did not send the password. */
  predicate UnreachableWhen(tr: Trace, env: Surroundings) {
    || (HasCredential(env) && env.expired.Some? &&
        env.expired.value.wraps !! {HostKeyMismatch, AuthFailed, OutcomeUnknown})
    || (Failed(tr, env) && !WrongKey(env.handshake.value) && !tr.answered &&
        (Renamed(env.handshake.value) || env.handshake.value.wraps !! {AuthFailed, OutcomeUnknown}))
  }

  predicate Reports(err: OpError, kind: FailureKind) {
    err.Classified? && err.kind == kind
  }

  /** Each kind of reply under its own condition. */
  predicate Replies(tr: Trace, env: Surroundings, res: UnlockResult, err: OpError) {
    && (res.accepted && err == NoError <==> AcceptedWhen(tr, env))
    && (res.accepted && err == NoError ==>
          res.detail == if tr.success then "FileVault accepted the credential"
                        else "normal macOS was already available")
    && (res.accepted && err != NoError <==> UncertainWhen(tr, env))
    && (!res.accepted && Reports(err, FailureCredential) <==> RejectedWhen(tr, env))
    && (!res.accepted && Reports(err, FailureHostKey) <==> WrongKeyWhen(tr, env))
    && (!res.accepted && Reports(err, FailureUnreachable) <==> UnreachableWhen(tr, env))
    && (!res.accepted && Reports(err, FailureTransient) <==> !env.configured)
    && (res.accepted ==> !Latches(err)) && (!res.accepted ==> err.Classified? && err.kind != NoFailureKind)
  }

  /** What an error gives that came with no status. */
  lemma AnswerToError(e: CoreError)
    ensures var (res, err) := Answer(Outcome(StatusUnknown, Some(e)));
            && (res.accepted <==> OutcomeUnknown in e.wraps)
            && (res.accepted ==> err != NoError && !err.Classified? && !Latches(err))
            && (res.accepted ==> (err.DeadlineExceeded? <==> DeadlineError in e.wraps) && ErrorText(err) == e.text)
            && (!res.accepted ==> err.Classified? &&
                                  err.kind == if AuthFailed in e.wraps then FailureCredential
                                              else if HostKeyMismatch in e.wraps then FailureHostKey
                                              else FailureUnreachable)
  {}

  lemma ReplyBeforeExchange(tr: Trace, env: Surroundings)
    requires !ReachesServer(env)
    ensures Replies(tr, env, AdapterUnlock(tr, env).0, AdapterUnlock(tr, env).1)
  {
    hide AnalyzePrompt, Answer;
    if HasCredential(env) {
      AnswerToError(env.expired.value);
    }
  }

  lemma ReplyToCompletion(tr: Trace, env: Surroundings)
    requires ReachesServer(env) && env.handshake == None
    ensures Replies(tr, env, AdapterUnlock(tr, env).0, AdapterUnlock(tr, env).1)
  {}

  lemma ReplyToWrongKey(tr: Trace, env: Surroundings)
    requires ReachesServer(env) && env.handshake.Some? && WrongKey(env.handshake.value)
    ensures Replies(tr, env, AdapterUnlock(tr, env).0, AdapterUnlock(tr, env).1)
  {
    hide Contains, Answer;
    AnswerToError(Wrap(HostKeyMismatch, env.handshake.value));
  }

  lemma ReplyToAnswered(tr: Trace, env: Surroundings)
    requires ReachesServer(env) && env.handshake.Some? && !WrongKey(env.handshake.value)
    requires tr.prompted && tr.answered
    ensures Replies(tr, env, AdapterUnlock(tr, env).0, AdapterUnlock(tr, env).1)
  {
    hide Contains;
    var out := CoreUnlock(tr, env);
    assert out == ClassifyHandshakeErr(tr, env.handshake.value);
    if out.status == StatusUnknown {
      AnswerToError(out.error.value);
    }
  }

  lemma ReplyToUnanswered(tr: Trace, env: Surroundings)
    requires ReachesServer(env) && env.handshake.Some? && !WrongKey(env.handshake.value)
    requires !tr.prompted && !tr.answered && !tr.success
    ensures Replies(tr, env, AdapterUnlock(tr, env).0, AdapterUnlock(tr, env).1)
  {
    hide Contains, Answer;
    var h := env.handshake.value;
    AnswerToError(if DialError(h).Some? then DialError(h).value else h);
  }

  /** Main theorem on the replies: for every server and every way an attempt can end, the kind
      of the reply is decided by exactly these conditions. */
  lemma ReplyIff(events: seq<ServerEvent>, cfg: Settings, env: Surroundings)
    requires cfg.answer
    ensures var tr := After(events, |events|, cfg);
            Replies(tr, env, AdapterUnlock(tr, env).0, AdapterUnlock(tr, env).1)
  {
    var tr := After(events, |events|, cfg);
    PasswordSentAtMostOnce(events, cfg);
    if !tr.answered {
      NoAnswerNoText(events, |events|, cfg);
    }
    hide After, SendsAt, AdapterUnlock, Replies, WrongKey;
    if !ReachesServer(env) {
      ReplyBeforeExchange(tr, env);
    } else if env.handshake == None {
      ReplyToCompletion(tr, env);
    } else if WrongKey(env.handshake.value) {
      ReplyToWrongKey(tr, env);
    } else if tr.answered {
      ReplyToAnswered(tr, env);
    } else {
      ReplyToUnanswered(tr, env);
    }
  }

  /** A server that never asks for the password, or a host that does not answer at all: unless
      the error itself says more, the device is unreachable, nothing latches, and the attempt
      may be repeated. */
  lemma UnaskedErrorIsUnreachable(events: seq<ServerEvent>, successMsg: string, lower: char -> char, env: Surroundings)
    requires ReachesServer(env) && env.handshake.Some? && !WrongKey(env.handshake.value)
    requires env.handshake.value.wraps !! {AuthFailed, OutcomeUnknown}
    requires forall i :: 0 <= i < |events| ==> !AsksPassword(events[i])
    ensures var cfg := ClientSettings(true, successMsg, lower);
            var (res, err) := AdapterUnlock(After(events, |events|, cfg), env);
            !res.accepted && Reports(err, FailureUnreachable) && PreSubmissionRetry(res, err)
  {
    hide After, SendsAt, AdapterUnlock, AsksPassword, WrongKey, Replies;
    var cfg := ClientSettings(true, successMsg, lower);
    NothingSent(events, successMsg, lower);
    ReplyIff(events, cfg, env);
    var tr := After(events, |events|, cfg);
    UnansweredIsUnreachable(tr, env, AdapterUnlock(tr, env).0, AdapterUnlock(tr, env).1);
  }

  lemma UnansweredIsUnreachable(tr: Trace, env: Surroundings, res: UnlockResult, err: OpError)
    requires ReachesServer(env) && env.handshake.Some? && !WrongKey(env.handshake.value)
    requires env.handshake.value.wraps !! {AuthFailed, OutcomeUnknown}
    requires !tr.answered && !tr.success && Replies(tr, env, res, err)
    ensures !res.accepted && Reports(err, FailureUnreachable) && PreSubmissionRetry(res, err)
  {
    hide WrongKey;
  }

  lemma NothingSent(events: seq<ServerEvent>, successMsg: string, lower: char -> char)
    requires forall i :: 0 <= i < |events| ==> !AsksPassword(events[i])
    ensures var tr := After(events, |events|, ClientSettings(true, successMsg, lower));
            !tr.answered && !tr.success
  {
    var cfg := ClientSettings(true, successMsg, lower);
    hide After, SendsAt, AsksPassword;
    forall i | 0 <= i < |events|
      ensures !SendsAt(events, i, cfg)
    {
      PasswordAnswersFirstQuestion(events, i, true, successMsg, lower);
    }
    PasswordSentAtMostOnce(events, cfg);
    NoPasswordNoSuccess(events, cfg);
  }
}
