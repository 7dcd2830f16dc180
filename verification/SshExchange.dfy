/** One SSH authentication exchange with an arbitrary server: banners (section 5.4 of RFC
    4252) and keyboard-interactive information requests (sections 3.2 to 3.4 of RFC 4256)
    in any number and order, even after a callback refused. */
module SshExchange {
  import opened PlainText
  import opened BannerText

  datatype ServerEvent =
    | Banner(msg: string)
    | Challenge(instruction: string, questions: seq<string>, echos: seq<bool>)
    | TransitionSeen

  /** What a callback gives back to the SSH client. */
  datatype Reply = Continue | PasswordSent | Refused | StopSucceeded

  /** `answer` tells an unlock from a status probe; `isPrompt` recognises the password
      question, `detect` says whether text received after the password shows a success. */
  datatype Settings = Settings(answer: bool, isPrompt: string -> bool, detect: string -> bool)

  /** The client's settings, for the per-character lower-case mapping of Unicode. */
  function ClientSettings(answer: bool, successMsg: string, lower: char -> char): Settings {
    Settings(answer, question => IsPasswordPrompt(question), text => SuccessSeen(text, successMsg, lower))
  }

  /** The security-relevant events of the exchange, kept apart from the display text. */
  datatype Trace = Trace(banner: string, postAuth: string, prompted: bool, answered: bool, success: bool,
                         transition: bool)

  const NEW_TRACE := Trace("", "", false, false, false, false)

  function AddText(shown: string, s: string): string {
    if s == "" then shown else shown + s + "\n"
  }

  /** The only challenge that may receive the password. */
  predicate PromptShape(e: ServerEvent, cfg: Settings) {
    e.Challenge? && |e.questions| == 1 && |e.echos| == 1 && !e.echos[0] && cfg.isPrompt(e.questions[0])
  }

  function OnResponse(tr: Trace, s: string, cfg: Settings): (Trace, Reply) {
    var t1 := tr.(banner := AddText(tr.banner, s));
    if !tr.answered then (t1, if tr.success then StopSucceeded else Continue)
    else
      var text := tr.postAuth + s + "\n";
      var success := tr.success || cfg.detect(text);
      (t1.(postAuth := text, success := success), if success then StopSucceeded else Continue)
  }

  function Deliver(tr: Trace, e: ServerEvent, cfg: Settings): (Trace, Reply) {
    match e
    case Banner(msg) => OnResponse(tr, msg, cfg)
    case TransitionSeen => (tr.(transition := true), Continue)
    case Challenge(instruction, questions, _) =>
      if questions == [] then OnResponse(tr, instruction, cfg)
      else
        var t1 := tr.(banner := AddText(tr.banner, instruction));
        if !PromptShape(e, cfg) then (t1, Refused)
        else
          var t2 := t1.(banner := AddText(t1.banner, questions[0]));
          if tr.prompted then (t2, Refused)
          else (t2.(prompted := true, answered := cfg.answer), if cfg.answer then PasswordSent else Refused)
  }

  /** The trace after the first `n` events. */
  function After(events: seq<ServerEvent>, n: nat, cfg: Settings): Trace
    requires n <= |events|
  {
    if n == 0 then NEW_TRACE else Deliver(After(events, n - 1, cfg), events[n - 1], cfg).0
  }

  /** Whether the client answers the `i`th event with the password. */
  predicate SendsAt(events: seq<ServerEvent>, i: nat, cfg: Settings)
    requires i < |events|
  {
    Deliver(After(events, i, cfg), events[i], cfg).1 == PasswordSent
  }

  /** The recorder of one exchange; its callbacks run as the server's messages arrive. */
  class AuthTrace {
    var banner: string
    var postAuth: string
    var passwordPrompted: bool
    var passwordAnswered: bool
    var successAfterAuth: bool
    var transportTransitionObserved: bool
    const cfg: Settings

    function State(): Trace
      reads this
    {
      Trace(banner, postAuth, passwordPrompted, passwordAnswered, successAfterAuth, transportTransitionObserved)
    }

    constructor (cfg: Settings)
      ensures State() == NEW_TRACE && this.cfg == cfg
    {
      this.cfg := cfg;
      banner, postAuth := "", "";
      passwordPrompted, passwordAnswered, successAfterAuth, transportTransitionObserved := false, false, false, false;
    }

    method ShowText(s: string)
      modifies this`banner
      ensures banner == AddText(old(banner), s)
    {
      if s == "" {
        return;
      }
      banner := banner + s + "\n";
    }

    method RecordPasswordPrompt(answer: bool) returns (ok: bool)
      modifies this`passwordPrompted, this`passwordAnswered
      ensures ok == !old(passwordPrompted) && passwordPrompted
      ensures passwordAnswered == if ok then answer else old(passwordAnswered)
    {
      if passwordPrompted {
        return false;
      }
      passwordPrompted, passwordAnswered := true, answer;
      ok := true;
    }

    method RecordResponseText(s: string) returns (succeeded: bool)
      modifies this`banner, this`postAuth, this`successAfterAuth
      ensures State() == OnResponse(old(State()), s, cfg).0
      ensures succeeded == (OnResponse(old(State()), s, cfg).1 == StopSucceeded)
    {
      ShowText(s);
      if passwordAnswered {
        postAuth := postAuth + s;
        postAuth := postAuth + "\n";
        if cfg.detect(postAuth) {
          successAfterAuth := true;
        }
      }
      succeeded := successAfterAuth;
    }

    method OnBanner(msg: string) returns (reply: Reply)
      modifies this`banner, this`postAuth, this`successAfterAuth
      ensures (State(), reply) == Deliver(old(State()), Banner(msg), cfg)
    {
      var succeeded := RecordResponseText(msg);
      reply := if succeeded then StopSucceeded else Continue;
    }

    method OnChallenge(instruction: string, questions: seq<string>, echos: seq<bool>) returns (reply: Reply)
      modifies this
      ensures (State(), reply) == Deliver(old(State()), Challenge(instruction, questions, echos), cfg)
    {
      if |questions| == 0 {
        var succeeded := RecordResponseText(instruction);
        return if succeeded then StopSucceeded else Continue;
      }
      ShowText(instruction);
      if |questions| != 1 || |echos| != 1 || echos[0] || !cfg.isPrompt(questions[0]) {
        return Refused;
      }
      ShowText(questions[0]);
      var first := RecordPasswordPrompt(cfg.answer);
      if !first || !cfg.answer {
        return Refused;
      }
      reply := PasswordSent;
    }

    method MarkTransportTransition()
      modifies this`transportTransitionObserved
      ensures State() == Deliver(old(State()), TransitionSeen, cfg).0
    {
      transportTransitionObserved := true;
    }
  }

  // ---------------------------------------------------------------------------------
  // The password.

  predicate TraceOk(tr: Trace, cfg: Settings) {
    (tr.answered ==> tr.prompted && cfg.answer) && (tr.prompted && cfg.answer ==> tr.answered)
  }

  /** One callback: the password goes only to the first well-formed prompt, and only
      responses after it are collected. */
  lemma DeliverFacts(tr: Trace, e: ServerEvent, cfg: Settings)
    requires TraceOk(tr, cfg)
    ensures var (tr', reply) := Deliver(tr, e, cfg);
            && TraceOk(tr', cfg)
            && (reply == PasswordSent ==> PromptShape(e, cfg) && cfg.answer && !tr.prompted)
            && tr'.answered == (tr.answered || reply == PasswordSent)
            && (tr.prompted ==> tr'.prompted)
            && tr'.postAuth == (if tr.answered then tr.postAuth + ResponseText(e) else tr.postAuth)
            && (!tr.answered ==> tr'.success == tr.success)
  {
    assert tr.postAuth + "" == tr.postAuth;
    assert e.Banner? ==> tr.postAuth + e.msg + "\n" == tr.postAuth + ResponseText(e);
    assert e.Challenge? ==> tr.postAuth + e.instruction + "\n" == tr.postAuth + (e.instruction + "\n");
  }

  lemma {:induction false} AlwaysTraceOk(events: seq<ServerEvent>, n: nat, cfg: Settings)
    requires n <= |events|
    ensures TraceOk(After(events, n, cfg), cfg)
  {
    if n > 0 {
      AlwaysTraceOk(events, n - 1, cfg);
      DeliverFacts(After(events, n - 1, cfg), events[n - 1], cfg);
    }
  }

  /** The `k`th callback takes the trace of the first `k` events to that of one more. */
  lemma StepAt(events: seq<ServerEvent>, k: nat, cfg: Settings)
    requires k < |events|
    ensures var tr, tr' := After(events, k, cfg), After(events, k + 1, cfg);
            && tr'.answered == (tr.answered || SendsAt(events, k, cfg))
            && (SendsAt(events, k, cfg) ==> PromptShape(events[k], cfg) && cfg.answer && !tr.answered)
            && tr'.postAuth == (if tr.answered then tr.postAuth + ResponseText(events[k]) else tr.postAuth)
            && (!tr.answered ==> tr'.success == tr.success)
  {
    AlwaysTraceOk(events, k, cfg);
    DeliverFacts(After(events, k, cfg), events[k], cfg);
  }

  lemma {:induction false} AnsweredStays(events: seq<ServerEvent>, i: nat, j: nat, cfg: Settings)
    requires i <= j <= |events| && After(events, i, cfg).answered
    ensures After(events, j, cfg).answered
    decreases j
  {
    hide After;
    if i < j {
      AnsweredStays(events, i, j - 1, cfg);
      StepAt(events, j - 1, cfg);
    }
  }

  lemma {:induction false} AnsweredMeansSent(events: seq<ServerEvent>, j: nat, cfg: Settings) returns (i: nat)
    requires j <= |events| && After(events, j, cfg).answered
    ensures i < j && SendsAt(events, i, cfg)
    decreases j
  {
    assert j > 0;
    StepAt(events, j - 1, cfg);
    if SendsAt(events, j - 1, cfg) {
      i := j - 1;
    } else {
      i := AnsweredMeansSent(events, j - 1, cfg);
    }
  }

  lemma SendsOnce(events: seq<ServerEvent>, i: nat, j: nat, cfg: Settings)
    requires i < j < |events| && SendsAt(events, i, cfg)
    ensures !SendsAt(events, j, cfg)
  {
    StepAt(events, i, cfg);
    AnsweredStays(events, i + 1, j, cfg);
    StepAt(events, j, cfg);
  }

  /** For every server: the password goes out at most once, only to a single hidden
      password question, never from a status probe, and the trace knows whether it did. */
  lemma PasswordSentAtMostOnce(events: seq<ServerEvent>, cfg: Settings)
    ensures forall i :: 0 <= i < |events| && SendsAt(events, i, cfg) ==> PromptShape(events[i], cfg) && cfg.answer
    ensures forall i, j :: 0 <= i < j < |events| && SendsAt(events, i, cfg) ==> !SendsAt(events, j, cfg)
    ensures After(events, |events|, cfg).answered <==> exists i | 0 <= i < |events| :: SendsAt(events, i, cfg)
    ensures cfg.answer ==> After(events, |events|, cfg).prompted == After(events, |events|, cfg).answered
  {
    hide After, SendsAt;
    var n := |events|;
    forall i | 0 <= i < n && SendsAt(events, i, cfg)
      ensures PromptShape(events[i], cfg) && cfg.answer && After(events, n, cfg).answered
    {
      StepAt(events, i, cfg);
      AnsweredStays(events, i + 1, n, cfg);
    }
    forall i, j | 0 <= i < j < n && SendsAt(events, i, cfg)
      ensures !SendsAt(events, j, cfg)
    {
      SendsOnce(events, i, j, cfg);
    }
    if After(events, n, cfg).answered {
      var i := AnsweredMeansSent(events, n, cfg);
    }
    AlwaysTraceOk(events, n, cfg);
  }

  // ---------------------------------------------------------------------------------
  // The question that gets it.

  /** A single hidden question that asks for the password, with any white space around it. */
  ghost predicate AsksPassword(e: ServerEvent) {
    && e.Challenge? && |e.questions| == 1 && e.echos == [false]
    && IsPasswordQuestion(e.questions[0])
  }

  lemma {:induction false} PromptedMeansAsked(events: seq<ServerEvent>, k: nat, cfg: Settings)
    requires k <= |events|
    ensures After(events, k, cfg).prompted <==> exists j | 0 <= j < k :: PromptShape(events[j], cfg)
  {
    hide PromptShape;
    if k > 0 {
      PromptedMeansAsked(events, k - 1, cfg);
      DeliverPrompts(After(events, k - 1, cfg), events[k - 1], cfg);
    }
  }

  lemma DeliverPrompts(tr: Trace, e: ServerEvent, cfg: Settings)
    ensures Deliver(tr, e, cfg).0.prompted <==> tr.prompted || PromptShape(e, cfg)
    ensures Deliver(tr, e, cfg).1 == PasswordSent <==> cfg.answer && !tr.prompted && PromptShape(e, cfg)
  {}

  /** For every server: the client answers with the password exactly at the first hidden
      single question that asks for it, whatever comes before or after, and a status probe
      never does. */
  lemma PasswordAnswersFirstQuestion(events: seq<ServerEvent>, i: nat, answer: bool, successMsg: string,
                                     lower: char -> char)
    requires i < |events|
    ensures SendsAt(events, i, ClientSettings(answer, successMsg, lower)) <==>
              answer && AsksPassword(events[i]) && forall j :: 0 <= j < i ==> !AsksPassword(events[j])
  {
    var cfg := ClientSettings(answer, successMsg, lower);
    PromptedMeansAsked(events, i, cfg);
    DeliverPrompts(After(events, i, cfg), events[i], cfg);
    hide After, Deliver, IsPasswordQuestion, IsPasswordPrompt;
    forall e: ServerEvent
      ensures PromptShape(e, cfg) <==> AsksPassword(e)
    {
      if e.Challenge? && |e.questions| == 1 {
        PromptIsPasswordQuestion(e.questions[0]);
      }
    }
  }

  // ---------------------------------------------------------------------------------
  // What the client shows and answers besides.

  function Line(s: string): string {
    if s == "" then "" else s + "\n"
  }

  /** What one message adds to the display: its text, and the password question as such. */
  function Displayed(e: ServerEvent, cfg: Settings): string {
    match e
    case Banner(msg) => Line(msg)
    case Challenge(instruction, questions, _) =>
      Line(instruction) + if PromptShape(e, cfg) then Line(questions[0]) else ""
    case TransitionSeen => ""
  }

  function Transcript(events: seq<ServerEvent>, n: nat, cfg: Settings): string
    requires n <= |events|
  {
    if n == 0 then "" else Transcript(events, n - 1, cfg) + Displayed(events[n - 1], cfg)
  }

  lemma DeliverShows(tr: Trace, e: ServerEvent, cfg: Settings)
    ensures var (tr', reply) := Deliver(tr, e, cfg);
            && tr'.banner == tr.banner + Displayed(e, cfg)
            && tr'.transition == (tr.transition || e.TransitionSeen?)
            && (reply == Refused <==> e.Challenge? && e.questions != [] && reply != PasswordSent)
            && (reply == StopSucceeded <==> (e.Banner? || (e.Challenge? && e.questions == [])) && tr'.success)
  {
    assert forall s :: AddText(tr.banner, s) == tr.banner + Line(s);
    assert tr.banner + "" == tr.banner;
    if e.Challenge? {
      assert e.questions == [] ==> Displayed(e, cfg) == Line(e.instruction);
    }
  }

  /** The display is the transcript of everything the server said, the transition flag tells
      whether the service went away, every other question is refused, and the client stops
      exactly at a text after which the success is known. */
  lemma {:induction false} ClientAnswers(events: seq<ServerEvent>, n: nat, cfg: Settings)
    requires n <= |events|
    ensures After(events, n, cfg).banner == Transcript(events, n, cfg)
    ensures After(events, n, cfg).transition <==> TransitionSeen in events[..n]
    ensures n < |events| ==>
              var e, reply := events[n], Deliver(After(events, n, cfg), events[n], cfg).1;
              && (reply == Refused <==> e.Challenge? && e.questions != [] && !SendsAt(events, n, cfg))
              && (reply == StopSucceeded <==>
                    (e.Banner? || (e.Challenge? && e.questions == [])) && After(events, n + 1, cfg).success)
  {
    hide Deliver, Displayed;
    if n > 0 {
      ClientAnswers(events, n - 1, cfg);
      DeliverShows(After(events, n - 1, cfg), events[n - 1], cfg);
      assert events[..n] == events[..n - 1] + [events[n - 1]];
    }
    if n < |events| {
      DeliverShows(After(events, n, cfg), events[n], cfg);
    }
  }

  // ---------------------------------------------------------------------------------
  // The success flag.

  /** Text the server sends outside a question. */
  function ResponseText(e: ServerEvent): string {
    match e
    case Banner(msg) => msg + "\n"
    case Challenge(instruction, questions, _) => if questions == [] then instruction + "\n" else ""
    case TransitionSeen => ""
  }

  /** All responses among the events from `i` up to `k`. */
  function TextBetween(events: seq<ServerEvent>, i: nat, k: nat): string
    requires k <= |events|
    decreases k
  {
    if k <= i then "" else TextBetween(events, i, k - 1) + ResponseText(events[k - 1])
  }

  lemma {:induction false} NoAnswerNoText(events: seq<ServerEvent>, k: nat, cfg: Settings)
    requires k <= |events| && !After(events, k, cfg).answered
    ensures After(events, k, cfg).postAuth == "" && !After(events, k, cfg).success
    decreases k
  {
    if k > 0 {
      StepAt(events, k - 1, cfg);
      NoAnswerNoText(events, k - 1, cfg);
    }
  }

  lemma CollectsFrom(events: seq<ServerEvent>, i: nat, cfg: Settings)
    requires i < |events| && SendsAt(events, i, cfg)
    ensures After(events, i + 1, cfg).answered && After(events, i + 1, cfg).postAuth == ""
  {
    StepAt(events, i, cfg);
    NoAnswerNoText(events, i, cfg);
  }

  lemma CollectsAt(events: seq<ServerEvent>, k: nat, cfg: Settings)
    requires k < |events| && After(events, k, cfg).answered
    ensures After(events, k + 1, cfg).answered
    ensures After(events, k + 1, cfg).postAuth == After(events, k, cfg).postAuth + ResponseText(events[k])
  {
    StepAt(events, k, cfg);
  }

  lemma {:induction false} PostAuthIsTextAfter(events: seq<ServerEvent>, i: nat, k: nat, cfg: Settings)
    requires i < k <= |events| && SendsAt(events, i, cfg)
    ensures After(events, k, cfg).answered && After(events, k, cfg).postAuth == TextBetween(events, i + 1, k)
    decreases k
  {
    if k == i + 1 {
      CollectsFrom(events, i, cfg);
    } else {
      PostAuthIsTextAfter(events, i, k - 1, cfg);
      CollectsAt(events, k - 1, cfg);
    }
  }

  ghost predicate EndsLine(s: string) {
    s == "" || exists p :: s == p + "\n"
  }

  /** More text never takes a success back, and no text is no success. */
  ghost predicate Stable(detect: string -> bool) {
    !detect("") && forall p, q :: detect(p + "\n") ==> detect(p + "\n" + q)
  }

  lemma ClientDetectorIsStable(answer: bool, successMsg: string, lower: char -> char)
    requires IsSpace(lower('\n'))
    ensures Stable(ClientSettings(answer, successMsg, lower).detect)
  {
    NoTextNoSuccess(successMsg, lower);
    forall p, q | SuccessSeen(p + "\n", successMsg, lower)
      ensures SuccessSeen(p + "\n" + q, successMsg, lower)
    {
      SuccessStays(p, q, successMsg, lower);
    }
  }

  /** One more response keeps the sticky flag equal to a look at the whole text. */
  lemma ResponseKeepsFlag(text: string, s: string, detect: string -> bool)
    requires Stable(detect) && EndsLine(text)
    ensures EndsLine(text + s + "\n")
    ensures detect(text) ==> detect(text + s + "\n")
  {
    if text != "" {
      var p :| text == p + "\n";
      assert p + "\n" + (s + "\n") == text + s + "\n";
    }
  }

  lemma {:induction false} FlagMatchesPostAuth(events: seq<ServerEvent>, k: nat, cfg: Settings)
    requires Stable(cfg.detect) && k <= |events|
    ensures var tr := After(events, k, cfg);
            (tr.success <==> cfg.detect(tr.postAuth)) && EndsLine(tr.postAuth)
  {
    if k > 0 {
      var e := events[k - 1];
      FlagMatchesPostAuth(events, k - 1, cfg);
      ResponseKeepsFlag(After(events, k - 1, cfg).postAuth,
                        if e.Banner? then e.msg else if e.Challenge? then e.instruction else "", cfg.detect);
    }
  }

  /** Incremental detection equals batch detection: once the password went out at event `i`,
      the unlock counts as successful exactly when all the text after it, read as one, shows
      a success; what the server said before never counts. */
  lemma SuccessIsBatchSuccess(events: seq<ServerEvent>, i: nat, successMsg: string, lower: char -> char)
    requires IsSpace(lower('\n'))
    requires i < |events| && SendsAt(events, i, ClientSettings(true, successMsg, lower))
    ensures After(events, |events|, ClientSettings(true, successMsg, lower)).success <==>
            SuccessSeen(TextBetween(events, i + 1, |events|), successMsg, lower)
  {
    var cfg := ClientSettings(true, successMsg, lower);
    ClientDetectorIsStable(true, successMsg, lower);
    FlagMatchesPostAuth(events, |events|, cfg);
    PostAuthIsTextAfter(events, i, |events|, cfg);
  }

  lemma NoPasswordNoSuccess(events: seq<ServerEvent>, cfg: Settings)
    requires forall i :: 0 <= i < |events| ==> !SendsAt(events, i, cfg)
    ensures !After(events, |events|, cfg).success
  {
    PasswordSentAtMostOnce(events, cfg);
    NoAnswerNoText(events, |events|, cfg);
  }

  /** A server that answers the password with the locked banner again, however wrapped, is
      never taken for an unlocked one. */
  lemma LockedBannerAfterPasswordIsNoSuccess(events: seq<ServerEvent>, i: nat, successMsg: string, lower: char -> char)
    requires IsSpace(lower('\n'))
    requires i < |events| && SendsAt(events, i, ClientSettings(true, successMsg, lower))
    requires Normalize(TextBetween(events, i + 1, |events|), lower) == LOCKED_BANNER
    ensures !After(events, |events|, ClientSettings(true, successMsg, lower)).success
  {
    SuccessIsBatchSuccess(events, i, successMsg, lower);
    LockedBannerIsNeverSuccess(TextBetween(events, i + 1, |events|), successMsg, lower);
  }
}
