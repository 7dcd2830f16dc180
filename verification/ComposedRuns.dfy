/** The monitor running on the real adapter: every unlock is an SSH exchange delivered
    message by message, interleaved with everything else the monitor does. */
module ComposedRuns {
  import opened Shared
  import opened MonitorPolicy
  import opened MonitorEngine
  import opened MonitorRuns
  import opened MonitorSafety
  import opened SshExchange
  import opened UnlockAdapter

  /** One SSH exchange so far: the settings its client was started with, which depend on the
      device and its configuration at the time, and the server's messages. */
  datatype Exchange = Exchange(cfg: Settings, events: seq<ServerEvent>)
  {
    function Trace(): Trace {
      After(events, |events|, cfg)
    }
  }

  /** `heard` holds, for each unlock in progress that has heard something, its exchange. */
  datatype System = System(world: World, heard: map<nat, Exchange>)

  datatype Event =
    | MonitorStep(a: Action)
    | ServerSays(t: nat, cfg: Settings, e: ServerEvent, now: nat)
    | ExchangeEnds(t: nat, env: Surroundings, now: nat, save: SaveOutcome)

  predicate OwnStep(a: Action) {
    !a.Submit? && !a.Reply?
  }

  /** The exchange that hears a message: the one in progress, or a new one. */
  function Listening(heard: map<nat, Exchange>, t: nat, cfg: Settings): Exchange {
    if t in heard then heard[t] else Exchange(cfg, [])
  }

  function TraceOf(heard: map<nat, Exchange>, t: nat): Trace {
    if t in heard then heard[t].Trace() else NEW_TRACE
  }

  ghost predicate InProgress(sys: System, t: nat, now: nat) {
    At(sys.world, t) && sys.world.threads[t].InUnlock? && sys.world.clock <= now
  }

  ghost predicate Possible(sys: System, ev: Event) {
    match ev
    case MonitorStep(a) => OwnStep(a) && Enabled(sys.world, a)
    case ServerSays(t, cfg, e, now) => InProgress(sys, t, now) && cfg.answer
    case ExchangeEnds(t, env, now, save) => InProgress(sys, t, now) && (t in sys.heard ==> ReachesServer(env))
  }

  /** Messages only matter to an unlock in progress; a finished call, or a crash, drops them. */
  function StillHeard(threads: map<nat, Stage>, heard: map<nat, Exchange>): map<nat, Exchange> {
    map t | t in heard && t in threads && threads[t].InUnlock? :: heard[t]
  }

  /** Whether the client answers the message with the password. */
  predicate Answers(x: Exchange, e: ServerEvent) {
    SendsAt(x.events + [e], |x.events|, x.cfg)
  }

  ghost function Happens(sys: System, ev: Event): System
    requires sys.world.core.Valid() && Possible(sys, ev)
  {
    match ev
    case MonitorStep(a) =>
      var w := Next(sys.world, a);
      System(w, StillHeard(w.threads, sys.heard))
    case ServerSays(t, cfg, e, now) =>
      var x := Listening(sys.heard, t, cfg);
      System(if Answers(x, e) then DoSubmit(sys.world, t, now) else sys.world,
             sys.heard[t := x.(events := x.events + [e])])
    case ExchangeEnds(t, env, now, save) =>
      var (res, err) := AdapterUnlock(TraceOf(sys.heard, t), env);
      var w := DoReply(sys.world, t, res, err, now, save);
      System(w, StillHeard(w.threads, sys.heard))
  }

  /** An unlock counts as submitted exactly when its exchange sent the password, and
      messages belong to unlocks in progress. */
  ghost predicate Agrees(threads: map<nat, Stage>, heard: map<nat, Exchange>) {
    && (forall t :: t in heard ==> t in threads && threads[t].InUnlock? && heard[t].cfg.answer)
    && forall t :: t in threads && threads[t].InUnlock? ==> threads[t].submitted == TraceOf(heard, t).answered
  }

  /** The monitor's bookkeeping agrees with the exchanges. */
  ghost predicate Linked(sys: System) {
    Inv(sys.world) && Agrees(sys.world.threads, sys.heard)
  }

  ghost predicate SystemRun(first: System, events: seq<Event>, systems: seq<System>) {
    && |systems| == |events| + 1 && systems[0] == first
    && forall i :: 0 <= i < |events| ==>
         systems[i].world.core.Valid() && Possible(systems[i], events[i]) &&
         systems[i + 1] == Happens(systems[i], events[i])
  }

  lemma {:induction false} AfterPrefix(events: seq<ServerEvent>, e: ServerEvent, n: nat, cfg: Settings)
    requires n <= |events|
    ensures After(events + [e], n, cfg) == After(events, n, cfg)
  {
    if n > 0 {
      AfterPrefix(events, e, n - 1, cfg);
    }
  }

  lemma HearingIsStep(sys: System, t: nat, cfg: Settings, e: ServerEvent, now: nat)
    requires sys.world.core.Valid() && Possible(sys, ServerSays(t, cfg, e, now))
    ensures var sys' := Happens(sys, ServerSays(t, cfg, e, now));
            var x := Listening(sys.heard, t, cfg);
            && sys'.heard == sys.heard[t := x.(events := x.events + [e])]
            && sys'.world == (if Answers(x, e) then DoSubmit(sys.world, t, now) else sys.world)
            && sys'.world.threads ==
               (if Answers(x, e) then sys.world.threads[t := sys.world.threads[t].(submitted := true)]
                else sys.world.threads)
  {
    hide Answers, Listening;
  }

  lemma HearingKeepsInv(sys: System, t: nat, cfg: Settings, e: ServerEvent, now: nat)
    requires Linked(sys) && Possible(sys, ServerSays(t, cfg, e, now))
    requires Answers(Listening(sys.heard, t, cfg), e) ==> !sys.world.threads[t].submitted
    ensures Inv(Happens(sys, ServerSays(t, cfg, e, now)).world)
  {
    InvIsValid(sys.world);
    HearingIsStep(sys, t, cfg, e, now);
    hide Happens, Answers, Listening, Agrees;
    if Answers(Listening(sys.heard, t, cfg), e) {
      SubmitKeepsInv(sys.world, t, now);
    }
  }

  /** One more message to an exchange. */
  lemma ExchangeHears(x: Exchange, e: ServerEvent)
    ensures var x' := x.(events := x.events + [e]);
            && x'.Trace().answered == (x.Trace().answered || Answers(x, e))
            && (Answers(x, e) ==> !x.Trace().answered)
  {
    AfterPrefix(x.events, e, |x.events|, x.cfg);
    StepAt(x.events + [e], |x.events|, x.cfg);
    hide After, SendsAt, PromptShape;
  }

  /** One more message, and the submission mark set exactly when it is answered with the
      password. */
  lemma HearingAgrees(threads: map<nat, Stage>, heard: map<nat, Exchange>, t: nat, cfg: Settings, e: ServerEvent)
    requires Agrees(threads, heard) && t in threads && threads[t].InUnlock? && cfg.answer
    ensures var x := Listening(heard, t, cfg);
            && (Answers(x, e) ==> !threads[t].submitted)
            && Agrees(if Answers(x, e) then threads[t := threads[t].(submitted := true)] else threads,
                      heard[t := x.(events := x.events + [e])])
  {
    var x := Listening(heard, t, cfg);
    ExchangeHears(x, e);
    assert x.Trace() == TraceOf(heard, t);
    hide After, Answers;
  }

  lemma InvIsValid(w: World)
    ensures Inv(w) ==> w.core.Valid()
  {
    hide RecordsFit, StageOk, SafeLog, SlotHolders;
  }

  lemma HearingKeepsLink(sys: System, t: nat, cfg: Settings, e: ServerEvent, now: nat)
    requires Linked(sys) && Possible(sys, ServerSays(t, cfg, e, now))
    ensures Linked(Happens(sys, ServerSays(t, cfg, e, now)))
  {
    hide Inv, Agrees, Happens, Answers, Listening, DoSubmit;
    InvIsValid(sys.world);
    HearingAgrees(sys.world.threads, sys.heard, t, cfg, e);
    HearingIsStep(sys, t, cfg, e, now);
    assert Inv(Happens(sys, ServerSays(t, cfg, e, now)).world) by {
      HearingKeepsInv(sys, t, cfg, e, now);
    }
  }

  lemma EndingIsStep(sys: System, t: nat, env: Surroundings, now: nat, save: SaveOutcome)
    requires sys.world.core.Valid() && Possible(sys, ExchangeEnds(t, env, now, save))
    ensures var sys' := Happens(sys, ExchangeEnds(t, env, now, save));
            var (res, err) := AdapterUnlock(TraceOf(sys.heard, t), env);
            && sys'.world == DoReply(sys.world, t, res, err, now, save)
            && sys'.world.threads == sys.world.threads - {t}
            && sys'.heard == StillHeard(sys'.world.threads, sys.heard)
  {
    hide TraceOf, AdapterUnlock, UnlockStep;
  }

  /** The reply of a whole exchange honours the engine's contract. */
  lemma EndingHonours(heard: map<nat, Exchange>, t: nat, env: Surroundings)
    requires t in heard ==> heard[t].cfg.answer && ReachesServer(env)
    ensures var (res, err) := AdapterUnlock(TraceOf(heard, t), env);
            HonoursContract(res, err, TraceOf(heard, t).answered)
  {
    if t in heard {
      AdapterHonoursContract(heard[t].events, heard[t].cfg, env);
    }
    hide After, AdapterUnlock, ReachesServer, PreSubmissionRetry;
  }

  lemma EndingKeepsInv(sys: System, t: nat, env: Surroundings, now: nat, save: SaveOutcome)
    requires Linked(sys) && Possible(sys, ExchangeEnds(t, env, now, save))
    ensures Inv(Happens(sys, ExchangeEnds(t, env, now, save)).world)
  {
    InvIsValid(sys.world);
    hide TraceOf, AdapterUnlock, ReachesServer, HonoursContract, Happens;
    var (res, err) := AdapterUnlock(TraceOf(sys.heard, t), env);
    EndingHonours(sys.heard, t, env);
    EndingIsStep(sys, t, env, now, save);
    assert sys.world.threads[t].submitted == TraceOf(sys.heard, t).answered;
    hide Agrees;
    ReplyKeepsInv(sys.world, t, res, err, now, save);
  }

  lemma EndingAgrees(threads: map<nat, Stage>, heard: map<nat, Exchange>, t: nat)
    requires Agrees(threads, heard)
    ensures Agrees(threads - {t}, StillHeard(threads - {t}, heard))
  {
    hide After;
  }

  lemma EndingKeepsLink(sys: System, t: nat, env: Surroundings, now: nat, save: SaveOutcome)
    requires Linked(sys) && Possible(sys, ExchangeEnds(t, env, now, save))
    ensures Linked(Happens(sys, ExchangeEnds(t, env, now, save)))
  {
    InvIsValid(sys.world);
    EndingKeepsInv(sys, t, env, now, save);
    EndingIsStep(sys, t, env, now, save);
    EndingAgrees(sys.world.threads, sys.heard, t);
    hide Inv, Agrees, Possible, StillHeard, TraceOf, AdapterUnlock, DoReply, Happens;
  }

  /** The monitor's own steps start unlocks with no message heard, and change no other. */
  lemma OwnStepUnlocks(w: World, a: Action, u: nat)
    requires Inv(w) && OwnStep(a) && Enabled(w, a)
    requires u in Next(w, a).threads && Next(w, a).threads[u].InUnlock?
    ensures (u in w.threads && w.threads[u] == Next(w, a).threads[u]) ||
            (!Next(w, a).threads[u].submitted && (u !in w.threads || !w.threads[u].InUnlock?))
  {
    InvIsValid(w);
    hide Inv, AfterProbe, AfterStart, AfterFailedStart, AfterClear, SaveAll, PersistenceRelevantChanged, UnlockDue;
    hide MayStart, Loaded;
  }

  /** An unlock the monitor starts has heard nothing; the others go on as they were. */
  lemma OwnStepAgrees(threads: map<nat, Stage>, heard: map<nat, Exchange>, threads': map<nat, Stage>)
    requires Agrees(threads, heard)
    requires forall u :: u in threads' && threads'[u].InUnlock? ==>
               || (u in threads && threads[u] == threads'[u])
               || (!threads'[u].submitted && (u !in threads || !threads[u].InUnlock?))
    ensures Agrees(threads', StillHeard(threads', heard))
  {
    hide After;
  }

  lemma MonitorStepKeepsLink(sys: System, a: Action)
    requires Linked(sys) && Possible(sys, MonitorStep(a))
    ensures Linked(Happens(sys, MonitorStep(a)))
  {
    InvIsValid(sys.world);
    hide Inv, Agrees, StillHeard, Next, Enabled;
    StepKeepsInv(sys.world, a);
    var w := Next(sys.world, a);
    forall u | u in w.threads && w.threads[u].InUnlock?
      ensures || (u in sys.world.threads && sys.world.threads[u] == w.threads[u])
              || (!w.threads[u].submitted && (u !in sys.world.threads || !sys.world.threads[u].InUnlock?))
    {
      OwnStepUnlocks(sys.world, a, u);
    }
    OwnStepAgrees(sys.world.threads, sys.heard, w.threads);
  }

  lemma EventKeepsLink(sys: System, ev: Event)
    requires Linked(sys) && Possible(sys, ev)
    ensures sys.world.core.Valid() && Linked(Happens(sys, ev))
  {
    hide Agrees, Happens;
    match ev
    case MonitorStep(a) => MonitorStepKeepsLink(sys, a);
    case ServerSays(t, cfg, e, now) => HearingKeepsLink(sys, t, cfg, e, now);
    case ExchangeEnds(t, env, now, save) => EndingKeepsLink(sys, t, env, now, save);
  }

  lemma {:induction false} SystemRunKeepsLink(first: System, events: seq<Event>, systems: seq<System>, n: nat)
    requires Linked(first) && SystemRun(first, events, systems) && n < |systems|
    ensures Linked(systems[n])
  {
    hide Linked, Possible, Happens;
    if n > 0 {
      SystemRunKeepsLink(first, events, systems, n - 1);
      EventKeepsLink(systems[n - 1], events[n - 1]);
    }
  }

  /** End to end. Whatever the servers say, message by message, whatever success messages the
      devices are configured with, and however polls, clears, crashes and failed saves
      interleave: two passwords sent to one device in one lock episode have an operator clear
      between them, and the second is authorised no earlier than the cooldown after the first
      authorisation. Nothing is assumed of the adapter: a log entry is an SSH client answering
      the prompt. */
  lemma OnePasswordPerEpisode(opts: Options, auto: map<string, bool>, events: seq<Event>, systems: seq<System>,
                              n: nat, i: nat, j: nat, name: string)
    requires opts.Valid() && SystemRun(System(FirstStart(opts, auto), map[]), events, systems) && n < |systems|
    requires i < j < |systems[n].world.log|
    requires IsSubmission(systems[n].world.log[i], name) && IsSubmission(systems[n].world.log[j], name)
    ensures var log := systems[n].world.log;
            && log[i].episode <= log[j].episode
            && (log[i].episode == log[j].episode ==> exists k :: i < k < j && log[k] == Cleared(name))
            && log[i].authorizedAt + log[i].cooldown <= log[j].authorizedAt
  {
    assert SafeLog(systems[n].world.log) by {
      hide SystemRun, Inv;
      FirstStartInv(opts, auto);
      SystemRunKeepsLink(System(FirstStart(opts, auto), map[]), events, systems, n);
      SafeLogOf(systems[n]);
    }
    hide SystemRun;
    SubmissionsApart(systems[n].world.log, i, j, name);
  }

  lemma SafeLogOf(sys: System)
    requires Linked(sys)
    ensures SafeLog(sys.world.log)
  {
    hide SafeLog, LocksHeld, RecordsFit, StageOk, Agrees;
  }
}
