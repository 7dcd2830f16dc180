/** Every run of the monitor: any number of polls and operator clears interleaved over a
    fixed or growing device list, with adversarial probe results, unlock replies, failed
    saves, crashes and restarts. */
module MonitorRuns {
  import opened Shared
  import opened MonitorPolicy
  import opened MonitorEngine

  /** Where a call stands. A poll waits for the device's operation lock, then for a slot of
      the semaphore; a clear needs the operation lock only. */
  datatype Stage =
    | AwaitPoll(name: string)
    | AwaitSlot(name: string)
    | Probing(name: string)
    | Approved(name: string)
    | InUnlock(name: string, episode: nat, authorizedAt: nat, submitted: bool)
    | AwaitClear(name: string)
    | Clearing(name: string)
  {
    predicate HoldsLock() { !AwaitPoll? && !AwaitClear? }
    predicate HoldsSlot() { Probing? || Approved? || InUnlock? }
  }

  /** History. `Cleared` records an operator clear that reached the state file;
      `Observed` an error-free locked or booted observation; the last three tell how each
      attempt to save ended, and where a new process begins. */
  datatype Entry =
    | Submitted(name: string, episode: nat, authorizedAt: nat, cooldown: nat, releasedAt: nat)
    | Cleared(name: string)
    | Observed(name: string, state: State)
    | SaveSuccess
    | SaveFailure
    | Restarted

  /** `holders` maps each locked operation mutex to the call that holds it, `slots` is the
      semaphore's count. */
  datatype World = World(core: Core, clock: nat, threads: map<nat, Stage>, holders: map<string, nat>, slots: nat,
                         log: seq<Entry>)

  datatype Action =
    | CallPoll(t: nat, name: string)
    | LockPoll(t: nat)
    | TakeSlot(t: nat)
    | Abandon(t: nat)
    | Probe(t: nat, p: ProbeResult, err: OpError, now: nat, save: SaveOutcome)
    | Start(t: nat, now: nat, save: SaveOutcome)
    | Submit(t: nat, now: nat)
    | Reply(t: nat, res: UnlockResult, err: OpError, now: nat, save: SaveOutcome)
    | CallClear(t: nat, name: string)
    | LockClear(t: nat)
    | Clear(t: nat, now: nat, save: SaveOutcome)
    | Add(name: string, auto: bool, now: nat, save: SaveOutcome)
    | Restart(opts: Options, configured: map<string, bool>, now: nat)

  /** What the engine expects of its unlocker: a reply that permits a retry is given only
      when the credential was not submitted. */
  predicate HonoursContract(res: UnlockResult, err: OpError, submitted: bool) {
    PreSubmissionRetry(res, err) ==> !submitted
  }

  predicate At(w: World, t: nat) {
    t in w.threads && w.threads[t].name in w.core.mem
  }

  ghost predicate Enabled(w: World, a: Action) {
    match a
    case CallPoll(t, name) => t !in w.threads && name in w.core.mem
    case LockPoll(t) => At(w, t) && w.threads[t].AwaitPoll? && w.threads[t].name !in w.holders
    case TakeSlot(t) => At(w, t) && w.threads[t].AwaitSlot? && w.slots < w.core.opts.concurrency
    case Abandon(t) => At(w, t) && w.threads[t].AwaitSlot?
    case Probe(t, p, err, now, save) => At(w, t) && w.threads[t].Probing? && w.clock <= now
    case Start(t, now, save) => At(w, t) && w.threads[t].Approved? && w.clock <= now
    case Submit(t, now) => At(w, t) && w.threads[t].InUnlock? && !w.threads[t].submitted && w.clock <= now
    case Reply(t, res, err, now, save) =>
      At(w, t) && w.threads[t].InUnlock? && w.clock <= now && HonoursContract(res, err, w.threads[t].submitted)
    case CallClear(t, name) => t !in w.threads && name in w.core.mem
    case LockClear(t) => At(w, t) && w.threads[t].AwaitClear? && w.threads[t].name !in w.holders
    case Clear(t, now, save) => At(w, t) && w.threads[t].Clearing? && w.clock <= now
    case Add(name, auto, now, save) => name !in w.core.mem && w.clock <= now
    case Restart(opts, configured, now) => opts.Valid() && w.core.mem.Keys <= configured.Keys && w.clock <= now
  }

  /** A call returns: its locks are released. */
  function Finish(w: World, t: nat): World
    requires t in w.threads
  {
    w.(threads := w.threads - {t}, holders := w.holders - {w.threads[t].name},
       slots := if w.threads[t].HoldsSlot() && w.slots > 0 then w.slots - 1 else w.slots)
  }

  function Enter(w: World, t: nat, s: Stage): World {
    w.(threads := w.threads[t := s])
  }

  /** How an attempt to save is remembered. */
  function Saving(attempted: bool, save: SaveOutcome): seq<Entry> {
    if !attempted then [] else if save == Saved then [SaveSuccess] else [SaveFailure]
  }

  function Sighting(name: string, p: ProbeResult, err: OpError): seq<Entry> {
    if err == NoError && (p.state == Locked || p.state == Booted) then [Observed(name, p.state)] else []
  }

  function DoProbe(w: World, t: nat, p: ProbeResult, err: OpError, now: nat, save: SaveOutcome): World
    requires w.core.Valid() && At(w, t)
  {
    var name := w.threads[t].name;
    var (core, due) := ProbeStep(w.core, OnRelevantChange, name, p, err, now, save);
    var attempted := PersistenceRelevantChanged(w.core.mem[name], AfterProbe(w.core.mem[name], p, err, now));
    var w1 := if due then Enter(w, t, Approved(name)) else Finish(w, t);
    w1.(core := core, clock := now, log := w.log + (Sighting(name, p, err) + Saving(attempted, save)))
  }

  function DoStart(w: World, t: nat, now: nat, save: SaveOutcome): World
    requires w.core.Valid() && At(w, t)
  {
    var name := w.threads[t].name;
    var (core, started) := StartStep(w.core, name, now, save);
    var attempted := MayStart(w.core.mem[name], w.core.auto[name], now);
    var w1 := if started then Enter(w, t, InUnlock(name, w.core.mem[name].lockEpisode, now, false)) else Finish(w, t);
    w1.(core := core, clock := now, log := w.log + Saving(attempted, save))
  }

  function DoSubmit(w: World, t: nat, now: nat): World
    requires w.core.Valid() && At(w, t) && w.threads[t].InUnlock?
  {
    var s := w.threads[t];
    Enter(w, t, s.(submitted := true))
    .(clock := now, log := w.log + [Submitted(s.name, s.episode, s.authorizedAt, Cooldown(w.core), now)])
  }

  function DoReply(w: World, t: nat, res: UnlockResult, err: OpError, now: nat, save: SaveOutcome): World
    requires w.core.Valid() && At(w, t)
  {
    Finish(w, t).(core := UnlockStep(w.core, w.threads[t].name, res, err, now, save), clock := now,
                  log := w.log + Saving(true, save))
  }

  function DoClear(w: World, t: nat, now: nat, save: SaveOutcome): World
    requires w.core.Valid() && At(w, t)
  {
    var name := w.threads[t].name;
    var attempted := Clearable(w.core.mem[name]);
    Finish(w, t).(core := ClearStep(w.core, name, now, save), clock := now,
                  log := w.log + (if attempted && save != FailedKeptOld then [Cleared(name)]
                                  else []) + Saving(attempted, save))
  }

  function DoAdd(w: World, name: string, auto: bool, now: nat, save: SaveOutcome): World
    requires w.core.Valid() && name !in w.core.mem
  {
    w.(core := AddStep(w.core, name, auto, now, save), clock := now, log := w.log + Saving(true, save))
  }

  ghost function Next(w: World, a: Action): World
    requires w.core.Valid() && Enabled(w, a)
  {
    match a
    case CallPoll(t, name) => Enter(w, t, AwaitPoll(name))
    case LockPoll(t) => Enter(w, t, AwaitSlot(w.threads[t].name)).(holders := w.holders[w.threads[t].name := t])
    case TakeSlot(t) => Enter(w, t, Probing(w.threads[t].name)).(slots := w.slots + 1)
    case Abandon(t) => Finish(w, t)
    case Probe(t, p, err, now, save) => DoProbe(w, t, p, err, now, save)
    case Start(t, now, save) => DoStart(w, t, now, save)
    case Submit(t, now) => DoSubmit(w, t, now)
    case Reply(t, res, err, now, save) => DoReply(w, t, res, err, now, save)
    case CallClear(t, name) => Enter(w, t, AwaitClear(name))
    case LockClear(t) => Enter(w, t, Clearing(w.threads[t].name)).(holders := w.holders[w.threads[t].name := t])
    case Clear(t, now, save) => DoClear(w, t, now, save)
    case Add(name, auto, now, save) => DoAdd(w, name, auto, now, save)
    case Restart(opts, configured, now) =>
      World(RestartStep(w.core, opts, configured), now, map[], map[], 0, w.log + [Restarted])
  }

  function Cooldown(c: Core): nat
    requires c.opts.Valid()
  {
    c.opts.unlockCooldown as int
  }

  /** A first start with an empty state file. */
  function FirstStart(opts: Options, auto: map<string, bool>): World {
    World(Core(opts, auto, Loaded(auto, map[]), map[]), 0, map[], map[], 0, [])
  }

  /** A run: the worlds it passes through and the actions between them. */
  ghost predicate Run(first: World, actions: seq<Action>, worlds: seq<World>) {
    && |worlds| == |actions| + 1 && worlds[0] == first
    && forall i :: 0 <= i < |actions| ==>
         worlds[i].core.Valid() && Enabled(worlds[i], actions[i]) && worlds[i + 1] == Next(worlds[i], actions[i])
  }

  // ---------------------------------------------------------------------------------
  // Locks: one operation per device, at most `concurrency` in all.

  function SlotHolders(threads: map<nat, Stage>): set<nat> {
    set t | t in threads && threads[t].HoldsSlot()
  }

  ghost predicate LocksHeld(w: World) {
    && w.core.Valid()
    && (forall t :: t in w.threads ==> w.threads[t].name in w.core.mem)
    && (forall t :: t in w.threads && w.threads[t].HoldsLock() ==>
          w.threads[t].name in w.holders && w.holders[w.threads[t].name] == t)
    && (forall name :: name in w.holders ==>
          w.holders[name] in w.threads && w.threads[w.holders[name]].HoldsLock() &&
          w.threads[w.holders[name]].name == name)
    && w.slots == |SlotHolders(w.threads)|
    && w.slots <= w.core.opts.concurrency
  }

  lemma SlotsAfterEnter(threads: map<nat, Stage>, t: nat, s: Stage)
    ensures |SlotHolders(threads[t := s])| ==
            |SlotHolders(threads)| - (if t in SlotHolders(threads) then 1 else 0) + (if s.HoldsSlot() then 1 else 0)
  {
    var rest := SlotHolders(threads) - {t};
    assert SlotHolders(threads[t := s]) == if s.HoldsSlot() then rest + {t} else rest;
  }

  lemma SlotsAfterFinish(threads: map<nat, Stage>, t: nat)
    requires t in threads
    ensures |SlotHolders(threads - {t})| == |SlotHolders(threads)| - (if threads[t].HoldsSlot() then 1 else 0)
  {
    assert SlotHolders(threads - {t}) == SlotHolders(threads) - {t};
  }

  lemma EnterKeepsLocks(w: World, t: nat, s: Stage)
    requires LocksHeld(w) && t in w.threads && s.name == w.threads[t].name
    requires w.threads[t].HoldsLock() && s.HoldsLock() && (w.threads[t].HoldsSlot() == s.HoldsSlot())
    ensures LocksHeld(Enter(w, t, s))
  {
    SlotsAfterEnter(w.threads, t, s);
  }

  lemma FinishKeepsLocks(w: World, t: nat)
    requires LocksHeld(w) && t in w.threads && w.threads[t].HoldsLock()
    ensures LocksHeld(Finish(w, t)) && Finish(w, t).core == w.core
  {
    SlotsAfterFinish(w.threads, t);
    assert t in SlotHolders(w.threads) <==> w.threads[t].HoldsSlot();
  }

  lemma CallKeepsLocks(w: World, t: nat, s: Stage)
    requires LocksHeld(w) && t !in w.threads && s.name in w.core.mem && !s.HoldsLock()
    ensures LocksHeld(Enter(w, t, s))
  {
    SlotsAfterEnter(w.threads, t, s);
  }

  lemma LockingKeepsLocks(w: World, t: nat, s: Stage)
    requires LocksHeld(w) && t in w.threads && s.name == w.threads[t].name && s.name !in w.holders
    requires s.HoldsLock() && !s.HoldsSlot()
    ensures LocksHeld(Enter(w, t, s).(holders := w.holders[s.name := t]))
  {
    SlotsAfterEnter(w.threads, t, s);
  }

  /** Replacing the core keeps the locks as long as no configured device disappears. */
  lemma CoreChangeKeepsLocks(w: World, core: Core, clock: nat, log: seq<Entry>)
    requires LocksHeld(w) && core.Valid() && core.opts == w.core.opts && w.core.mem.Keys <= core.mem.Keys
    ensures LocksHeld(w.(core := core, clock := clock, log := log))
  {}

  lemma TakeSlotKeepsLocks(w: World, t: nat)
    requires LocksHeld(w) && Enabled(w, TakeSlot(t))
    ensures LocksHeld(Next(w, TakeSlot(t)))
  {
    SlotsAfterEnter(w.threads, t, Probing(w.threads[t].name));
  }

  lemma ProbeKeepsLocks(w: World, t: nat, p: ProbeResult, err: OpError, now: nat, save: SaveOutcome)
    requires LocksHeld(w) && At(w, t) && w.threads[t].Probing?
    ensures LocksHeld(DoProbe(w, t, p, err, now, save))
  {
    var s := Approved(w.threads[t].name);
    var w' := DoProbe(w, t, p, err, now, save);
    var w1 := if ProbeStep(w.core, OnRelevantChange, s.name, p, err, now, save).1 then Enter(w, t, s) else Finish(w, t);
    EnterKeepsLocks(w, t, s);
    FinishKeepsLocks(w, t);
    CoreChangeKeepsLocks(w1, w'.core, now, w'.log);
  }

  lemma StartKeepsLocks(w: World, t: nat, now: nat, save: SaveOutcome)
    requires LocksHeld(w) && At(w, t) && w.threads[t].Approved?
    ensures LocksHeld(DoStart(w, t, now, save))
  {
    var name := w.threads[t].name;
    var s := InUnlock(name, w.core.mem[name].lockEpisode, now, false);
    var w' := DoStart(w, t, now, save);
    var w1 := if StartStep(w.core, name, now, save).1 then Enter(w, t, s) else Finish(w, t);
    EnterKeepsLocks(w, t, s);
    FinishKeepsLocks(w, t);
    CoreChangeKeepsLocks(w1, w'.core, now, w'.log);
  }

  lemma SubmitKeepsLocks(w: World, t: nat, now: nat)
    requires LocksHeld(w) && At(w, t) && w.threads[t].InUnlock?
    ensures LocksHeld(DoSubmit(w, t, now))
  {
    var s := w.threads[t].(submitted := true);
    EnterKeepsLocks(w, t, s);
    CoreChangeKeepsLocks(Enter(w, t, s), w.core, now, DoSubmit(w, t, now).log);
  }

  lemma ReplyKeepsLocks(w: World, t: nat, res: UnlockResult, err: OpError, now: nat, save: SaveOutcome)
    requires LocksHeld(w) && At(w, t) && w.threads[t].InUnlock?
    ensures LocksHeld(DoReply(w, t, res, err, now, save))
  {
    FinishKeepsLocks(w, t);
    CoreChangeKeepsLocks(Finish(w, t), DoReply(w, t, res, err, now, save).core, now,
                         DoReply(w, t, res, err, now, save).log);
  }

  lemma ClearKeepsLocks(w: World, t: nat, now: nat, save: SaveOutcome)
    requires LocksHeld(w) && At(w, t) && w.threads[t].Clearing?
    ensures LocksHeld(DoClear(w, t, now, save))
  {
    FinishKeepsLocks(w, t);
    CoreChangeKeepsLocks(Finish(w, t), DoClear(w, t, now, save).core, now, DoClear(w, t, now, save).log);
  }

  lemma RestartKeepsLocks(w: World, opts: Options, configured: map<string, bool>, now: nat)
    requires LocksHeld(w) && Enabled(w, Restart(opts, configured, now))
    ensures LocksHeld(Next(w, Restart(opts, configured, now)))
  {
    assert SlotHolders(map[]) == {};
  }

  /** Every step keeps the locks. */
  lemma StepKeepsLocks(w: World, a: Action)
    requires LocksHeld(w) && Enabled(w, a)
    ensures LocksHeld(Next(w, a))
  {
    hide SlotHolders;
    match a
    case CallPoll(t, name) => CallKeepsLocks(w, t, AwaitPoll(name));
    case LockPoll(t) => LockingKeepsLocks(w, t, AwaitSlot(w.threads[t].name));
    case TakeSlot(t) => TakeSlotKeepsLocks(w, t);
    case Abandon(t) => FinishKeepsLocks(w, t);
    case Probe(t, p, err, now, save) => ProbeKeepsLocks(w, t, p, err, now, save);
    case Start(t, now, save) => StartKeepsLocks(w, t, now, save);
    case Submit(t, now) => SubmitKeepsLocks(w, t, now);
    case Reply(t, res, err, now, save) => ReplyKeepsLocks(w, t, res, err, now, save);
    case CallClear(t, name) => CallKeepsLocks(w, t, AwaitClear(name));
    case LockClear(t) => LockingKeepsLocks(w, t, Clearing(w.threads[t].name));
    case Clear(t, now, save) => ClearKeepsLocks(w, t, now, save);
    case Add(name, auto, now, save) =>
      CoreChangeKeepsLocks(w, DoAdd(w, name, auto, now, save).core, now, DoAdd(w, name, auto, now, save).log);
    case Restart(opts, configured, now) => RestartKeepsLocks(w, opts, configured, now);
  }

  /** Whether call `u` can take its next step now, with some outcome of its environment. */
  ghost predicate CanProceed(w: World, u: nat) {
    u in w.threads &&
    match w.threads[u]
    case AwaitPoll(_) => Enabled(w, LockPoll(u))
    case AwaitSlot(_) => Enabled(w, TakeSlot(u))
    case Probing(_) => forall p, err, save :: Enabled(w, Probe(u, p, err, w.clock, save))
    case Approved(_) => forall save :: Enabled(w, Start(u, w.clock, save))
    case InUnlock(_, _, _, _) => forall save :: Enabled(w, Reply(u, UnlockResult(true, ""), NoError, w.clock, save))
    case AwaitClear(_) => Enabled(w, LockClear(u))
    case Clearing(_) => forall save :: Enabled(w, Clear(u, w.clock, save))
  }

  /** No deadlock: while any call is unfinished, some unfinished call can take a step. */
  lemma SomeCallCanProceed(w: World, t: nat)
    requires LocksHeld(w) && t in w.threads
    ensures exists u :: CanProceed(w, u)
  {
    if u :| u in w.threads && w.threads[u].HoldsSlot() {
      assert CanProceed(w, u);
    } else if u :| u in w.threads && w.threads[u].HoldsLock() {
      assert SlotHolders(w.threads) == {};
      assert CanProceed(w, u);
    } else {
      assert w.threads[t].name !in w.holders;
      assert CanProceed(w, t);
    }
  }
}
