/** The episode counter as a fold of the observations, over all runs. */
module MonitorEpisodes {
  import opened Shared
  import opened MonitorPolicy
  import opened MonitorEngine
  import opened MonitorRuns
  import opened MonitorSafety

  /** `last` is the last locked or booted observation of a device (`NoState` if there is
      none), `rises` how often a locked one was not directly preceded by another. */
  datatype Tally = Tally(rises: nat, last: State)

  function Count(c: Tally, e: Entry, name: string): Tally {
    if e.Observed? && e.name == name
    then Tally(if e.state == Locked && c.last != Locked then c.rises + 1 else c.rises, e.state)
    else c
  }

  function TallyOf(log: seq<Entry>, name: string): Tally {
    if log == [] then Tally(0, NoState) else Count(TallyOf(log[..|log| - 1], name), log[|log| - 1], name)
  }

  lemma {:induction false} LockedCounts(log: seq<Entry>, name: string)
    ensures TallyOf(log, name).last == Locked ==> TallyOf(log, name).rises > 0
    decreases |log|
  {
    if log != [] {
      LockedCounts(log[..|log| - 1], name);
    }
  }

  /** A record never counts an episode that was not observed. */
  predicate NotAhead(r: DeviceRecord, c: Tally) {
    r.lockEpisode <= c.rises && (!r.lockEpisodeOpen && c.last == Locked ==> r.lockEpisode < c.rises)
  }

  predicate Exact(r: DeviceRecord, c: Tally) {
    r.lockEpisode == c.rises && (r.lockEpisodeOpen <==> c.last == Locked)
  }

  ghost predicate AllNotAhead(records: map<string, DeviceRecord>, log: seq<Entry>) {
    forall n :: n in records ==> NotAhead(records[n], TallyOf(log, n))
  }

  /** A record without the fields that are not worth a save. */
  function Relevant(r: DeviceRecord): DeviceRecord {
    r.(detail := "", lastError := "", lastCheckedAt := 0, consecutiveFailures := 0)
  }

  predicate Agree(a: DeviceRecord, b: DeviceRecord) {
    Relevant(a) == Relevant(b)
  }

  lemma AgreeMeansUnchanged(a: DeviceRecord, b: DeviceRecord)
    ensures Agree(a, b) <==> !PersistenceRelevantChanged(a, b)
  {}

  /** What the state file says about a device, with the default of a missing record. */
  function OnDisk(c: Core, name: string): DeviceRecord {
    if name in c.durable then c.durable[name] else FreshRecord(0)
  }

  /** The last attempt to save since the process started succeeded, if there was one. */
  predicate LastSaveOk(log: seq<Entry>) {
    log == [] ||
    match log[|log| - 1]
    case SaveSuccess => true
    case Restarted => true
    case SaveFailure => false
    case _ => LastSaveOk(log[..|log| - 1])
  }

  ghost predicate AllExact(w: World) {
    w.core.durable.Keys <= w.core.mem.Keys && forall n :: n in w.core.mem ==> Exact(w.core.mem[n], TallyOf(w.log, n))
  }

  /** Memory and file agree on everything relevant. */
  ghost predicate FileAgrees(c: Core) {
    forall n :: n in c.mem ==> Agree(OnDisk(c, n), c.mem[n])
  }

  ghost predicate CountInv(w: World) {
    && w.core.Valid()
    && AllNotAhead(w.core.mem, w.log) && AllNotAhead(w.core.durable, w.log)
    && (forall n :: n in w.core.mem || TallyOf(w.log, n) == Tally(0, NoState))
    && (SaveFailure !in w.log ==> AllExact(w))
    && (LastSaveOk(w.log) ==> FileAgrees(w.core))
  }

  predicate Quiet(e: Entry) {
    !e.SaveSuccess? && !e.SaveFailure? && !e.Restarted?
  }

  lemma {:induction false} QuietKeepsLastSave(log: seq<Entry>, more: seq<Entry>)
    requires forall e :: e in more ==> Quiet(e)
    ensures LastSaveOk(log + more) == LastSaveOk(log)
    decreases |more|
  {
    if more == [] {
      assert log + more == log;
    } else {
      var k := |more| - 1;
      assert more[k] in more && forall e :: e in more[..k] ==> e in more;
      assert (log + more)[..|log + more| - 1] == log + more[..k];
      QuietKeepsLastSave(log, more[..k]);
    }
  }

  /** After a step, the last save is the step's own, if it attempted one. */
  lemma LastSaveAfter(log: seq<Entry>, quiet: seq<Entry>, attempted: bool, save: SaveOutcome)
    requires forall e :: e in quiet ==> Quiet(e)
    ensures var log' := log + (quiet + Saving(attempted, save));
            && LastSaveOk(log') == (if attempted then save == Saved else LastSaveOk(log))
            && (SaveFailure !in log' ==> SaveFailure !in log)
  {
    var log' := log + (quiet + Saving(attempted, save));
    if attempted {
      assert log'[|log'| - 1] == Saving(attempted, save)[0];
    } else {
      assert quiet + Saving(attempted, save) == quiet;
      QuietKeepsLastSave(log, quiet);
    }
  }

  lemma {:induction false} NoFailureMeansOk(log: seq<Entry>)
    requires SaveFailure !in log
    ensures LastSaveOk(log)
    decreases |log|
  {
    if log != [] {
      assert log[|log| - 1] in log && forall e :: e in log[..|log| - 1] ==> e in log;
      NoFailureMeansOk(log[..|log| - 1]);
    }
  }

  predicate Unseen(e: Entry) {
    !e.Observed?
  }

  lemma CountOne(log: seq<Entry>, e: Entry)
    ensures forall n :: TallyOf(log + [e], n) == Count(TallyOf(log, n), e, n)
  {
    assert (log + [e])[..|log|] == log;
  }

  lemma {:induction false} CountUnseen(log: seq<Entry>, more: seq<Entry>)
    requires forall e :: e in more ==> Unseen(e)
    ensures forall n :: TallyOf(log + more, n) == TallyOf(log, n)
    decreases |more|
  {
    if more == [] {
      assert log + more == log;
    } else {
      var k := |more| - 1;
      assert more[k] in more && forall e :: e in more[..k] ==> e in more;
      CountUnseen(log, more[..k]);
      CountOne(log + more[..k], more[k]);
      assert log + more == log + more[..k] + [more[k]];
    }
  }

  // ---------------------------------------------------------------------------------
  // Single steps.

  /** The tally after a probe. */
  function Seen(c: Tally, p: ProbeResult, err: OpError): Tally {
    if err == NoError && (p.state == Locked || p.state == Booted)
    then Tally(if p.state == Locked && c.last != Locked then c.rises + 1 else c.rises, p.state)
    else c
  }

  lemma ProbeCounts(r: DeviceRecord, p: ProbeResult, err: OpError, now: nat, c: Tally)
    ensures NotAhead(r, c) ==> NotAhead(AfterProbe(r, p, err, now), Seen(c, p, err)) && NotAhead(r, Seen(c, p, err))
    ensures Exact(r, c) ==> Exact(AfterProbe(r, p, err, now), Seen(c, p, err))
  {}

  /** One call's step that changes its device's record and perhaps the file. */
  ghost predicate RecordStep(w: World, name: string, r: DeviceRecord, d: DeviceRecord, w': World) {
    && name in w.core.mem && w'.core.opts == w.core.opts && w'.core.auto == w.core.auto
    && w'.core.mem == w.core.mem[name := r]
    && (w'.core.durable == w.core.durable || w'.core.durable == w.core.mem[name := d])
    && (forall n :: n != name ==> TallyOf(w'.log, n) == TallyOf(w.log, n))
  }

  /** The step either wrote every record, or attempted no save and changed nothing relevant. */
  ghost predicate StepAgrees(w: World, name: string, r: DeviceRecord, w': World) {
    LastSaveOk(w'.log) ==>
      || w'.core.durable == w'.core.mem
      || (LastSaveOk(w.log) && w'.core.durable == w.core.durable && name in w.core.mem && Agree(r, w.core.mem[name]))
  }

  lemma RecordStepCounts(w: World, name: string, r: DeviceRecord, d: DeviceRecord, w': World)
    requires CountInv(w) && RecordStep(w, name, r, d, w')
    requires NotAhead(r, TallyOf(w'.log, name)) && NotAhead(d, TallyOf(w'.log, name))
    requires name in w.core.durable ==> NotAhead(w.core.durable[name], TallyOf(w'.log, name))
    requires SaveFailure !in w'.log ==> SaveFailure !in w.log && Exact(r, TallyOf(w'.log, name))
    requires StepAgrees(w, name, r, w')
    ensures CountInv(w')
  {
    hide TallyOf, Relevant, LastSaveOk, Exact;
    forall n
      ensures n in w'.core.mem ==> NotAhead(w'.core.mem[n], TallyOf(w'.log, n))
      ensures n in w'.core.durable ==> NotAhead(w'.core.durable[n], TallyOf(w'.log, n))
    {
      assert n != name ==> TallyOf(w'.log, n) == TallyOf(w.log, n);
    }
    RecordStepAgrees(w, name, r, d, w');
  }

  lemma RecordStepAgrees(w: World, name: string, r: DeviceRecord, d: DeviceRecord, w': World)
    requires LastSaveOk(w.log) ==> FileAgrees(w.core)
    requires RecordStep(w, name, r, d, w') && StepAgrees(w, name, r, w')
    ensures LastSaveOk(w'.log) ==> FileAgrees(w'.core)
  {
    hide TallyOf, Relevant, LastSaveOk;
    if LastSaveOk(w'.log) && w'.core.durable != w'.core.mem {
      assert Agree(OnDisk(w.core, name), w.core.mem[name]);
      AgreeTransitive(OnDisk(w.core, name), w.core.mem[name], r);
      assert forall n :: n in w.core.mem ==> OnDisk(w'.core, n) == OnDisk(w.core, n);
    }
  }

  lemma AgreeTransitive(a: DeviceRecord, b: DeviceRecord, c: DeviceRecord)
    requires Agree(a, b) && Agree(c, b)
    ensures Agree(a, c)
  {}

  lemma SightingTallies(log: seq<Entry>, name: string, p: ProbeResult, err: OpError, failure: seq<Entry>)
    requires forall e :: e in failure ==> Unseen(e)
    ensures forall n :: TallyOf(log + (Sighting(name, p, err) + failure), n) ==
                        if n == name then Seen(TallyOf(log, n), p, err) else TallyOf(log, n)
  {
    var sighting := Sighting(name, p, err);
    if sighting != [] {
      CountOne(log, sighting[0]);
    } else {
      CountUnseen(log, sighting);
    }
    CountUnseen(log + sighting, failure);
    assert log + (sighting + failure) == log + sighting + failure;
  }

  lemma ProbeTallies(w: World, t: nat, p: ProbeResult, err: OpError, now: nat, save: SaveOutcome)
    requires w.core.Valid() && At(w, t)
    ensures var name := w.threads[t].name;
            var r := AfterProbe(w.core.mem[name], p, err, now);
            var w' := DoProbe(w, t, p, err, now, save);
            && RecordStep(w, name, r, r, w') && TallyOf(w'.log, name) == Seen(TallyOf(w.log, name), p, err)
            && (SaveFailure !in w'.log ==> SaveFailure !in w.log)
            && StepAgrees(w, name, r, w')
  {
    var name := w.threads[t].name;
    var r := AfterProbe(w.core.mem[name], p, err, now);
    hide AfterProbe, TallyOf, LastSaveOk, Relevant;
    var changed := PersistenceRelevantChanged(w.core.mem[name], r);
    AgreeMeansUnchanged(w.core.mem[name], r);
    AgreeSymmetric(w.core.mem[name], r);
    hide PersistenceRelevantChanged, Agree;
    SightingTallies(w.log, name, p, err, Saving(changed, save));
    LastSaveAfter(w.log, Sighting(name, p, err), changed, save);
  }

  lemma AgreeSymmetric(a: DeviceRecord, b: DeviceRecord)
    ensures Agree(a, b) <==> Agree(b, a)
  {}

  lemma ProbeKeepsCount(w: World, t: nat, p: ProbeResult, err: OpError, now: nat, save: SaveOutcome)
    requires CountInv(w) && At(w, t)
    ensures CountInv(DoProbe(w, t, p, err, now, save))
  {
    var name := w.threads[t].name;
    ProbeTallies(w, t, p, err, now, save);
    ProbeCounts(w.core.mem[name], p, err, now, TallyOf(w.log, name));
    if name in w.core.durable {
      ProbeCounts(w.core.durable[name], p, err, now, TallyOf(w.log, name));
    }
    var r := AfterProbe(w.core.mem[name], p, err, now);
    RecordStepCounts(w, name, r, r, DoProbe(w, t, p, err, now, save));
  }

  lemma StartTallies(w: World, t: nat, now: nat, save: SaveOutcome)
    requires w.core.Valid() && At(w, t)
    ensures var name := w.threads[t].name;
            var r := w.core.mem[name];
            var w' := DoStart(w, t, now, save);
            var started := MayStart(r, w.core.auto[name], now);
            && RecordStep(w, name, w'.core.mem[name], if started then AfterStart(r, w.core.opts, now) else r, w')
            && TallyOf(w'.log, name) == TallyOf(w.log, name)
            && w'.core.mem[name].lockEpisode == r.lockEpisode && w'.core.mem[name].lockEpisodeOpen == r.lockEpisodeOpen
            && (SaveFailure !in w'.log ==> SaveFailure !in w.log) && StepAgrees(w, name, w'.core.mem[name], w')
  {
    var name := w.threads[t].name;
    var r := w.core.mem[name];
    var attempted := MayStart(r, w.core.auto[name], now);
    hide LastSaveOk, TallyOf, Relevant;
    CountUnseen(w.log, Saving(attempted, save));
    LastSaveAfter(w.log, [], attempted, save);
    assert [] + Saving(attempted, save) == Saving(attempted, save);
    assert w.core.mem[name := r] == w.core.mem;
  }

  lemma StartKeepsCount(w: World, t: nat, now: nat, save: SaveOutcome)
    requires CountInv(w) && At(w, t)
    ensures CountInv(DoStart(w, t, now, save))
  {
    var name := w.threads[t].name;
    var r := w.core.mem[name];
    var d := if MayStart(r, w.core.auto[name], now) then AfterStart(r, w.core.opts, now) else r;
    StartTallies(w, t, now, save);
    hide DoStart, TallyOf, MayStart;
    RecordStepCounts(w, name, DoStart(w, t, now, save).core.mem[name], d, DoStart(w, t, now, save));
  }

  lemma SubmitKeepsCount(w: World, t: nat, now: nat)
    requires CountInv(w) && At(w, t) && w.threads[t].InUnlock?
    ensures CountInv(DoSubmit(w, t, now))
  {
    var name := w.threads[t].name;
    var w' := DoSubmit(w, t, now);
    var more := w'.log[|w.log|..];
    assert w'.log == w.log + more;
    CountUnseen(w.log, more);
    QuietKeepsLastSave(w.log, more);
    hide LastSaveOk, TallyOf, Relevant;
    assert w.core.mem[name := w.core.mem[name]] == w.core.mem;
    RecordStepCounts(w, name, w.core.mem[name], w.core.mem[name], w');
  }

  lemma ReplyTallies(w: World, t: nat, res: UnlockResult, err: OpError, now: nat, save: SaveOutcome)
    requires w.core.Valid() && At(w, t)
    ensures var name := w.threads[t].name;
            var r := AfterUnlock(w.core.mem[name], res, err, w.core.opts, now);
            var w' := DoReply(w, t, res, err, now, save);
            && RecordStep(w, name, r, r, w') && TallyOf(w'.log, name) == TallyOf(w.log, name)
            && r.lockEpisode == w.core.mem[name].lockEpisode && r.lockEpisodeOpen == w.core.mem[name].lockEpisodeOpen
            && (SaveFailure !in w'.log ==> SaveFailure !in w.log) && StepAgrees(w, name, r, w')
  {
    hide LastSaveOk, TallyOf, Relevant;
    CountUnseen(w.log, Saving(true, save));
    LastSaveAfter(w.log, [], true, save);
    assert [] + Saving(true, save) == Saving(true, save);
  }

  lemma ReplyKeepsCount(w: World, t: nat, res: UnlockResult, err: OpError, now: nat, save: SaveOutcome)
    requires CountInv(w) && At(w, t)
    ensures CountInv(DoReply(w, t, res, err, now, save))
  {
    hide DoReply, AfterUnlock, TallyOf;
    var name := w.threads[t].name;
    var r := AfterUnlock(w.core.mem[name], res, err, w.core.opts, now);
    ReplyTallies(w, t, res, err, now, save);
    RecordStepCounts(w, name, r, r, DoReply(w, t, res, err, now, save));
  }

  lemma ClearTallies(w: World, t: nat, now: nat, save: SaveOutcome)
    requires w.core.Valid() && At(w, t)
    ensures var name := w.threads[t].name;
            var r := w.core.mem[name];
            var w' := DoClear(w, t, now, save);
            && RecordStep(w, name, w'.core.mem[name], if Clearable(r) then AfterClear(r, now) else r, w')
            && (w'.core.mem[name] == r || w'.core.mem[name] == AfterClear(r, now))
            && TallyOf(w'.log, name) == TallyOf(w.log, name)
            && (SaveFailure !in w'.log ==> SaveFailure !in w.log) && StepAgrees(w, name, w'.core.mem[name], w')
  {
    var name := w.threads[t].name;
    var r := w.core.mem[name];
    var cleared := if Clearable(r) && save != FailedKeptOld then [Cleared(name)] else [];
    var more := cleared + Saving(Clearable(r), save);
    hide LastSaveOk, TallyOf, Relevant;
    CountUnseen(w.log, more);
    LastSaveAfter(w.log, cleared, Clearable(r), save);
    assert DoClear(w, t, now, save).log == w.log + more;
    assert w.core.mem[name := r] == w.core.mem;
  }

  lemma ClearKeepsCount(w: World, t: nat, now: nat, save: SaveOutcome)
    requires CountInv(w) && At(w, t)
    ensures CountInv(DoClear(w, t, now, save))
  {
    var name := w.threads[t].name;
    var r := w.core.mem[name];
    var w' := DoClear(w, t, now, save);
    ClearTallies(w, t, now, save);
    RecordStepCounts(w, name, w'.core.mem[name], if Clearable(r) then AfterClear(r, now) else r, w');
  }

  lemma JoinCounts(w: World, name: string, added: DeviceRecord, w': World)
    requires CountInv(w) && w'.core.Valid() && name !in w.core.mem && NotAhead(added, Tally(0, NoState))
    requires Exact(added, Tally(0, NoState))
    requires w'.core.mem == w.core.mem || w'.core.mem == w.core.mem[name := added]
    requires w'.core.durable == w.core.durable || w'.core.durable == w.core.mem[name := added]
    requires forall n :: TallyOf(w'.log, n) == TallyOf(w.log, n)
    requires SaveFailure !in w'.log ==> SaveFailure !in w.log && w'.core.mem == w'.core.durable
    requires LastSaveOk(w'.log) ==> w'.core.mem == w'.core.durable
    ensures CountInv(w')
  {
    hide TallyOf, NotAhead, Exact, Relevant, LastSaveOk;
    assert TallyOf(w.log, name) == Tally(0, NoState);
    forall n
      ensures n in w'.core.mem ==> NotAhead(w'.core.mem[n], TallyOf(w'.log, n))
      ensures n in w'.core.durable ==> NotAhead(w'.core.durable[n], TallyOf(w'.log, n))
      ensures n in w'.core.mem || TallyOf(w'.log, n) == Tally(0, NoState)
      ensures SaveFailure !in w'.log && n in w'.core.mem ==> Exact(w'.core.mem[n], TallyOf(w'.log, n))
    {
      assert TallyOf(w'.log, n) == TallyOf(w.log, n);
    }
  }

  lemma AddKeepsCount(w: World, name: string, auto: bool, now: nat, save: SaveOutcome)
    requires CountInv(w) && name !in w.core.mem
    ensures CountInv(DoAdd(w, name, auto, now, save))
  {
    hide LastSaveOk, TallyOf;
    CountUnseen(w.log, Saving(true, save));
    LastSaveAfter(w.log, [], true, save);
    assert [] + Saving(true, save) == Saving(true, save);
    AddShape(w, name, auto, now, save);
    var w' := DoAdd(w, name, auto, now, save);
    if save != Saved {
      assert w'.log[|w.log|] == SaveFailure;
    }
    JoinCounts(w, name, FreshRecord(now), w');
  }

  lemma LoadedCounts(w: World, configured: map<string, bool>, n: string)
    requires CountInv(w) && w.core.mem.Keys <= configured.Keys && n in configured
    ensures NotAhead(OnDisk(w.core, n), TallyOf(w.log, n))
    ensures SaveFailure !in w.log ==> Exact(OnDisk(w.core, n), TallyOf(w.log, n))
  {
    LockedCounts(w.log, n);
    if SaveFailure !in w.log {
      NoFailureMeansOk(w.log);
    }
    hide LastSaveOk, TallyOf;
    assert n in w.core.mem && SaveFailure !in w.log ==> Agree(OnDisk(w.core, n), w.core.mem[n]);
  }

  lemma RestartKeepsCount(w: World, opts: Options, configured: map<string, bool>, now: nat)
    requires CountInv(w) && opts.Valid() && w.core.mem.Keys <= configured.Keys
    ensures CountInv(World(RestartStep(w.core, opts, configured), now, map[], map[], 0, w.log + [Restarted]))
  {
    CountUnseen(w.log, [Restarted]);
    hide TallyOf, Relevant, LastSaveOk;
    var mem := Loaded(configured, w.core.durable);
    forall n | n in mem
      ensures mem[n] == OnDisk(w.core, n)
      ensures NotAhead(mem[n], TallyOf(w.log, n))
      ensures SaveFailure !in w.log ==> Exact(mem[n], TallyOf(w.log, n))
    {
      LoadedCounts(w, configured, n);
    }
  }

  lemma StepKeepsCount(w: World, a: Action)
    requires CountInv(w) && Enabled(w, a)
    ensures CountInv(Next(w, a))
  {
    match a
    case Probe(t, p, err, now, save) => ProbeKeepsCount(w, t, p, err, now, save);
    case Start(t, now, save) => StartKeepsCount(w, t, now, save);
    case Submit(t, now) => SubmitKeepsCount(w, t, now);
    case Reply(t, res, err, now, save) => ReplyKeepsCount(w, t, res, err, now, save);
    case Clear(t, now, save) => ClearKeepsCount(w, t, now, save);
    case Add(name, auto, now, save) => AddKeepsCount(w, name, auto, now, save);
    case Restart(opts, configured, now) => RestartKeepsCount(w, opts, configured, now);
    case _ =>
  }

  lemma {:induction false} RunKeepsCount(first: World, actions: seq<Action>, worlds: seq<World>, n: nat)
    requires CountInv(first) && Run(first, actions, worlds) && n < |worlds|
    ensures CountInv(worlds[n])
  {
    hide CountInv, Enabled, Next;
    if n > 0 {
      RunKeepsCount(first, actions, worlds, n - 1);
      StepKeepsCount(worlds[n - 1], actions[n - 1]);
    }
  }

  lemma FirstStartCounts(opts: Options, auto: map<string, bool>)
    requires opts.Valid()
    ensures CountInv(FirstStart(opts, auto))
  {}

  lemma ReachedCounts(opts: Options, auto: map<string, bool>, actions: seq<Action>, worlds: seq<World>, w: World)
    requires opts.Valid() && Run(FirstStart(opts, auto), actions, worlds) && w in worlds
    ensures CountInv(w)
  {
    hide CountInv, Run;
    FirstStartCounts(opts, auto);
    var n :| 0 <= n < |worlds| && worlds[n] == w;
    RunKeepsCount(FirstStart(opts, auto), actions, worlds, n);
  }

  /** In every run the counter never exceeds the number of rises; without a failed save it
      is exactly that number and the episode is open exactly while the last conclusive view
      is locked, whatever unlocks, latches, clears, crashes and restarts are interleaved. */
  lemma EpisodeCounterIsFold(opts: Options, auto: map<string, bool>, actions: seq<Action>, worlds: seq<World>,
                             last: World, name: string)
    requires opts.Valid() && Run(FirstStart(opts, auto), actions, worlds) && last in worlds && name in last.core.mem
    ensures last.core.mem[name].lockEpisode <= TallyOf(last.log, name).rises
    ensures SaveFailure !in last.log ==>
              && last.core.mem[name].lockEpisode == TallyOf(last.log, name).rises
              && (last.core.mem[name].lockEpisodeOpen <==> TallyOf(last.log, name).last == Locked)
  {
    ReachedCounts(opts, auto, actions, worlds, last);
  }

  /** The file and the memory agree between steps on everything that decides an unlock,
      though most polls never write the file, as long as the last attempt to save since the
      process started succeeded. Earlier failures do not matter: each save writes all records. */
  lemma FileAgreesWithMemory(opts: Options, auto: map<string, bool>, actions: seq<Action>, worlds: seq<World>,
                             last: World, name: string)
    requires opts.Valid() && Run(FirstStart(opts, auto), actions, worlds) && last in worlds && name in last.core.mem
    requires LastSaveOk(last.log)
    ensures Agree(OnDisk(last.core, name), last.core.mem[name])
  {
    hide LastSaveOk, TallyOf, Run;
    ReachedCounts(opts, auto, actions, worlds, last);
  }
}
