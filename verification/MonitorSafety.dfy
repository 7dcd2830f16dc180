/** The safety theorems of the monitor over all runs: one credential submission per lock
    episode unless an operator clears it, the cooldown between submissions, and the durable
    marker that precedes every submission. */
module MonitorSafety {
  import opened BoundedTime
  import opened Shared
  import opened MonitorPolicy
  import opened MonitorEngine
  import opened MonitorRuns

  /** What the history demands of a device: the highest episode submitted, whether that
      submission is still unacknowledged, and the earliest time of the next one. */
  datatype Ledger = Ledger(top: nat, spent: bool, notBefore: nat)

  const NO_HISTORY := Ledger(0, false, 0)

  function Max(a: nat, b: nat): nat {
    if a < b then b else a
  }

  function Post(l: Ledger, e: Entry, name: string): Ledger {
    match e
    case Submitted(n, episode, at, cooldown, _) =>
      if n == name then Ledger(episode, true, Max(l.notBefore, at + cooldown)) else l
    case Cleared(n) => if n == name then l.(spent := false) else l
    case _ => l
  }

  function LedgerOf(log: seq<Entry>, name: string): Ledger {
    if log == [] then NO_HISTORY else Post(LedgerOf(log[..|log| - 1], name), log[|log| - 1], name)
  }

  /** A new submission that respects the ledger. */
  predicate Permitted(l: Ledger, e: Entry)
    requires e.Submitted?
  {
    l.top <= e.episode && (l.spent ==> l.top < e.episode) && l.notBefore <= e.authorizedAt <= e.releasedAt
  }

  predicate SafeLog(log: seq<Entry>) {
    log == [] ||
    (var e := log[|log| - 1];
     SafeLog(log[..|log| - 1]) && (e.Submitted? ==> Permitted(LedgerOf(log[..|log| - 1], e.name), e)))
  }

  /** A record from which the policy cannot repeat a submission of the ledger. */
  predicate Fits(r: DeviceRecord, l: Ledger) {
    && l.top <= r.lockEpisode
    && l.notBefore <= r.nextUnlockEligibleAt
    && (l.spent ==> l.top < r.lockEpisode || !r.lockEpisodeOpen || r.unlockAttempted)
  }

  /** The attempt marker, as it must stand on disk while the credential may be released. */
  predicate ShowsAttempt(r: DeviceRecord, s: Stage, opts: Options)
    requires s.InUnlock? && opts.Valid()
  {
    && r.lockEpisode == s.episode && r.lockEpisodeOpen && r.unlockAttempted
    && r.state == Unlocking && !r.latched
    && r.lastUnlockAttemptAt == s.authorizedAt
    && r.nextUnlockEligibleAt == s.authorizedAt + opts.unlockCooldown as int
  }

  ghost predicate StageOk(w: World, s: Stage)
    requires w.core.Valid()
  {
    s.name in w.core.mem &&
    (s.Approved? ==>
       MayStart(w.core.mem[s.name], w.core.auto[s.name], w.clock) && w.core.mem[s.name].lockEpisodeOpen) &&
    (s.InUnlock? ==>
       var l := LedgerOf(w.log, s.name);
       && s.name in w.core.durable
       && ShowsAttempt(w.core.mem[s.name], s, w.core.opts)
       && ShowsAttempt(w.core.durable[s.name], s, w.core.opts)
       && s.authorizedAt <= w.clock
       && (!s.submitted ==> l.notBefore <= s.authorizedAt && (l.spent ==> l.top < s.episode)))
  }

  ghost predicate RecordsFit(records: map<string, DeviceRecord>, log: seq<Entry>) {
    forall name :: name in records ==> Consistent(records[name]) && Fits(records[name], LedgerOf(log, name))
  }

  ghost predicate Inv(w: World) {
    && LocksHeld(w)
    && RecordsFit(w.core.mem, w.log)
    && RecordsFit(w.core.durable, w.log)
    && (forall name :: LedgerOf(w.log, name) == NO_HISTORY || (name in w.core.mem && name in w.core.durable))
    && (forall t :: t in w.threads ==> StageOk(w, w.threads[t]))
    && SafeLog(w.log)
  }

  // ---------------------------------------------------------------------------------
  // Entries that leave every ledger alone, or one.

  predicate Neutral(e: Entry) {
    e.Observed? || e.SaveSuccess? || e.SaveFailure? || e.Restarted?
  }

  lemma AppendOne(log: seq<Entry>, e: Entry)
    ensures forall name :: LedgerOf(log + [e], name) == Post(LedgerOf(log, name), e, name)
    ensures SafeLog(log + [e]) <==> SafeLog(log) && (e.Submitted? ==> Permitted(LedgerOf(log, e.name), e))
  {
    assert (log + [e])[..|log|] == log;
  }

  lemma {:induction false} AppendNeutral(log: seq<Entry>, more: seq<Entry>)
    requires forall e :: e in more ==> Neutral(e)
    ensures forall name :: LedgerOf(log + more, name) == LedgerOf(log, name)
    ensures SafeLog(log + more) == SafeLog(log)
    decreases |more|
  {
    if more == [] {
      assert log + more == log;
    } else {
      var k := |more| - 1;
      assert more[k] in more && forall e :: e in more[..k] ==> e in more;
      AppendNeutral(log, more[..k]);
      AppendOne(log + more[..k], more[k]);
      assert log + more == log + more[..k] + [more[k]];
    }
  }

  // ---------------------------------------------------------------------------------
  // The policy steps keep a record within its ledger.

  lemma ProbeFits(r: DeviceRecord, l: Ledger, p: ProbeResult, err: OpError, now: nat)
    requires Fits(r, l) && Consistent(r)
    ensures Fits(AfterProbe(r, p, err, now), l) && Consistent(AfterProbe(r, p, err, now))
  {
    ProbeKeepsConsistent(r, p, err, now);
  }

  lemma StartFits(r: DeviceRecord, l: Ledger, opts: Options, auto: bool, now: nat)
    requires Fits(r, l) && Consistent(r) && opts.Valid() && MayStart(r, auto, now)
    ensures Fits(AfterStart(r, opts, now), l) && Consistent(AfterStart(r, opts, now))
    ensures Fits(AfterFailedStart(r, opts, now), l) && Consistent(AfterFailedStart(r, opts, now))
  {
    StartKeepsConsistent(r, opts, auto, now);
  }

  lemma UnlockFits(r: DeviceRecord, l: Ledger, s: Stage, res: UnlockResult, err: OpError, opts: Options, now: nat)
    requires Fits(r, l) && Consistent(r) && opts.Valid() && s.InUnlock? && ShowsAttempt(r, s, opts)
    requires s.authorizedAt <= now
    requires HonoursContract(res, err, s.submitted)
    requires !s.submitted ==> l.notBefore <= s.authorizedAt && (l.spent ==> l.top < s.episode)
    ensures Fits(AfterUnlock(r, res, err, opts, now), l) && Consistent(AfterUnlock(r, res, err, opts, now))
  {
    UnlockKeepsConsistent(r, res, err, opts, now);
    BackoffInRange(opts.backoffInitial as int, opts.backoffMax as int, r.unlockConnectFailures + 1);
  }

  lemma ClearFits(r: DeviceRecord, l: Ledger, now: nat)
    requires Fits(r, l) && Consistent(r)
    ensures Fits(AfterClear(r, now), l.(spent := false)) && Consistent(AfterClear(r, now))
    ensures Fits(r, l.(spent := false))
  {
    ClearKeepsConsistent(r, now);
  }

  /** The effect of a step by a call that holds the lock of `name`: the record in memory
      becomes `r`, the file is kept or holds all records with `d` for this device, and only
      this device's ledger may move. */
  ghost predicate StepOf(w: World, name: string, r: DeviceRecord, d: DeviceRecord, w': World) {
    && name in w.core.mem
    && w'.core.opts == w.core.opts && w'.core.auto == w.core.auto && w.clock <= w'.clock
    && w'.core.mem == w.core.mem[name := r]
    && (w'.core.durable == w.core.durable || w'.core.durable == w.core.mem[name := d])
    && (forall n :: n != name ==> LedgerOf(w'.log, n) == LedgerOf(w.log, n))
  }

  lemma StepKeepsRecords(w: World, name: string, r: DeviceRecord, d: DeviceRecord, w': World)
    requires Inv(w) && StepOf(w, name, r, d, w')
    requires var l := LedgerOf(w'.log, name);
             && Consistent(r) && Fits(r, l) && Consistent(d) && Fits(d, l)
             && (w'.core.durable == w.core.durable && name in w.core.durable ==> Fits(w.core.durable[name], l))
             && (l != NO_HISTORY ==> name in w'.core.durable)
    ensures RecordsFit(w'.core.mem, w'.log)
    ensures RecordsFit(w'.core.durable, w'.log)
    ensures forall n :: LedgerOf(w'.log, n) == NO_HISTORY || (n in w'.core.mem && n in w'.core.durable)
  {
    hide Consistent, Fits, LedgerOf, SafeLog;
    forall n
      ensures n in w'.core.mem ==> Consistent(w'.core.mem[n]) && Fits(w'.core.mem[n], LedgerOf(w'.log, n))
      ensures n in w'.core.durable ==> Consistent(w'.core.durable[n]) && Fits(w'.core.durable[n], LedgerOf(w'.log, n))
      ensures LedgerOf(w'.log, n) == NO_HISTORY || (n in w'.core.mem && n in w'.core.durable)
    {
      if n != name {
        assert LedgerOf(w'.log, n) == LedgerOf(w.log, n);
      }
    }
  }

  /** The operation lock gives each device to one call, so no other call's stage is disturbed. */
  lemma StepKeepsOtherStages(w: World, t: nat, r: DeviceRecord, d: DeviceRecord, w': World, u: nat)
    requires Inv(w) && t in w.threads && w.threads[t].HoldsLock()
    requires w'.core.Valid() && StepOf(w, w.threads[t].name, r, d, w')
    requires u in w.threads && u != t
    ensures StageOk(w', w.threads[u])
  {
    hide Consistent, Fits, SafeLog;
    var s := w.threads[u];
    assert StageOk(w, s);
    if s.HoldsLock() {
      assert w.holders[s.name] == u && w.holders[w.threads[t].name] == t;
    }
  }

  lemma HolderStepKeepsInv(w: World, t: nat, r: DeviceRecord, d: DeviceRecord, w': World)
    requires Inv(w) && t in w.threads && w.threads[t].HoldsLock()
    requires LocksHeld(w') && SafeLog(w'.log)
    requires StepOf(w, w.threads[t].name, r, d, w')
    requires var l := LedgerOf(w'.log, w.threads[t].name);
             && Consistent(r) && Fits(r, l) && Consistent(d) && Fits(d, l)
             && (w'.core.durable == w.core.durable && w.threads[t].name in w.core.durable ==>
                   Fits(w.core.durable[w.threads[t].name], l))
             && (l != NO_HISTORY ==> w.threads[t].name in w'.core.durable)
    requires w'.threads == w.threads - {t} ||
             (t in w'.threads && w'.threads == w.threads[t := w'.threads[t]] && StageOk(w', w'.threads[t]))
    ensures Inv(w')
  {
    hide Consistent, Fits, LedgerOf, SafeLog, MayStart;
    StepKeepsRecords(w, w.threads[t].name, r, d, w');
    forall u | u in w'.threads
      ensures StageOk(w', w'.threads[u])
    {
      if u != t {
        assert u in w.threads && w'.threads[u] == w.threads[u];
        StepKeepsOtherStages(w, t, r, d, w', u);
      }
    }
  }

  // ---------------------------------------------------------------------------------
  // Every step keeps the invariant.

  lemma ProbeIsStep(w: World, t: nat, p: ProbeResult, err: OpError, now: nat, save: SaveOutcome)
    requires w.core.Valid() && At(w, t) && w.clock <= now
    ensures var w' := DoProbe(w, t, p, err, now, save);
            var r := AfterProbe(w.core.mem[w.threads[t].name], p, err, now);
            && StepOf(w, w.threads[t].name, r, r, w')
            && (forall n :: LedgerOf(w'.log, n) == LedgerOf(w.log, n)) && SafeLog(w'.log) == SafeLog(w.log)
            && (w'.threads == w.threads - {t} ||
                (w'.threads == w.threads[t := Approved(w.threads[t].name)] &&
                 UnlockDue(r, p, err, w.core.auto[w.threads[t].name], now)))
  {
    var name := w.threads[t].name;
    var r := AfterProbe(w.core.mem[name], p, err, now);
    AppendNeutral(w.log, Sighting(name, p, err) + Saving(PersistenceRelevantChanged(w.core.mem[name], r), save));
  }

  lemma StartIsStep(w: World, t: nat, now: nat, save: SaveOutcome)
    requires w.core.Valid() && At(w, t) && w.clock <= now
    requires MayStart(w.core.mem[w.threads[t].name], w.core.auto[w.threads[t].name], now)
    ensures var w' := DoStart(w, t, now, save);
            var name := w.threads[t].name;
            var r := w.core.mem[name];
            && StepOf(w, name,
                      if save == Saved then AfterStart(r, w.core.opts, now) else AfterFailedStart(r, w.core.opts, now),
                      AfterStart(r, w.core.opts, now), w')
            && (forall n :: LedgerOf(w'.log, n) == LedgerOf(w.log, n)) && SafeLog(w'.log) == SafeLog(w.log)
            && (save == Saved ==> w'.core.durable == w'.core.mem)
            && w'.threads == if save == Saved then w.threads[t := InUnlock(name, r.lockEpisode, now, false)]
                             else w.threads - {t}
  {
    AppendNeutral(w.log, Saving(true, save));
  }

  lemma ClearIsStep(w: World, t: nat, now: nat, save: SaveOutcome)
    requires w.core.Valid() && At(w, t) && w.clock <= now
    ensures var w' := DoClear(w, t, now, save);
            var name := w.threads[t].name;
            var r := w.core.mem[name];
            var acts := Clearable(r) && save != FailedKeptOld;
            && StepOf(w, name, if acts && save == Saved then AfterClear(r, now) else r,
                      if acts then AfterClear(r, now) else r, w')
            && LedgerOf(w'.log,
                        name) == (if acts then LedgerOf(w.log, name).(spent := false) else LedgerOf(w.log, name))
            && SafeLog(w'.log) == SafeLog(w.log)
            && w'.threads == w.threads - {t}
            && (acts ==> w'.core.durable.Keys == w.core.mem.Keys)
            && (!acts ==> w'.core.durable == w.core.durable)
  {
    hide AfterClear, LedgerOf, SafeLog;
    var name := w.threads[t].name;
    var r := w.core.mem[name];
    var saving := Saving(Clearable(r), save);
    assert w.core.mem[name := r] == w.core.mem;
    if Clearable(r) && save != FailedKeptOld {
      AppendOne(w.log, Cleared(name));
      AppendNeutral(w.log + [Cleared(name)], saving);
    } else {
      AppendNeutral(w.log, saving);
      assert DoClear(w, t, now, save).log == w.log + saving;
    }
  }

  lemma SubmitIsStep(w: World, t: nat, now: nat)
    requires w.core.Valid() && At(w, t) && w.threads[t].InUnlock? && w.clock <= now
    ensures var w' := DoSubmit(w, t, now);
            var s := w.threads[t];
            var e := Submitted(s.name, s.episode, s.authorizedAt, Cooldown(w.core), now);
            && StepOf(w, s.name, w.core.mem[s.name], w.core.mem[s.name], w') && w'.core == w.core && w'.clock == now
            && LedgerOf(w'.log, s.name) == Post(LedgerOf(w.log, s.name), e, s.name)
            && (SafeLog(w'.log) <==> SafeLog(w.log) && Permitted(LedgerOf(w.log, s.name), e))
            && w'.threads == w.threads[t := s.(submitted := true)]
  {
    var s := w.threads[t];
    assert w.core.mem[s.name := w.core.mem[s.name]] == w.core.mem;
    AppendOne(w.log, Submitted(s.name, s.episode, s.authorizedAt, Cooldown(w.core), now));
  }

  lemma ReplyIsStep(w: World, t: nat, res: UnlockResult, err: OpError, now: nat, save: SaveOutcome)
    requires w.core.Valid() && At(w, t) && w.clock <= now
    ensures var w' := DoReply(w, t, res, err, now, save);
            var r := AfterUnlock(w.core.mem[w.threads[t].name], res, err, w.core.opts, now);
            && StepOf(w, w.threads[t].name, r, r, w')
            && (forall n :: LedgerOf(w'.log, n) == LedgerOf(w.log, n)) && SafeLog(w'.log) == SafeLog(w.log)
            && w'.threads == w.threads - {t}
  {
    AppendNeutral(w.log, Saving(true, save));
  }

  lemma ProbeKeepsInv(w: World, t: nat, p: ProbeResult, err: OpError, now: nat, save: SaveOutcome)
    requires Inv(w) && At(w, t) && w.threads[t].Probing? && w.clock <= now
    ensures Inv(DoProbe(w, t, p, err, now, save))
  {
    assert w.core.Valid();
    hide DoProbe, LocksHeld, LedgerOf, SafeLog;
    var name := w.threads[t].name;
    var w' := DoProbe(w, t, p, err, now, save);
    var r := AfterProbe(w.core.mem[name], p, err, now);
    ProbeKeepsLocks(w, t, p, err, now, save);
    ProbeIsStep(w, t, p, err, now, save);
    ProbeFits(w.core.mem[name], LedgerOf(w.log, name), p, err, now);
    if t in w'.threads {
      DueMayStart(w.core.mem[name], p, err, w.core.auto[name], now, now);
    }
    HolderStepKeepsInv(w, t, r, r, w');
  }

  /** A saved marker puts the call into the unlock stage with its facts in place. */
  lemma StartedStageOk(w: World, t: nat, now: nat)
    requires w.core.Valid() && At(w, t) && w.clock <= now
    requires StageOk(w, w.threads[t]) && w.threads[t].Approved?
    requires Fits(w.core.mem[w.threads[t].name], LedgerOf(w.log, w.threads[t].name))
    ensures StageOk(DoStart(w, t, now, Saved), DoStart(w, t, now, Saved).threads[t])
  {
    StartIsStep(w, t, now, Saved);
  }

  lemma StartKeepsInv(w: World, t: nat, now: nat, save: SaveOutcome)
    requires Inv(w) && At(w, t) && w.threads[t].Approved? && w.clock <= now
    ensures Inv(DoStart(w, t, now, save))
  {
    assert w.core.Valid();
    hide DoStart, LocksHeld, LedgerOf, SafeLog;
    var name := w.threads[t].name;
    var r := w.core.mem[name];
    assert StageOk(w, w.threads[t]);
    StartKeepsLocks(w, t, now, save);
    StartIsStep(w, t, now, save);
    StartFits(r, LedgerOf(w.log, name), w.core.opts, w.core.auto[name], now);
    if save == Saved {
      StartedStageOk(w, t, now);
      HolderStepKeepsInv(w, t, AfterStart(r, w.core.opts, now), AfterStart(r, w.core.opts, now),
                         DoStart(w, t, now, save));
    } else {
      HolderStepKeepsInv(w, t, AfterFailedStart(r, w.core.opts, now), AfterStart(r, w.core.opts, now),
                         DoStart(w, t, now, save));
    }
  }

  lemma SubmitKeepsInv(w: World, t: nat, now: nat)
    requires Inv(w) && At(w, t) && w.threads[t].InUnlock? && !w.threads[t].submitted && w.clock <= now
    ensures Inv(DoSubmit(w, t, now))
  {
    var s := w.threads[t];
    var r := w.core.mem[s.name];
    assert StageOk(w, s);
    SubmitKeepsLocks(w, t, now);
    SubmitIsStep(w, t, now);
    assert w.core.Valid() && Consistent(r) && Fits(r, LedgerOf(w.log, s.name));
    hide DoSubmit, LocksHeld, LedgerOf, SafeLog, Consistent, RecordsFit;
    HolderStepKeepsInv(w, t, r, r, DoSubmit(w, t, now));
  }

  /** What the invariant says about a call that may be releasing the credential. */
  lemma UnlockingFits(w: World, t: nat)
    requires Inv(w) && t in w.threads && w.threads[t].InUnlock?
    ensures var s, l := w.threads[t], LedgerOf(w.log, w.threads[t].name);
            && s.name in w.core.mem && w.core.Valid()
            && ShowsAttempt(w.core.mem[s.name], s, w.core.opts) && s.authorizedAt <= w.clock
            && (!s.submitted ==> l.notBefore <= s.authorizedAt && (l.spent ==> l.top < s.episode))
  {
    assert StageOk(w, w.threads[t]);
  }

  lemma ReplyKeepsInv(w: World, t: nat, res: UnlockResult, err: OpError, now: nat, save: SaveOutcome)
    requires Inv(w) && At(w, t) && w.threads[t].InUnlock? && w.clock <= now
    requires HonoursContract(res, err, w.threads[t].submitted)
    ensures Inv(DoReply(w, t, res, err, now, save))
  {
    var s := w.threads[t];
    DeviceFits(w, s.name);
    UnlockingFits(w, t);
    hide DoReply, LocksHeld, LedgerOf, SafeLog, AfterUnlock, Fits, Consistent, RecordsFit, ShowsAttempt, StageOk;
    hide HonoursContract;
    var r := AfterUnlock(w.core.mem[s.name], res, err, w.core.opts, now);
    ReplyKeepsLocks(w, t, res, err, now, save);
    ReplyIsStep(w, t, res, err, now, save);
    UnlockFits(w.core.mem[s.name], LedgerOf(w.log, s.name), s, res, err, w.core.opts, now);
    HolderStepKeepsInv(w, t, r, r, DoReply(w, t, res, err, now, save));
  }

  /** What the invariant says about one configured device. */
  lemma DeviceFits(w: World, name: string)
    requires Inv(w) && name in w.core.mem
    ensures var l := LedgerOf(w.log, name);
            && w.core.Valid()
            && Consistent(w.core.mem[name]) && Fits(w.core.mem[name], l)
            && (name in w.core.durable ==>
                  Fits(w.core.durable[name], l) && Fits(w.core.durable[name], l.(spent := false)))
            && (l != NO_HISTORY ==> name in w.core.durable)
  {}

  lemma ClearKeepsInv(w: World, t: nat, now: nat, save: SaveOutcome)
    requires Inv(w) && At(w, t) && w.threads[t].Clearing? && w.clock <= now
    ensures Inv(DoClear(w, t, now, save))
  {
    var name := w.threads[t].name;
    DeviceFits(w, name);
    hide DoClear, LocksHeld, LedgerOf, SafeLog, AfterClear, Consistent, RecordsFit, StageOk, Fits, Clearable;
    var r, l := w.core.mem[name], LedgerOf(w.log, name);
    ClearKeepsLocks(w, t, now, save);
    ClearIsStep(w, t, now, save);
    ClearFits(r, l, now);
    var acts := Clearable(r) && save != FailedKeptOld;
    HolderStepKeepsInv(w, t, if acts && save == Saved then AfterClear(r, now) else r,
                       if acts then AfterClear(r, now) else r,
                       DoClear(w, t, now, save));
  }

  lemma AddShape(w: World, name: string, auto: bool, now: nat, save: SaveOutcome)
    requires w.core.Valid() && name !in w.core.mem
    ensures var added := w.core.mem[name := FreshRecord(now)];
            var w' := DoAdd(w, name, auto, now, save);
            && w'.core.mem == (if save == Saved then added else w.core.mem)
            && w'.core.durable == (if save == FailedKeptOld then w.core.durable else added)
            && w'.core.Valid() && w'.core.opts == w.core.opts && w'.threads == w.threads && w'.clock == now
            && w'.core == AddStep(w.core, name, auto, now, save) && w'.log == w.log + Saving(true, save)
  {}

  /** A device without history joins, or a failed attempt to add it leaves its fresh record
      in the file. */
  lemma JoinKeepsInv(w: World, name: string, added: DeviceRecord, w': World)
    requires Inv(w) && LocksHeld(w') && name !in w.core.mem
    requires Consistent(added) && Fits(added, NO_HISTORY)
    requires w'.core.mem == w.core.mem || w'.core.mem == w.core.mem[name := added]
    requires w'.core.durable == w.core.durable || w'.core.durable == w.core.mem[name := added]
    requires forall n :: LedgerOf(w'.log, n) == LedgerOf(w.log, n)
    requires SafeLog(w'.log) && w'.threads == w.threads
    requires forall t :: t in w.threads ==> StageOk(w', w.threads[t])
    ensures Inv(w')
  {
    hide LedgerOf, SafeLog, StageOk, LocksHeld, Fits, Consistent;
    assert LedgerOf(w.log, name) == NO_HISTORY;
    forall n
      ensures n in w'.core.mem ==> Consistent(w'.core.mem[n]) && Fits(w'.core.mem[n], LedgerOf(w'.log, n))
      ensures n in w'.core.durable ==> Consistent(w'.core.durable[n]) && Fits(w'.core.durable[n], LedgerOf(w'.log, n))
      ensures LedgerOf(w'.log, n) == NO_HISTORY || (n in w'.core.mem && n in w'.core.durable)
    {
      assert LedgerOf(w'.log, n) == LedgerOf(w.log, n);
    }
  }

  lemma AddKeepsInv(w: World, name: string, auto: bool, now: nat, save: SaveOutcome)
    requires Inv(w) && name !in w.core.mem && w.clock <= now
    ensures Inv(DoAdd(w, name, auto, now, save))
  {
    var w' := DoAdd(w, name, auto, now, save);
    AddShape(w, name, auto, now, save);
    CoreChangeKeepsLocks(w, w'.core, now, w'.log);
    AddKeepsStages(w, name, auto, now, save);
    AppendNeutral(w.log, Saving(true, save));
    JoinKeepsInv(w, name, FreshRecord(now), w');
  }

  lemma AddKeepsStages(w: World, name: string, auto: bool, now: nat, save: SaveOutcome)
    requires Inv(w) && name !in w.core.mem && w.clock <= now
    ensures forall t :: t in w.threads ==> StageOk(DoAdd(w, name, auto, now, save), w.threads[t])
  {
    hide SafeLog, LedgerOf;
    var w' := DoAdd(w, name, auto, now, save);
    AppendNeutral(w.log, Saving(true, save));
    forall t | t in w.threads
      ensures StageOk(w', w.threads[t])
    {
      assert StageOk(w, w.threads[t]);
    }
  }

  lemma RestartKeepsInv(w: World, opts: Options, configured: map<string, bool>, now: nat)
    requires Inv(w) && opts.Valid() && w.core.mem.Keys <= configured.Keys && w.clock <= now
    ensures Inv(World(RestartStep(w.core, opts, configured), now, map[], map[], 0, w.log + [Restarted]))
  {
    RestartKeepsLocks(w, opts, configured, now);
    AppendNeutral(w.log, [Restarted]);
    var mem := Loaded(configured, w.core.durable);
    forall name | name in mem
      ensures Consistent(mem[name]) && Fits(mem[name], LedgerOf(w.log, name))
    {
      if name !in w.core.durable {
        assert LedgerOf(w.log, name) == NO_HISTORY;
      }
    }
  }

  /** A step that only moves one call to a stage without policy facts. */
  lemma MoveKeepsInv(w: World, t: nat, w': World)
    requires Inv(w) && LocksHeld(w')
    requires w'.core == w.core && w'.log == w.log && w'.clock == w.clock
    requires w'.threads == w.threads - {t} ||
             (t in w'.threads && w'.threads == w.threads[t := w'.threads[t]] && !w'.threads[t].Approved? &&
              !w'.threads[t].InUnlock?)
    ensures Inv(w')
  {
    hide Consistent, Fits, LedgerOf, SafeLog;
    forall u | u in w'.threads
      ensures StageOk(w', w'.threads[u])
    {
      if u != t {
        assert StageOk(w, w.threads[u]);
      }
    }
  }

  predicate Queues(a: Action) {
    a.CallPoll? || a.LockPoll? || a.TakeSlot? || a.Abandon? || a.CallClear? || a.LockClear?
  }

  lemma StepKeepsInv(w: World, a: Action)
    requires Inv(w) && Enabled(w, a)
    ensures Inv(Next(w, a))
  {
    assert w.core.Valid();
    hide LocksHeld, LedgerOf, SafeLog, RecordsFit, StageOk;
    if Queues(a) {
      StepKeepsLocks(w, a);
      MoveKeepsInv(w, a.t, Next(w, a));
    } else {
      PolicyStepKeepsInv(w, a);
    }
  }

  lemma PolicyStepKeepsInv(w: World, a: Action)
    requires Inv(w) && Enabled(w, a) && !Queues(a)
    ensures Inv(Next(w, a))
  {
    match a
    case Probe(t, p, err, now, save) => ProbeKeepsInv(w, t, p, err, now, save);
    case Start(t, now, save) => StartKeepsInv(w, t, now, save);
    case Submit(t, now) => SubmitKeepsInv(w, t, now);
    case Reply(t, res, err, now, save) => ReplyKeepsInv(w, t, res, err, now, save);
    case Clear(t, now, save) => ClearKeepsInv(w, t, now, save);
    case Add(name, auto, now, save) => AddKeepsInv(w, name, auto, now, save);
    case Restart(opts, configured, now) => RestartKeepsInv(w, opts, configured, now);
  }

  lemma {:induction false} RunKeepsInv(first: World, actions: seq<Action>, worlds: seq<World>, n: nat)
    requires Inv(first) && Run(first, actions, worlds) && n < |worlds|
    ensures Inv(worlds[n])
  {
    hide Inv, Enabled, Next;
    if n > 0 {
      RunKeepsInv(first, actions, worlds, n - 1);
      StepKeepsInv(worlds[n - 1], actions[n - 1]);
    }
  }

  /** So every world of a run from a first start satisfies the invariant. */
  lemma ReachedInv(opts: Options, auto: map<string, bool>, actions: seq<Action>, worlds: seq<World>, w: World)
    requires opts.Valid() && Run(FirstStart(opts, auto), actions, worlds) && w in worlds
    ensures Inv(w)
  {
    hide Inv, Run;
    FirstStartInv(opts, auto);
    var n :| 0 <= n < |worlds| && worlds[n] == w;
    RunKeepsInv(FirstStart(opts, auto), actions, worlds, n);
  }

  lemma FirstStartInv(opts: Options, auto: map<string, bool>)
    requires opts.Valid()
    ensures Inv(FirstStart(opts, auto))
  {
    assert SlotHolders(map[]) == {};
  }

  // ---------------------------------------------------------------------------------
  // The theorems.

  predicate IsSubmission(e: Entry, name: string) {
    e.Submitted? && e.name == name
  }

  /** The ledger after position `j` remembers every submission before it. */
  lemma {:induction false} LedgerRemembers(log: seq<Entry>, i: nat, name: string)
    requires SafeLog(log) && i < |log| && IsSubmission(log[i], name)
    ensures var l := LedgerOf(log, name);
            && log[i].episode <= l.top
            && log[i].authorizedAt + log[i].cooldown <= l.notBefore
            && ((forall k :: i < k < |log| ==> log[k] != Cleared(name)) ==> l.spent)
    decreases |log|
  {
    var n := |log| - 1;
    if i < n {
      LedgerRemembers(log[..n], i, name);
      assert (forall k :: i < k < |log| ==> log[k] != Cleared(name)) ==>
             (forall k :: i < k < n ==> log[..n][k] != Cleared(name)) && log[n] != Cleared(name);
    }
  }

  lemma {:induction false} PrefixSafe(log: seq<Entry>, j: nat)
    requires SafeLog(log) && j <= |log|
    ensures SafeLog(log[..j])
    decreases |log|
  {
    if j < |log| {
      PrefixSafe(log[..|log| - 1], j);
      assert log[..|log| - 1][..j] == log[..j];
    } else {
      assert log[..j] == log;
    }
  }

  /** What a safe log says about two submissions to the same device. */
  lemma SubmissionsApart(log: seq<Entry>, i: nat, j: nat, name: string)
    requires SafeLog(log) && i < j < |log| && IsSubmission(log[i], name) && IsSubmission(log[j], name)
    ensures log[i].episode <= log[j].episode
    ensures log[i].episode == log[j].episode ==> exists k :: i < k < j && log[k] == Cleared(name)
    ensures log[i].authorizedAt + log[i].cooldown <= log[j].authorizedAt <= log[j].releasedAt
  {
    PrefixSafe(log, j + 1);
    assert log[..j + 1][..j] == log[..j];
    PrefixSafe(log, j);
    LedgerRemembers(log[..j], i, name);
    if forall k :: i < k < j ==> log[k] != Cleared(name) {
      assert forall k :: i < k < |log[..j]| ==> log[..j][k] != Cleared(name);
    }
  }

  /** Main theorem. In every run, whatever polls, clears, failed saves, crashes and restarts
      are interleaved: two submissions to a device in one lock episode have an operator
      clear between them, episode numbers never go back, and a submission is authorised, and
      so released, no earlier than the cooldown after the authorisation of any earlier one.
      The cooldown runs from the authorisation: two releases can be closer than it by as
      much as the earlier release came late. */
  lemma OneSubmissionPerEpisode(opts: Options, auto: map<string, bool>, actions: seq<Action>, worlds: seq<World>,
                                last: World, i: nat, j: nat, name: string)
    requires opts.Valid() && Run(FirstStart(opts, auto), actions, worlds) && last in worlds
    requires i < j < |last.log| && IsSubmission(last.log[i], name) && IsSubmission(last.log[j], name)
    ensures last.log[i].episode <= last.log[j].episode
    ensures last.log[i].episode == last.log[j].episode ==> exists k :: i < k < j && last.log[k] == Cleared(name)
    ensures last.log[i].authorizedAt + last.log[i].cooldown <= last.log[j].authorizedAt <= last.log[j].releasedAt
  {
    ReachedInv(opts, auto, actions, worlds, last);
    SubmissionsApart(last.log, i, j, name);
  }

  /** In every reachable state, while an unlock is in progress the state file and the memory
      both show this open episode as attempted, with the cooldown running. */
  lemma MarkerIsDurable(opts: Options, auto: map<string, bool>, actions: seq<Action>, worlds: seq<World>, w: World,
                        t: nat)
    requires opts.Valid() && Run(FirstStart(opts, auto), actions, worlds) && w in worlds
    requires t in w.threads && w.threads[t].InUnlock?
    ensures var s := w.threads[t];
            && s.name in w.core.durable && s.name in w.core.mem && w.core.Valid()
            && ShowsAttempt(w.core.durable[s.name], s, w.core.opts)
            && ShowsAttempt(w.core.mem[s.name], s, w.core.opts)
  {
    ReachedInv(opts, auto, actions, worlds, w);
    assert StageOk(w, w.threads[t]);
  }

  /** The recheck before the marker never refuses a poll that the probe approved. */
  lemma RecheckNeverRefuses(opts: Options, auto: map<string, bool>, actions: seq<Action>, worlds: seq<World>, w: World,
                            t: nat, now: nat, save: SaveOutcome)
    requires opts.Valid() && Run(FirstStart(opts, auto), actions, worlds) && w in worlds
    requires t in w.threads && w.threads[t].Approved? && w.clock <= now
    ensures w.core.Valid() && w.threads[t].name in w.core.mem
    ensures StartStep(w.core, w.threads[t].name, now, save).1 == (save == Saved)
  {
    ReachedInv(opts, auto, actions, worlds, w);
    assert StageOk(w, w.threads[t]);
  }

  /** In every reachable state a device has at most one operation in flight, all devices
      together at most `concurrency`, and if any call is unfinished one can proceed. */
  lemma BoundedAndLive(opts: Options, auto: map<string, bool>, actions: seq<Action>, worlds: seq<World>, w: World)
    requires opts.Valid() && Run(FirstStart(opts, auto), actions, worlds) && w in worlds
    ensures forall t, u :: t in w.threads && u in w.threads && w.threads[t].HoldsLock() && w.threads[u].HoldsLock() &&
                           w.threads[t].name == w.threads[u].name
                           ==> t == u
    ensures |SlotHolders(w.threads)| <= w.core.opts.concurrency
    ensures w.threads != map[] ==> exists u :: CanProceed(w, u)
  {
    ReachedInv(opts, auto, actions, worlds, w);
    if w.threads != map[] {
      var t :| t in w.threads;
      SomeCallCanProceed(w, t);
    }
  }

  /** Every record a run can produce, in memory or on disk, is consistent; so a restart
      never finds a state it must refuse. */
  lemma RecordsConsistent(opts: Options, auto: map<string, bool>, actions: seq<Action>, worlds: seq<World>, w: World,
                          name: string)
    requires opts.Valid() && Run(FirstStart(opts, auto), actions, worlds) && w in worlds
    ensures name in w.core.mem ==> Consistent(w.core.mem[name])
    ensures name in w.core.durable ==> Consistent(w.core.durable[name])
  {
    ReachedInv(opts, auto, actions, worlds, w);
  }
}
