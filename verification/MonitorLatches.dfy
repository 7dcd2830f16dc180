/** What a latch holds back: after a credential or host-key failure no password goes to the
    device before an operator clears it, over every run; and what a clear gives back. */
module MonitorLatches {
  import opened Shared
  import opened MonitorPolicy
  import opened MonitorEngine
  import opened MonitorRuns
  import opened MonitorSafety

  predicate InMemory(w: World, name: string) {
    name in w.core.mem && w.core.mem[name].latched
  }

  predicate OnFile(w: World, name: string) {
    name in w.core.durable && w.core.durable[name].latched
  }

  // ---------------------------------------------------------------------------------
  // Setting a latch.

  /** A reply with such a failure latches the device under that kind, and every attempt to
      save that reaches the file puts the latch there. */
  lemma ReplyLatches(w: World, t: nat, res: UnlockResult, err: OpError, now: nat, save: SaveOutcome)
    requires Inv(w) && Enabled(w, Reply(t, res, err, now, save)) && NeedsOperator(err)
    ensures var w', name := Next(w, Reply(t, res, err, now, save)), w.threads[t].name;
            && InMemory(w', name)
            && w'.core.mem[name].latchKind == err.kind
            && w'.core.mem[name].state == (if err.kind == FailureCredential then CredentialFailed else Error)
            && (save != FailedKeptOld ==> OnFile(w', name))
  {}

  /** So does a probe. Its latch is in the file afterwards if the save it attempts reaches it,
      or if nothing relevant changed and the file had a latch before. */
  lemma ProbeLatches(w: World, t: nat, p: ProbeResult, err: OpError, now: nat, save: SaveOutcome)
    requires Inv(w) && Enabled(w, Probe(t, p, err, now, save)) && NeedsOperator(err)
    ensures var w', name := Next(w, Probe(t, p, err, now, save)), w.threads[t].name;
            && InMemory(w', name)
            && w'.core.mem[name].latchKind == err.kind
            && w'.core.mem[name].state == (if err.kind == FailureCredential then CredentialFailed else Error)
            && (OnFile(w', name) <==> OnFile(w, name) || (w'.log != w.log && save != FailedKeptOld))
  {
    assert w.core.Valid();
    hide Inv, PersistenceRelevantChanged, UnlockDue;
    ProbeByCase(w.core.mem[w.threads[t].name], p, err, now);
    hide AfterProbe;
    ProbeFiles(w, t, p, err, now, save);
  }

  /** Where a probe with an error leaves its record. */
  lemma ProbeFiles(w: World, t: nat, p: ProbeResult, err: OpError, now: nat, save: SaveOutcome)
    requires w.core.Valid() && At(w, t) && err != NoError
    ensures var w', name := DoProbe(w, t, p, err, now, save), w.threads[t].name;
            var r := AfterProbe(w.core.mem[name], p, err, now);
            && w'.core.mem == w.core.mem[name := r]
            && (if w'.log != w.log && save != FailedKeptOld then w'.core.durable == w'.core.mem
                else w'.core.durable == w.core.durable)
            && (w'.log == w.log ==> !PersistenceRelevantChanged(w.core.mem[name], r))
  {
    hide AfterProbe, PersistenceRelevantChanged, UnlockDue;
    var name := w.threads[t].name;
    var attempted := PersistenceRelevantChanged(w.core.mem[name], AfterProbe(w.core.mem[name], p, err, now));
    assert DoProbe(w, t, p, err, now, save).log == w.log + ([] + Saving(attempted, save));
    assert |w.log + ([] + Saving(attempted, save))| == |w.log| + |Saving(attempted, save)|;
  }

  // ---------------------------------------------------------------------------------
  // Holding it.

  function Added(w: World, w': World): seq<Entry>
    requires w.log <= w'.log
  {
    w'.log[|w.log|..]
  }

  /** One step while a device is latched: nothing is submitted to it, and only a clear or a
      restart can end the latch; a latch in the file ends by a clear alone. */
  ghost predicate Held(w: World, w': World, name: string) {
    && w.log <= w'.log
    && (forall e :: e in Added(w, w') ==> !IsSubmission(e, name))
    && (Cleared(name) !in Added(w, w') ==>
          && (InMemory(w', name) || (Restarted in Added(w, w') && !OnFile(w, name)))
          && (OnFile(w, name) ==> OnFile(w', name)))
  }

  /** No poll is about to unlock the device. */
  predicate Idle(w: World, name: string) {
    forall t :: t in w.threads && w.threads[t].name == name ==> !w.threads[t].Approved? && !w.threads[t].InUnlock?
  }

  lemma LatchedIsIdle(w: World, name: string)
    requires Inv(w) && InMemory(w, name)
    ensures Idle(w, name)
  {
    assert w.core.Valid();
    hide LocksHeld, SafeLog, RecordsFit;
    forall t | t in w.threads && w.threads[t].name == name
      ensures !w.threads[t].Approved? && !w.threads[t].InUnlock?
    {
      assert StageOk(w, w.threads[t]);
    }
  }

  lemma ProbeHolds(w: World, t: nat, p: ProbeResult, err: OpError, now: nat, save: SaveOutcome, name: string)
    requires w.core.Valid() && At(w, t) && InMemory(w, name)
    ensures Held(w, DoProbe(w, t, p, err, now, save), name)
  {
    hide PersistenceRelevantChanged, UnlockDue, StateForLatch, ShownState, Conclusive;
    var s := w.threads[t].name;
    var attempted := PersistenceRelevantChanged(w.core.mem[s], AfterProbe(w.core.mem[s], p, err, now));
    assert Added(w, DoProbe(w, t, p, err, now, save)) == Sighting(s, p, err) + Saving(attempted, save);
  }

  lemma StartHolds(w: World, t: nat, now: nat, save: SaveOutcome, name: string)
    requires w.core.Valid() && At(w, t) && w.threads[t].Approved? && InMemory(w, name) && Idle(w, name)
    ensures Held(w, DoStart(w, t, now, save), name)
  {
    hide MayStart;
    var s := w.threads[t].name;
    assert s != name;
    assert Added(w, DoStart(w, t, now, save)) == Saving(MayStart(w.core.mem[s], w.core.auto[s], now), save);
  }

  lemma SubmitHolds(w: World, t: nat, now: nat, name: string)
    requires w.core.Valid() && At(w, t) && w.threads[t].InUnlock? && InMemory(w, name) && Idle(w, name)
    ensures Held(w, DoSubmit(w, t, now), name)
  {
    assert w.threads[t].name != name;
  }

  lemma ReplyHolds(w: World, t: nat, res: UnlockResult, err: OpError, now: nat, save: SaveOutcome, name: string)
    requires w.core.Valid() && At(w, t) && w.threads[t].InUnlock? && InMemory(w, name) && Idle(w, name)
    ensures Held(w, DoReply(w, t, res, err, now, save), name)
  {
    hide AfterUnlock;
    assert w.threads[t].name != name;
    assert Added(w, DoReply(w, t, res, err, now, save)) == Saving(true, save);
  }

  /** What a clear leaves of a device that it does not clear. */
  lemma ClearLeaves(c: Core, s: string, now: nat, save: SaveOutcome, n: string)
    requires c.Valid() && s in c.mem && n in c.mem && (n != s || save == FailedKeptOld)
    ensures var c' := ClearStep(c, s, now, save);
            && n in c'.mem && c'.mem[n] == c.mem[n]
            && (c'.durable == c.durable || (n in c'.durable && c'.durable[n] == c.mem[n]))
  {
    hide AfterClear, Clearable;
  }

  lemma ClearAdds(w: World, t: nat, now: nat, save: SaveOutcome)
    requires w.core.Valid() && At(w, t)
    ensures var w', s := DoClear(w, t, now, save), w.threads[t].name;
            && w.log <= w'.log && (forall e :: e in Added(w, w') ==> !e.Submitted?)
            && (Clearable(w.core.mem[s]) && save != FailedKeptOld ==> Cleared(s) in Added(w, w'))
  {
    hide AfterClear, Clearable;
    var s := w.threads[t].name;
    var saving := Saving(Clearable(w.core.mem[s]), save);
    if Clearable(w.core.mem[s]) && save != FailedKeptOld {
      assert Added(w, DoClear(w, t, now, save)) == [Cleared(s)] + saving;
    } else {
      assert Added(w, DoClear(w, t, now, save)) == [] + saving;
    }
  }

  lemma ClearHolds(w: World, t: nat, now: nat, save: SaveOutcome, name: string)
    requires w.core.Valid() && At(w, t) && InMemory(w, name)
    ensures Held(w, DoClear(w, t, now, save), name)
  {
    var s := w.threads[t].name;
    ClearAdds(w, t, now, save);
    assert DoClear(w, t, now, save).core == ClearStep(w.core, s, now, save);
    hide ClearStep, DoClear;
    if s != name || save == FailedKeptOld {
      ClearLeaves(w.core, s, now, save, name);
    }
  }

  lemma AddHolds(w: World, other: string, auto: bool, now: nat, save: SaveOutcome, name: string)
    requires w.core.Valid() && other !in w.core.mem && InMemory(w, name)
    ensures Held(w, DoAdd(w, other, auto, now, save), name)
  {
    assert Added(w, DoAdd(w, other, auto, now, save)) == Saving(true, save);
  }

  lemma RestartHolds(w: World, opts: Options, configured: map<string, bool>, now: nat, name: string)
    requires w.core.Valid() && Enabled(w, Restart(opts, configured, now)) && InMemory(w, name)
    ensures Held(w, Next(w, Restart(opts, configured, now)), name)
  {
    assert Added(w, Next(w, Restart(opts, configured, now))) == [Restarted];
  }

  lemma QuietHolds(w: World, a: Action, name: string)
    requires w.core.Valid() && Enabled(w, a) && Queues(a) && InMemory(w, name)
    ensures Held(w, Next(w, a), name)
  {
    assert Next(w, a).core == w.core && Next(w, a).log == w.log;
    assert Added(w, Next(w, a)) == [];
  }

  lemma StepHolds(w: World, a: Action, name: string)
    requires Inv(w) && Enabled(w, a) && InMemory(w, name)
    ensures Held(w, Next(w, a), name)
  {
    assert w.core.Valid();
    LatchedIsIdle(w, name);
    hide Inv, Held, Idle, InMemory;
    match a
    case Probe(t, p, err, now, save) => ProbeHolds(w, t, p, err, now, save, name);
    case Start(t, now, save) => StartHolds(w, t, now, save, name);
    case Submit(t, now) => SubmitHolds(w, t, now, name);
    case Reply(t, res, err, now, save) => ReplyHolds(w, t, res, err, now, save, name);
    case Clear(t, now, save) => ClearHolds(w, t, now, save, name);
    case Add(other, auto, now, save) => AddHolds(w, other, auto, now, save, name);
    case Restart(opts, configured, now) => RestartHolds(w, opts, configured, now, name);
    case _ => QuietHolds(w, a, name);
  }

  // ---------------------------------------------------------------------------------
  // Over runs.

  /** What lifts a latch between two points of the history: a clear, or a restart if the
      latch was not in the file. */
  predicate Lifted(part: seq<Entry>, name: string, written: bool) {
    Cleared(name) in part || (Restarted in part && !written)
  }

  predicate Stands(w: World, name: string, written: bool) {
    InMemory(w, name) && (written ==> OnFile(w, name))
  }

  /** A latch that stood at position `n` of the history stands or was lifted, and nothing
      was submitted to the device before it was lifted. */
  ghost predicate Protected(w: World, n: nat, name: string, written: bool) {
    && n <= |w.log|
    && (Lifted(w.log[n..], name, written) || Stands(w, name, written))
    && forall k :: n <= k < |w.log| && IsSubmission(w.log[k], name) ==> Lifted(w.log[n..k], name, written)
  }

  lemma EntriesLater(w: World, w': World, n: nat)
    requires w.log <= w'.log && n <= |w.log|
    ensures w'.log[n..] == w.log[n..] + Added(w, w')
    ensures forall k :: n <= k < |w.log| ==> w'.log[k] == w.log[k] && w'.log[n..k] == w.log[n..k]
    ensures forall k :: |w.log| <= k < |w'.log| ==> w'.log[k] in Added(w, w') && w.log[n..] <= w'.log[n..k]
  {
    forall k | |w.log| <= k < |w'.log|
      ensures w'.log[k] in Added(w, w') && w.log[n..] <= w'.log[n..k]
    {
      assert w'.log[k] == Added(w, w')[k - |w.log|];
      assert w'.log[n..k][..|w.log| - n] == w.log[n..];
    }
  }

  lemma LogGrows(w: World, a: Action)
    requires w.core.Valid() && Enabled(w, a)
    ensures w.log <= Next(w, a).log
  {
    hide AfterProbe, AfterUnlock, AfterClear, PersistenceRelevantChanged, UnlockDue;
  }

  lemma HeldStands(w: World, w': World, name: string, written: bool)
    requires Held(w, w', name) && Stands(w, name, written)
    ensures Lifted(Added(w, w'), name, written) || Stands(w', name, written)
  {}

  lemma LiftedStays(part: seq<Entry>, longer: seq<Entry>, name: string, written: bool)
    requires part <= longer && Lifted(part, name, written)
    ensures Lifted(longer, name, written)
  {
    assert longer == part + longer[|part|..];
  }

  lemma StepProtects(w: World, a: Action, n: nat, name: string, written: bool)
    requires Inv(w) && Enabled(w, a) && Protected(w, n, name, written)
    ensures Protected(Next(w, a), n, name, written)
  {
    assert w.core.Valid();
    hide Inv, Enabled, Next, Lifted, InMemory, OnFile;
    var w' := Next(w, a);
    LogGrows(w, a);
    EntriesLater(w, w', n);
    if !Lifted(w.log[n..], name, written) {
      StepHolds(w, a, name);
      HeldStands(w, w', name, written);
      if Lifted(Added(w, w'), name, written) {
        LiftedLater(w.log[n..], Added(w, w'), name, written);
      }
    }
    hide Stands;
    forall k | n <= k < |w'.log| && IsSubmission(w'.log[k], name)
      ensures Lifted(w'.log[n..k], name, written)
    {
      if k >= |w.log| {
        LiftedStays(w.log[n..], w'.log[n..k], name, written);
      }
    }
    if Lifted(w.log[n..], name, written) {
      LiftedStays(w.log[n..], w'.log[n..], name, written);
    }
  }

  lemma LiftedLater(part: seq<Entry>, more: seq<Entry>, name: string, written: bool)
    requires Lifted(more, name, written)
    ensures Lifted(part + more, name, written)
  {
    assert forall e :: e in more ==> e in part + more;
  }

  lemma {:induction false} RunProtects(first: World, actions: seq<Action>, worlds: seq<World>, i: nat, j: nat,
                                       name: string)
    requires Inv(first) && Run(first, actions, worlds) && i <= j < |worlds| && InMemory(worlds[i], name)
    ensures Protected(worlds[j], |worlds[i].log|, name, OnFile(worlds[i], name))
    decreases j
  {
    hide Inv, Enabled, Next;
    if i < j {
      RunProtects(first, actions, worlds, i, j - 1, name);
      RunKeepsInv(first, actions, worlds, j - 1);
      StepProtects(worlds[j - 1], actions[j - 1], |worlds[i].log|, name, OnFile(worlds[i], name));
    }
  }

  /** Main theorem on latches. In every run, once a device is latched, each later submission to
      it comes after an operator clear of it; or, if the latch had not reached the file, after
      a restart. */
  lemma NothingBeforeClear(opts: Options, auto: map<string, bool>, actions: seq<Action>, worlds: seq<World>,
                           i: nat, j: nat, k: nat, name: string)
    requires opts.Valid() && Run(FirstStart(opts, auto), actions, worlds) && i <= j < |worlds|
    requires InMemory(worlds[i], name)
    requires |worlds[i].log| <= k < |worlds[j].log| && IsSubmission(worlds[j].log[k], name)
    ensures exists m :: |worlds[i].log| <= m < k &&
                        (worlds[j].log[m] == Cleared(name) ||
                         (worlds[j].log[m] == Restarted && !OnFile(worlds[i], name)))
  {
    hide Run, InMemory, OnFile;
    FirstStartInv(opts, auto);
    RunProtects(FirstStart(opts, auto), actions, worlds, i, j, name);
    var n, log := |worlds[i].log|, worlds[j].log;
    assert Lifted(log[n..k], name, OnFile(worlds[i], name));
    if m :| 0 <= m < |log[n..k]| && log[n..k][m] == Cleared(name) {
      assert log[n + m] == Cleared(name);
    } else {
      var m :| 0 <= m < |log[n..k]| && log[n..k][m] == Restarted;
      assert log[n + m] == Restarted;
    }
  }

  /** So after a rejected credential or a changed host key, reported by a reply or by a probe,
      no password goes to the device before an operator clears it, crashes included, unless
      the save of that very step kept the old file. */
  lemma FailureStopsAutomation(opts: Options, auto: map<string, bool>, actions: seq<Action>, worlds: seq<World>,
                               i: nat, j: nat, k: nat, name: string)
    requires opts.Valid() && Run(FirstStart(opts, auto), actions, worlds) && i < j < |worlds|
    requires (actions[i].Reply? || actions[i].Probe?) && NeedsOperator(actions[i].err)
    requires actions[i].t in worlds[i].threads && worlds[i].threads[actions[i].t].name == name
    requires |worlds[i + 1].log| <= k < |worlds[j].log| && IsSubmission(worlds[j].log[k], name)
    ensures InMemory(worlds[i + 1], name) && worlds[i + 1].core.mem[name].latchKind == actions[i].err.kind
    ensures exists m :: |worlds[i + 1].log| <= m < k &&
                        (worlds[j].log[m] == Cleared(name) ||
                         (worlds[j].log[m] == Restarted &&
                          if actions[i].Reply? then actions[i].save == FailedKeptOld
                          else !OnFile(worlds[i + 1], name)))
  {
    FirstStartInv(opts, auto);
    RunKeepsInv(FirstStart(opts, auto), actions, worlds, i);
    StepLatches(worlds[i], actions[i], worlds[i + 1], name);
    hide Run, InMemory, OnFile;
    NothingBeforeClear(opts, auto, actions, worlds, i + 1, j, k, name);
  }

  lemma StepLatches(w: World, a: Action, w': World, name: string)
    requires Inv(w) && Enabled(w, a) && w' == Next(w, a) && (a.Reply? || a.Probe?) && NeedsOperator(a.err)
    requires a.t in w.threads && w.threads[a.t].name == name
    ensures InMemory(w', name) && w'.core.mem[name].latchKind == a.err.kind
    ensures a.Reply? && a.save != FailedKeptOld ==> OnFile(w', name)
  {
    hide Next, Inv;
    match a
    case Reply(t, res, err, now, save) => ReplyLatches(w, t, res, err, now, save);
    case Probe(t, p, err, now, save) => ProbeLatches(w, t, p, err, now, save);
    case _ =>
  }

  // ---------------------------------------------------------------------------------
  // What a clear gives back.

  /** After an operator clear that was saved, the next locked view of the device starts an
      unlock exactly when automatic unlock is on and the cooldown is over, whatever was latched
      or attempted before. */
  lemma ClearedDeviceIsDue(c: Core, name: string, clearedAt: nat, p: ProbeResult, probedAt: nat, startedAt: nat)
    requires c.Valid() && name in c.mem && p.state == Locked && probedAt <= startedAt
    ensures var cleared := ClearStep(c, name, clearedAt, Saved);
            var (probed, due) := ProbeStep(cleared, OnRelevantChange, name, p, NoError, probedAt, Saved);
            && (due <==> c.auto[name] && c.mem[name].nextUnlockEligibleAt <= probedAt)
            && (due ==> StartStep(probed, name, startedAt, Saved).1)
  {
    hide PersistenceRelevantChanged;
  }
}
