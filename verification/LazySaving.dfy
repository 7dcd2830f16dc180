/** Saving only on relevant changes refines saving on every poll. Both engines execute the
    same operations, with crashes at any point between them. */
module LazySaving {
  import opened Shared
  import opened MonitorPolicy
  import opened MonitorEngine
  import opened MonitorEpisodes

  datatype Op =
    | OpProbe(name: string, p: ProbeResult, err: OpError, now: nat)
    | OpStart(name: string, now: nat)
    | OpReply(name: string, res: UnlockResult, err: OpError, now: nat)
    | OpClear(name: string, now: nat)
    | OpAdd(name: string, auto: bool, now: nat)
    | OpCrash(opts: Options, configured: map<string, bool>)

  /** Restarts keep the configured devices: a save drops the records of devices that were
      removed, so re-adding one is outside this comparison. */
  predicate MayRestart(c: Core, opts: Options, configured: map<string, bool>) {
    opts.Valid() && c.mem.Keys <= configured.Keys
  }

  /** Runs one operation with every save succeeding; the answer is the engine's decision:
      whether the probe authorises an unlock, or whether the unlock may start. */
  function Exec(c: Core, policy: SavePolicy, op: Op): (r: (Core, bool))
    requires c.Valid()
    ensures r.0.Valid()
  {
    match op
    case OpProbe(name, p, err, now) => if name in c.mem then ProbeStep(c, policy, name, p, err, now, Saved)
                                       else (c, false)
    case OpStart(name, now) => if name in c.mem then StartStep(c, name, now, Saved) else (c, false)
    case OpReply(name, res, err, now) => (if name in c.mem then UnlockStep(c, name, res, err, now, Saved) else c, false)
    case OpClear(name, now) => (if name in c.mem then ClearStep(c, name, now, Saved) else c, false)
    case OpAdd(name, auto, now) => (if name in c.mem then c else AddStep(c, name, auto, now, Saved), false)
    case OpCrash(opts, configured) => (if MayRestart(c, opts, configured) then RestartStep(c, opts, configured) else c,
                                       false)
  }

  function ExecAll(c: Core, policy: SavePolicy, ops: seq<Op>): (r: (Core, seq<bool>))
    requires c.Valid()
    ensures r.0.Valid()
    decreases |ops|
  {
    if ops == [] then (c, [])
    else
      var (c1, decision) := Exec(c, policy, ops[0]);
      var (c2, decisions) := ExecAll(c1, policy, ops[1..]);
      (c2, [decision] + decisions)
  }

  /** For one device: memories agree, and each file holds everything relevant. */
  predicate SimilarAt(lazy: Core, eager: Core, n: string)
    requires lazy.mem.Keys == eager.mem.Keys
  {
    && Agree(OnDisk(lazy, n), OnDisk(eager, n))
    && (n in lazy.durable || n in eager.durable ==> n in lazy.mem)
    && (n in lazy.mem ==> Agree(lazy.mem[n], eager.mem[n]) && Agree(OnDisk(lazy, n), lazy.mem[n]))
  }

  /** Two engines that a crash cannot tell apart. */
  ghost predicate Similar(lazy: Core, eager: Core) {
    && lazy.Valid() && eager.Valid() && lazy.opts == eager.opts && lazy.auto == eager.auto
    && forall n :: SimilarAt(lazy, eager, n)
  }

  lemma ProbeRespectsAgree(a: DeviceRecord, b: DeviceRecord, p: ProbeResult, err: OpError, auto: bool, now: nat)
    requires Agree(a, b)
    ensures Agree(AfterProbe(a, p, err, now), AfterProbe(b, p, err, now))
    ensures UnlockDue(AfterProbe(a, p, err, now), p, err, auto, now) ==
            UnlockDue(AfterProbe(b, p, err, now), p, err, auto, now)
  {}

  lemma StepsRespectAgree(a: DeviceRecord, b: DeviceRecord, opts: Options, auto: bool, res: UnlockResult, err: OpError,
                          now: nat)
    requires Agree(a, b) && opts.Valid()
    ensures MayStart(a, auto, now) == MayStart(b, auto, now)
    ensures Agree(AfterStart(a, opts, now), AfterStart(b, opts, now))
    ensures Agree(AfterUnlock(a, res, err, opts, now), AfterUnlock(b, res, err, opts, now))
    ensures Clearable(a) == Clearable(b) && Agree(AfterClear(a, now), AfterClear(b, now))
  {}

  lemma ProbeSimilar(lazy: Core, eager: Core, name: string, p: ProbeResult, err: OpError, now: nat)
    requires Similar(lazy, eager) && name in lazy.mem
    ensures var l := ProbeStep(lazy, OnRelevantChange, name, p, err, now, Saved);
            var e := ProbeStep(eager, OnEveryProbe, name, p, err, now, Saved);
            Similar(l.0, e.0) && l.1 == e.1
  {
    hide AfterProbe, UnlockDue, Relevant;
    var l := ProbeStep(lazy, OnRelevantChange, name, p, err, now, Saved).0;
    var e := ProbeStep(eager, OnEveryProbe, name, p, err, now, Saved).0;
    assert SimilarAt(lazy, eager, name);
    ProbeRespectsAgree(lazy.mem[name], eager.mem[name], p, err, lazy.auto[name], now);
    AgreeMeansUnchanged(lazy.mem[name], AfterProbe(lazy.mem[name], p, err, now));
    forall n
      ensures SimilarAt(l, e, n)
    {
      assert SimilarAt(lazy, eager, n);
    }
  }

  /** Both engines write every record at once after replacing the record of `name`. */
  lemma SavedSimilar(lazy: Core, eager: Core, name: string, a: DeviceRecord, b: DeviceRecord)
    requires Similar(lazy, eager) && name in lazy.mem && Agree(a, b)
    ensures Similar(SaveAll(WithRecord(lazy, name, a), Saved), SaveAll(WithRecord(eager, name, b), Saved))
  {
    var l, e := SaveAll(WithRecord(lazy, name, a), Saved), SaveAll(WithRecord(eager, name, b), Saved);
    forall n
      ensures SimilarAt(l, e, n)
    {
      assert SimilarAt(lazy, eager, n);
    }
  }

  lemma AddSimilar(lazy: Core, eager: Core, name: string, auto: bool, now: nat)
    requires Similar(lazy, eager) && name !in lazy.mem
    ensures Similar(AddStep(lazy, name, auto, now, Saved), AddStep(eager, name, auto, now, Saved))
  {
    var l, e := AddStep(lazy, name, auto, now, Saved), AddStep(eager, name, auto, now, Saved);
    forall n
      ensures SimilarAt(l, e, n)
    {
      assert SimilarAt(lazy, eager, n);
    }
  }

  lemma CrashSimilar(lazy: Core, eager: Core, opts: Options, configured: map<string, bool>)
    requires Similar(lazy, eager) && MayRestart(lazy, opts, configured)
    ensures Similar(RestartStep(lazy, opts, configured), RestartStep(eager, opts, configured))
  {
    var l, e := RestartStep(lazy, opts, configured), RestartStep(eager, opts, configured);
    forall n
      ensures SimilarAt(l, e, n)
    {
      assert SimilarAt(lazy, eager, n);
      assert n in l.mem ==> l.mem[n] == OnDisk(lazy, n) && e.mem[n] == OnDisk(eager, n);
    }
  }

  lemma ExecSimilar(lazy: Core, eager: Core, op: Op)
    requires Similar(lazy, eager)
    ensures Similar(Exec(lazy, OnRelevantChange, op).0, Exec(eager, OnEveryProbe, op).0)
    ensures Exec(lazy, OnRelevantChange, op).1 == Exec(eager, OnEveryProbe, op).1
  {
    if op.OpAdd? {
      if op.name !in lazy.mem {
        AddSimilar(lazy, eager, op.name, op.auto, op.now);
      }
    } else if op.OpCrash? {
      if MayRestart(lazy, op.opts, op.configured) {
        CrashSimilar(lazy, eager, op.opts, op.configured);
      }
    } else if op.name in lazy.mem {
      var name := op.name;
      var a, b := lazy.mem[name], eager.mem[name];
      assert SimilarAt(lazy, eager, name);
      var res := if op.OpReply? then op.res else UnlockResult(true, "");
      var err := if op.OpReply? then op.err else NoError;
      StepsRespectAgree(a, b, lazy.opts, lazy.auto[name], res, err, op.now);
      match op
      case OpProbe(_, p, e, now) => ProbeSimilar(lazy, eager, name, p, e, now);
      case OpStart(_, now) => SavedSimilar(lazy, eager, name, AfterStart(a, lazy.opts, now),
                                           AfterStart(b, lazy.opts, now));
      case OpReply(_, _, _, now) =>
        SavedSimilar(lazy, eager, name, AfterUnlock(a, res, err, lazy.opts, now),
                     AfterUnlock(b, res, err, lazy.opts, now));
      case OpClear(_, now) => SavedSimilar(lazy, eager, name, AfterClear(a, now), AfterClear(b, now));
    }
  }

  lemma {:induction false} ExecAllSimilar(lazy: Core, eager: Core, ops: seq<Op>)
    requires Similar(lazy, eager)
    ensures Similar(ExecAll(lazy, OnRelevantChange, ops).0, ExecAll(eager, OnEveryProbe, ops).0)
    ensures ExecAll(lazy, OnRelevantChange, ops).1 == ExecAll(eager, OnEveryProbe, ops).1
    decreases |ops|
  {
    if ops != [] {
      ExecSimilar(lazy, eager, ops[0]);
      ExecAllSimilar(Exec(lazy, OnRelevantChange, ops[0]).0, Exec(eager, OnEveryProbe, ops[0]).0, ops[1..]);
    }
  }

  /** Main theorem. Started from the same file, the engine that saves only relevant changes
      and the one that saves every poll make the same decisions, through any sequence of
      operations and crashes. */
  lemma LazyRefinesEager(opts: Options, auto: map<string, bool>, file: map<string, DeviceRecord>, ops: seq<Op>)
    requires opts.Valid() && file.Keys <= auto.Keys
    ensures var start := Core(opts, auto, Loaded(auto, file), file);
            ExecAll(start, OnRelevantChange, ops).1 == ExecAll(start, OnEveryProbe, ops).1
  {
    var start := Core(opts, auto, Loaded(auto, file), file);
    ExecAllSimilar(start, start, ops);
  }

  /** Successful saves are needed: a host-key latch whose save failed is not written again by
      an identical observation, so a crash forgets it and a locked device is then approved;
      the eager engine would have kept the latch. */
  lemma UnsavedLatchIsForgotten(opts: Options)
    requires opts.Valid()
    ensures var changed := Classified(FailureHostKey, "changed key");
            var nothing := ProbeResult(NoState, "", false);
            var start := Core(opts, map["mac" := true], map["mac" := FreshRecord(0)], map[]);
            var lazy1 := ProbeStep(start, OnRelevantChange, "mac", nothing, changed, 1, FailedKeptOld).0;
            var eager1 := ProbeStep(start, OnEveryProbe, "mac", nothing, changed, 1, FailedKeptOld).0;
            var lazy2 := RestartStep(ProbeStep(lazy1, OnRelevantChange, "mac", nothing, changed, 2, Saved).0, opts,
                                     start.auto);
            var eager2 := RestartStep(ProbeStep(eager1, OnEveryProbe, "mac", nothing, changed, 2, Saved).0, opts,
                                      start.auto);
            && ProbeStep(lazy2, OnRelevantChange, "mac", ProbeResult(Locked, "", false), NoError, 3, Saved).1
            && !ProbeStep(eager2, OnEveryProbe, "mac", ProbeResult(Locked, "", false), NoError, 3, Saved).1
  {
    var changed := Classified(FailureHostKey, "changed key");
    var nothing := ProbeResult(NoState, "", false);
    var start := Core(opts, map["mac" := true], map["mac" := FreshRecord(0)], map[]);
    var latched1 := AfterProbe(FreshRecord(0), nothing, changed, 1);
    var latched2 := AfterProbe(latched1, nothing, changed, 2);
    assert latched1.latched && latched1.state == Error && !PersistenceRelevantChanged(latched1, latched2);
    var lazy1 := ProbeStep(start, OnRelevantChange, "mac", nothing, changed, 1, FailedKeptOld).0;
    assert lazy1.mem["mac"] == latched1 && lazy1.durable == map[];
    var lazy2 := ProbeStep(lazy1, OnRelevantChange, "mac", nothing, changed, 2, Saved).0;
    assert lazy2.durable == map[];
    var eager1 := ProbeStep(start, OnEveryProbe, "mac", nothing, changed, 1, FailedKeptOld).0;
    var eager2 := ProbeStep(eager1, OnEveryProbe, "mac", nothing, changed, 2, Saved).0;
    assert eager2.durable["mac"] == latched2;
  }
}
