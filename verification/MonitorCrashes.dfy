/** What a crash forgets: over any list of operations with any save outcomes, exactly when a
    latch, or the history of a device that was left out for a while, is found again. */
module MonitorCrashes {
  import opened Shared
  import opened MonitorPolicy
  import opened MonitorEngine

  /** One operation of a running engine, and how its save ends if it attempts one. */
  datatype Op =
    | OpProbe(name: string, p: ProbeResult, err: OpError, now: nat, save: SaveOutcome)
    | OpStart(name: string, now: nat, save: SaveOutcome)
    | OpReply(name: string, res: UnlockResult, err: OpError, now: nat, save: SaveOutcome)
    | OpClear(name: string, now: nat, save: SaveOutcome)
    | OpAdd(name: string, auto: bool, now: nat, save: SaveOutcome)

  function Do(c: Core, op: Op): (c': Core)
    requires c.Valid()
    ensures c'.Valid()
  {
    if op.OpAdd? then if op.name in c.mem then c else AddStep(c, op.name, op.auto, op.now, op.save)
    else if op.name !in c.mem then c
    else match op
      case OpProbe(name, p, err, now, save) => ProbeStep(c, OnRelevantChange, name, p, err, now, save).0
      case OpStart(name, now, save) => StartStep(c, name, now, save).0
      case OpReply(name, res, err, now, save) => UnlockStep(c, name, res, err, now, save)
      case OpClear(name, now, save) => ClearStep(c, name, now, save)
  }

  /** Whether an operation attempts to save. */
  predicate Attempts(c: Core, op: Op)
    requires c.Valid()
  {
    if op.OpAdd? then op.name !in c.mem
    else op.name in c.mem &&
         match op
         case OpProbe(name, p, err, now, _) =>
           PersistenceRelevantChanged(c.mem[name], AfterProbe(c.mem[name], p, err, now))
         case OpStart(name, now, _) => MayStart(c.mem[name], c.auto[name], now)
         case OpReply(_, _, _, _, _) => true
         case OpClear(name, _, _) => Clearable(c.mem[name])
  }

  /** Whether an attempted save reaches the file, reported as failed or not. */
  predicate Writes(c: Core, op: Op)
    requires c.Valid()
  {
    Attempts(c, op) && op.save != FailedKeptOld
  }

  function DoAll(c: Core, ops: seq<Op>): (c': Core)
    requires c.Valid()
    ensures c'.Valid()
    decreases |ops|
  {
    if ops == [] then c else DoAll(Do(c, ops[0]), ops[1..])
  }

  predicate WritesAny(c: Core, ops: seq<Op>)
    requires c.Valid()
    decreases |ops|
  {
    ops != [] && (Writes(c, ops[0]) || WritesAny(Do(c, ops[0]), ops[1..]))
  }

  // ---------------------------------------------------------------------------------
  // A latch.

  predicate Clears(op: Op, n: string) {
    op.OpClear? && op.name == n
  }

  predicate LatchedOnDisk(c: Core, n: string) {
    n in c.durable && c.durable[n].latched
  }

  /** A latch stays in memory, and whatever is written has it. */
  lemma LatchStays(c: Core, op: Op, n: string)
    requires c.Valid() && n in c.mem && c.mem[n].latched && !Clears(op, n)
    ensures n in Do(c, op).mem && Do(c, op).mem[n].latched
    ensures LatchedOnDisk(Do(c, op), n) <==> LatchedOnDisk(c, n) || Writes(c, op)
  {
    hide PersistenceRelevantChanged, AfterClear;
  }

  /** While nobody clears it, a latch is found again after a crash exactly when the file had
      it already, or some save since reached the file. Not every observation saves again, so
      a latch whose own save failed can stay unwritten. */
  lemma {:induction false} LatchSurvivesIffWritten(c: Core, ops: seq<Op>, opts: Options, configured: map<string, bool>,
                                                   n: string)
    requires c.Valid() && opts.Valid() && n in c.mem && c.mem[n].latched && n in configured
    requires forall op :: op in ops ==> !Clears(op, n)
    ensures n in DoAll(c, ops).mem && DoAll(c, ops).mem[n].latched
    ensures RestartStep(DoAll(c, ops), opts, configured).mem[n].latched <==> LatchedOnDisk(c, n) || WritesAny(c, ops)
    decreases |ops|
  {
    hide Do, Writes;
    if ops != [] {
      LatchStays(c, ops[0], n);
      LatchSurvivesIffWritten(Do(c, ops[0]), ops[1..], opts, configured, n);
    }
  }

  // ---------------------------------------------------------------------------------
  // A device that was left out.

  predicate Adds(op: Op, n: string) {
    op.OpAdd? && op.name == n
  }

  lemma AbsentStays(c: Core, op: Op, n: string)
    requires c.Valid() && n !in c.mem && !Adds(op, n)
    ensures n !in Do(c, op).mem
    ensures if Writes(c, op) then n !in Do(c, op).durable else Do(c, op).durable == c.durable
  {
    hide PersistenceRelevantChanged, AfterProbe, AfterStart, AfterUnlock, AfterClear, MayStart;
  }

  /** A device that the running engine does not have, and that nobody adds to it, is found
      again with its old record exactly when no save reached the file in the meantime;
      otherwise it comes back with a fresh record. */
  lemma {:induction false} RemovedDeviceForgets(c: Core, ops: seq<Op>, opts: Options, again: map<string, bool>,
                                                n: string)
    requires c.Valid() && opts.Valid() && n !in c.mem && n in again
    requires forall op :: op in ops ==> !Adds(op, n)
    ensures RestartStep(DoAll(c, ops), opts, again).mem[n] ==
            if n in c.durable && !WritesAny(c, ops) then c.durable[n] else FreshRecord(0)
    decreases |ops|
  {
    hide Do, Writes;
    if ops != [] {
      AbsentStays(c, ops[0], n);
      RemovedDeviceForgets(Do(c, ops[0]), ops[1..], opts, again, n);
    }
  }

  /** So after a run without the device in which anything was saved, the next locked view of
      it authorises an unlock, whatever was submitted to it before. */
  lemma ForgottenDeviceIsDue(c: Core, ops: seq<Op>, opts: Options, again: map<string, bool>, n: string, p: ProbeResult,
                             now: nat)
    requires c.Valid() && opts.Valid() && n !in c.mem && n in again && again[n] && p.state == Locked
    requires (forall op :: op in ops ==> !Adds(op, n)) && WritesAny(c, ops)
    ensures UnlockDue(AfterProbe(RestartStep(DoAll(c, ops), opts, again).mem[n], p, NoError, now), p, NoError, again[n],
                      now)
  {
    hide DoAll, WritesAny;
    RemovedDeviceForgets(c, ops, opts, again, n);
  }
}
