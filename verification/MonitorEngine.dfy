/** The monitor engine: per-device records updated in place, and the state file behind
    them. `Core` is its abstract value; the methods of `Engine` follow the source statement
    by statement and are proved to take exactly the `Core` steps. */
module MonitorEngine {
  import opened BoundedTime
  import opened PlainText
  import opened Shared
  import opened MonitorPolicy

  /** `auto` says which configured devices have automatic unlock; `durable` is the content
      of the state file. */
  datatype Core = Core(opts: Options, auto: map<string, bool>, mem: map<string, DeviceRecord>,
                       durable: map<string, DeviceRecord>)
  {
    ghost predicate Valid() {
      opts.Valid() && auto.Keys == mem.Keys
    }
  }

  /** The engine saves on relevant changes; the eager policy is the reference it is
      compared with. */
  datatype SavePolicy = OnRelevantChange | OnEveryProbe

  /** One save writes the records of all configured devices. */
  function SaveAll(c: Core, save: SaveOutcome): Core {
    if save == FailedKeptOld then c else c.(durable := c.mem)
  }

  function WithRecord(c: Core, name: string, r: DeviceRecord): Core {
    c.(mem := c.mem[name := r])
  }

  function ProbeStep(c: Core, policy: SavePolicy, name: string, p: ProbeResult, err: OpError, now: nat,
                     save: SaveOutcome): (Core, bool)
    requires c.Valid() && name in c.mem
  {
    var after := AfterProbe(c.mem[name], p, err, now);
    var c1 := WithRecord(c, name, after);
    var due := UnlockDue(after, p, err, c.auto[name], now);
    if policy == OnEveryProbe || PersistenceRelevantChanged(c.mem[name], after)
    then (SaveAll(c1, save), due && save == Saved)
    else (c1, due)
  }

  function StartStep(c: Core, name: string, now: nat, save: SaveOutcome): (Core, bool)
    requires c.Valid() && name in c.mem
  {
    var r := c.mem[name];
    if !MayStart(r, c.auto[name], now) then (c, false)
    else
      var saved := SaveAll(WithRecord(c, name, AfterStart(r, c.opts, now)), save);
      if save == Saved then (saved, true)
      else (WithRecord(saved, name, AfterFailedStart(r, c.opts, now)), false)
  }

  function UnlockStep(c: Core, name: string, res: UnlockResult, err: OpError, now: nat, save: SaveOutcome): Core
    requires c.Valid() && name in c.mem
  {
    SaveAll(WithRecord(c, name, AfterUnlock(c.mem[name], res, err, c.opts, now)), save)
  }

  function ClearStep(c: Core, name: string, now: nat, save: SaveOutcome): Core
    requires c.Valid() && name in c.mem
  {
    var r := c.mem[name];
    if !Clearable(r) then c
    else
      var saved := SaveAll(WithRecord(c, name, AfterClear(r, now)), save);
      if save == Saved then saved else WithRecord(saved, name, r)
  }

  function AddStep(c: Core, name: string, auto: bool, now: nat, save: SaveOutcome): Core
    requires c.Valid() && name !in c.mem
  {
    var c1 := c.(mem := c.mem[name := FreshRecord(now)], auto := c.auto[name := auto]);
    var saved := SaveAll(c1, save);
    if save == Saved then saved else saved.(mem := c.mem, auto := c.auto)
  }

  /** The records a new process starts with. */
  function Loaded(auto: map<string, bool>, durable: map<string, DeviceRecord>): map<string, DeviceRecord> {
    map name | name in auto :: if name in durable then durable[name] else FreshRecord(0)
  }

  /** A crash loses memory; the restart reads the state file. */
  function RestartStep(c: Core, opts: Options, auto: map<string, bool>): Core {
    Core(opts, auto, Loaded(auto, c.durable), c.durable)
  }

  /** A device to be monitored, as the configuration gives it. */
  datatype Target = Target(name: string, host: string, user: string, port: int, autoUnlock: bool)

  predicate ValidTarget(d: Target) {
    && TrimSpace(d.name) != "" && TrimSpace(d.name) == d.name
    && TrimSpace(d.host) != "" && TrimSpace(d.user) != ""
    && 0 <= d.port <= 65535
  }

  /** An engine without an unlocker takes no device that asks for automatic unlock. */
  predicate Acceptable(d: Target, hasUnlocker: bool) {
    ValidTarget(d) && (d.autoUnlock ==> hasUnlocker)
  }

  lemma AcceptableIff(d: Target, hasUnlocker: bool)
    ensures Acceptable(d, hasUnlocker) <==>
            && d.name != "" && TrimSpace(d.name) == d.name
            && TrimSpace(d.host) != "" && TrimSpace(d.user) != "" && 0 <= d.port <= 65535
            && (d.autoUnlock ==> hasUnlocker)
  {
    hide TrimSpace;
  }

  /** What a new engine demands of its devices and of the file: every device acceptable, no
      name twice, and no saved state it does not know. */
  predicate Startable(devices: seq<Target>, hasUnlocker: bool, file: map<string, DeviceRecord>) {
    && (forall i :: 0 <= i < |devices| ==>
          Acceptable(devices[i], hasUnlocker) &&
          (devices[i].name in file ==> ValidRuntimeState(file[devices[i].name].state)))
    && forall i, j :: 0 <= i < j < |devices| ==> devices[i].name != devices[j].name
  }

  function AutoOf(devices: seq<Target>): map<string, bool> {
    if devices == [] then map[]
    else AutoOf(devices[..|devices| - 1])[devices[|devices| - 1].name := devices[|devices| - 1].autoUnlock]
  }

  lemma {:induction false} AutoNames(devices: seq<Target>)
    ensures forall name :: name in AutoOf(devices) <==> exists i :: 0 <= i < |devices| && devices[i].name == name
  {
    if devices != [] {
      var k := |devices| - 1;
      AutoNames(devices[..k]);
      assert forall i :: 0 <= i < k ==> devices[..k][i] == devices[i];
    }
  }

  class Engine {
    const hasUnlocker: bool
    var opts: Options
    var auto: map<string, bool>
    var records: map<string, DeviceRecord>
    var durable: map<string, DeviceRecord>

    ghost function View(): Core
      reads this
    {
      Core(opts, auto, records, durable)
    }

    ghost predicate Valid()
      reads this
    {
      View().Valid()
    }

    /** An engine without devices. */
    constructor (opts: Options, hasUnlocker: bool, file: map<string, DeviceRecord>)
      requires opts.Valid()
      ensures Valid() && View() == Core(opts, map[], map[], file) && this.hasUnlocker == hasUnlocker
    {
      this.opts, this.hasUnlocker, this.durable := opts, hasUnlocker, file;
      auto, records := map[], map[];
    }

    method Persist(save: SaveOutcome) returns (ok: bool)
      requires Valid()
      modifies this`durable
      ensures View() == SaveAll(old(View()), save) && ok == (save == Saved)
    {
      if save != FailedKeptOld {
        durable := records;
      }
      ok := save == Saved;
    }

    /** The policy part of a probe: each record field is updated branch by branch, as the
        observation demands, and the latch overrides the shown state last. */
    static method ProbedRecord(previous: DeviceRecord, p: ProbeResult, err: OpError, now: nat)
      returns (record: DeviceRecord)
      ensures record == AfterProbe(previous, p, err, now)
    {
      hide BoundedText;
      var state, observation, lastError := previous.state, previous.lastObservation, "";
      var failures, connectFailures := previous.consecutiveFailures, previous.unlockConnectFailures;
      var episode, open, attempted := previous.lockEpisode, previous.lockEpisodeOpen, previous.unlockAttempted;
      var latched, latchKind, latchReason := previous.latched, previous.latchKind, previous.latchReason;
      if err != NoError {
        var kind := FailureKindOf(err);
        if previous.endpointDown && !p.endpointDown {
          failures := 0;
        }
        failures := failures + 1;
        lastError := BoundedText(ErrorText(err));
        match kind {
          case FailureUnreachable =>
            state, observation := Unreachable, Unreachable;
          case FailureCredential =>
            state := CredentialFailed;
            latched, latchKind, latchReason := true, kind, BoundedText(ErrorText(err));
          case FailureHostKey =>
            state := Error;
            latched, latchKind, latchReason := true, kind, BoundedText(ErrorText(err));
          case _ =>
            state := Error;
        }
      } else if !ValidProbeState(p.state) {
        state, failures, lastError := Error, failures + 1, INVALID_STATE_TEXT;
      } else {
        observation := p.state;
        if p.state != Unreachable {
          failures := 0;
        }
        match p.state {
          case Booted =>
            state, open, attempted, connectFailures := Booted, false, false, 0;
          case Locked =>
            if !open {
              episode, open, attempted := episode + 1, true, false;
            }
            state := Locked;
          case Indeterminate =>
            state := Indeterminate;
          case Unreachable =>
            state, failures := Unreachable, failures + 1;
        }
      }
      if latched {
        state := StateForLatch(latchKind);
      }
      record := DeviceRecord(state, observation, BoundedText(p.detail), lastError, now,
                             if state != previous.state then now else previous.stateChangedAt,
                             previous.lastUnlockAttemptAt, previous.nextUnlockEligibleAt, episode, open, attempted,
                             failures, connectFailures, p.endpointDown, latched, latchKind, latchReason);
    }

    method ApplyProbe(name: string, p: ProbeResult, err: OpError, now: nat, save: SaveOutcome) returns (unlock: bool)
      requires Valid() && name in records
      modifies this`records, this`durable
      ensures Valid() && (View(), unlock) == ProbeStep(old(View()), OnRelevantChange, name, p, err, now, save)
      ensures records == old(records)[name := records[name]]
      ensures ProbeOutcome(old(records[name]), p, err, now, records[name])
      ensures unlock <==> err == NoError && p.state == Locked && auto[name] && !records[name].latched &&
                          !records[name].unlockAttempted && records[name].nextUnlockEligibleAt <= now &&
                          (PersistenceRelevantChanged(old(records[name]), records[name]) ==> save == Saved)
    {
      ProbeByCase(records[name], p, err, now);
      hide AfterProbe, ProbeOutcome;
      var previous := records[name];
      var record := ProbedRecord(previous, p, err, now);
      records := records[name := record];
      if PersistenceRelevantChanged(previous, record) {
        var ok := Persist(save);
        if !ok {
          return false;
        }
      }
      unlock := err == NoError && p.state == Locked && auto[name] &&
                !record.latched && !record.unlockAttempted && !(now < record.nextUnlockEligibleAt);
    }

    method MarkUnlockStarted(name: string, now: nat, save: SaveOutcome) returns (started: bool)
      requires Valid() && name in records
      modifies this`records, this`durable
      ensures Valid() && (View(), started) == StartStep(old(View()), name, now, save)
      ensures var r := old(records[name]);
              started <==> save == Saved && r.state == Locked && !r.latched && !r.unlockAttempted && auto[name] &&
                           r.nextUnlockEligibleAt <= now
      ensures started ==> durable == records
      ensures records == old(records)[name := records[name]]
      ensures records[name] == old(records[name]) ||
              StartOutcome(old(records[name]), opts, now, started, records[name])
    {
      StartByCase(records[name], opts, now);
      hide StartOutcome;
      var record := records[name];
      if record.state != Locked || record.latched || record.unlockAttempted || !auto[name] ||
         now < record.nextUnlockEligibleAt {
        return false;
      }
      record := record.(unlockAttempted := true, lastUnlockAttemptAt := now);
      record := record.(nextUnlockEligibleAt := now + opts.unlockCooldown as int);
      record := record.(state := Unlocking, stateChangedAt := now);
      records := records[name := record];
      var ok := Persist(save);
      if !ok {
        record := record.(state := Error, stateChangedAt := now, lastError := PERSIST_ATTEMPT_TEXT);
        records := records[name := record];
        assert records == old(records)[name := record];
        return false;
      }
      started := true;
    }

    /** The backoff of a retry that is known not to have submitted the credential. */
    method RetryAt(connectFailures: nat, now: nat) returns (eligible: nat)
      requires Valid()
      ensures eligible == now + BackoffDelay(opts.backoffInitial as int, opts.backoffMax as int, connectFailures)
    {
      var delay := ExponentialBackoff(opts.backoffInitial, opts.backoffMax, connectFailures);
      BackoffInRange(opts.backoffInitial as int, opts.backoffMax as int, connectFailures);
      eligible := now + delay as int;
    }

    /** The record an unlock result leaves, and whether the adapter broke its contract. */
    method UnlockedRecord(before: DeviceRecord, res: UnlockResult, err: OpError, now: nat)
      returns (record: DeviceRecord, contractBroken: bool)
      requires Valid()
      ensures record == AfterUnlock(before, res, err, opts, now)
      ensures contractBroken == (!res.accepted && err == NoError)
    {
      hide BoundedText, BackoffDelay;
      var state, lastError := before.state, "";
      var failures, connectFailures := before.consecutiveFailures, before.unlockConnectFailures;
      var attempted, eligible := before.unlockAttempted, before.nextUnlockEligibleAt;
      var latched, latchKind, latchReason := before.latched, before.latchKind, before.latchReason;
      contractBroken := false;
      if err != NoError {
        lastError := BoundedText(ErrorText(err));
      }
      var kind := FailureKindOf(err);
      if err != NoError && (kind == FailureCredential || kind == FailureHostKey) {
        state := if kind == FailureCredential then CredentialFailed else Error;
        latched, latchKind, latchReason := true, kind, BoundedText(ErrorText(err));
      } else if res.accepted {
        state, connectFailures := Booting, 0;
      } else if err != NoError {
        state := if kind == FailureUnreachable then Unreachable else Error;
        attempted, failures, connectFailures := false, failures + 1, connectFailures + 1;
        eligible := RetryAt(connectFailures, now);
      } else {
        state, lastError, contractBroken := Error, NO_RESULT_TEXT, true;
      }
      record := before.(state := state, detail := BoundedText(res.detail), lastError := lastError,
                        stateChangedAt := if state != before.state then now else before.stateChangedAt,
                        nextUnlockEligibleAt := eligible, unlockAttempted := attempted,
                        consecutiveFailures := failures, unlockConnectFailures := connectFailures,
                        latched := latched, latchKind := latchKind, latchReason := latchReason);
    }

    /** `ok` is false when the result could not be saved or broke the adapter contract. */
    method ApplyUnlockResult(name: string, res: UnlockResult, err: OpError, now: nat, save: SaveOutcome)
      returns (ok: bool)
      requires Valid() && name in records
      modifies this`records, this`durable
      ensures Valid() && View() == UnlockStep(old(View()), name, res, err, now, save)
      ensures records == old(records)[name := records[name]]
      ensures UnlockOutcome(old(records[name]), res, err, opts, now, records[name])
      ensures durable == if save == FailedKeptOld then old(durable) else records
      ensures ok <==> save == Saved && (res.accepted || err != NoError)
    {
      UnlockByCase(records[name], res, err, opts, now);
      hide AfterUnlock, UnlockOutcome;
      var record, contractBroken := UnlockedRecord(records[name], res, err, now);
      records := records[name := record];
      var saved := Persist(save);
      ok := saved && !contractBroken;
    }

    static method ClearedRecord(previous: DeviceRecord, now: nat) returns (record: DeviceRecord)
      ensures record == AfterClear(previous, now)
    {
      record := previous.(latched := false, latchKind := NoFailureKind, latchReason := "", lastError := "");
      var nextState := StateForObservation(record.lastObservation);
      if record.lockEpisodeOpen {
        record := record.(unlockAttempted := false);
      }
      if record.state != nextState {
        record := record.(state := nextState, stateChangedAt := now);
      }
    }

    method ClearLatch(name: string, now: nat, save: SaveOutcome) returns (ok: bool)
      requires Valid() && name in records
      modifies this`records, this`durable
      ensures Valid() && View() == ClearStep(old(View()), name, now, save)
      ensures var r := old(records[name]);
              ok <==> save == Saved || !(r.latched || (r.lockEpisodeOpen && r.unlockAttempted))
      ensures records == old(records)[name := records[name]]
      ensures if Clearable(old(records[name])) && save == Saved
              then ClearOutcome(old(records[name]), now, records[name]) && durable == records
              else records == old(records)
    {
      ClearByCase(records[name], now);
      hide AfterClear, ClearOutcome;
      var previous := records[name];
      if !previous.latched && (!previous.lockEpisodeOpen || !previous.unlockAttempted) {
        return true;
      }
      var record := ClearedRecord(previous, now);
      records := records[name := record];
      ok := Persist(save);
      if !ok {
        records := records[name := previous];
        assert records == old(records);
      }
    }

    method AddDevice(d: Target, now: nat, save: SaveOutcome) returns (ok: bool)
      requires Valid()
      modifies this`records, this`durable, this`auto
      ensures var accepted := && d.name != "" && TrimSpace(d.name) == d.name
                              && TrimSpace(d.host) != "" && TrimSpace(d.user) != "" && 0 <= d.port <= 65535
                              && (d.autoUnlock ==> hasUnlocker) && d.name !in old(records);
              && Valid() && ok == (accepted && save == Saved)
              && View() == (if accepted then AddStep(old(View()), d.name, d.autoUnlock, now, save) else old(View()))
    {
      AcceptableIff(d, hasUnlocker);
      hide ValidTarget, TrimSpace;
      if !ValidTarget(d) || (d.autoUnlock && !hasUnlocker) {
        return false;
      }
      var name := d.name;
      if name in records {
        return false;
      }
      records, auto := records[name := FreshRecord(now)], auto[name := d.autoUnlock];
      ok := Persist(save);
      if !ok {
        records, auto := records - {name}, auto - {name};
        assert records == old(records) && auto == old(auto);
      }
    }

    /** One undisturbed poll. The unlocker runs only with the attempt already on disk. */
    method Poll(name: string, p: ProbeResult, err: OpError, probedAt: nat, probeSave: SaveOutcome,
                startedAt: nat, startSave: SaveOutcome, res: UnlockResult, unlockErr: OpError,
                endedAt: nat, endSave: SaveOutcome)
      returns (released: bool)
      requires Valid() && name in records && probedAt <= startedAt
      modifies this`records, this`durable
      ensures Valid()
      ensures var probed := ProbeStep(old(View()), OnRelevantChange, name, p, err, probedAt, probeSave);
              && released == (probed.1 && startSave == Saved)
              && (!probed.1 ==> View() == probed.0)
              && (probed.1 ==>
                    var started := StartStep(probed.0, name, startedAt, startSave);
                    View() == if released then UnlockStep(started.0, name, res, unlockErr, endedAt, endSave)
                              else started.0)
    {
      var due := ApplyProbe(name, p, err, probedAt, probeSave);
      if !due {
        return false;
      }
      released := MarkUnlockStarted(name, startedAt, startSave);
      if released {
        assert durable == records && durable[name].unlockAttempted && durable[name].lockEpisodeOpen;
        var _ := ApplyUnlockResult(name, res, unlockErr, endedAt, endSave);
      }
    }
  }

  lemma OneMoreTarget(devices: seq<Target>, n: nat, hasUnlocker: bool, file: map<string, DeviceRecord>)
    requires n < |devices| && Startable(devices[..n], hasUnlocker, file)
    ensures Startable(devices[..n + 1], hasUnlocker, file) <==>
              && Acceptable(devices[n], hasUnlocker)
              && (devices[n].name in file ==> ValidRuntimeState(file[devices[n].name].state))
              && devices[n].name !in AutoOf(devices[..n])
    ensures AutoOf(devices[..n + 1]) == AutoOf(devices[..n])[devices[n].name := devices[n].autoUnlock]
    ensures Startable(devices, hasUnlocker, file) ==> Startable(devices[..n + 1], hasUnlocker, file)
  {
    hide Acceptable, AutoOf;
    AutoNames(devices[..n]);
    var more := devices[..n + 1];
    assert forall i :: 0 <= i < n ==> more[i] == devices[..n][i];
    assert more[n] == devices[n];
    AutoGrows(devices, n);
  }

  lemma AutoGrows(devices: seq<Target>, n: nat)
    requires n < |devices|
    ensures AutoOf(devices[..n + 1]) == AutoOf(devices[..n])[devices[n].name := devices[n].autoUnlock]
  {
    assert devices[..n + 1][..n] == devices[..n];
  }

  /** Starts an engine on the saved records; none when the options, a device or a saved state
      is not acceptable, or the file cannot be read. A device without a record starts fresh. */
  method New(devices: seq<Target>, hasUnlocker: bool, file: Option<map<string, DeviceRecord>>, opts: Options)
    returns (engine: Engine?)
    ensures engine != null <==>
              && 0 < opts.backoffInitial <= opts.backoffMax && opts.unlockCooldown >= 0 && opts.concurrency > 0
              && file.Some? && Startable(devices, hasUnlocker, file.value)
    ensures engine != null ==>
              && fresh(engine) && engine.Valid() && engine.hasUnlocker == hasUnlocker
              && engine.View() == Core(opts, AutoOf(devices), Loaded(AutoOf(devices), file.value), file.value)
  {
    hide Acceptable, AutoOf;
    if !opts.Valid() || file.None? {
      return null;
    }
    var e := new Engine(opts, hasUnlocker, file.value);
    assert devices[..0] == [];
    NoTargets();
    for i := 0 to |devices|
      invariant fresh(e) && e.opts == opts && e.durable == file.value && e.hasUnlocker == hasUnlocker
      invariant Startable(devices[..i], hasUnlocker, file.value)
      invariant e.auto == AutoOf(devices[..i]) && e.records == Loaded(e.auto, file.value)
    {
      var d := devices[i];
      OneMoreTarget(devices, i, hasUnlocker, file.value);
      if !Acceptable(d, hasUnlocker) || d.name in e.records {
        return null;
      }
      var record := if d.name in file.value then file.value[d.name] else FreshRecord(0);
      if !ValidRuntimeState(record.state) {
        return null;
      }
      e.auto, e.records := e.auto[d.name := d.autoUnlock], e.records[d.name := record];
      assert e.records == Loaded(e.auto, file.value);
    }
    assert devices[..|devices|] == devices;
    engine := e;
  }

  lemma NoTargets()
    ensures AutoOf([]) == map[]
  {}
}
