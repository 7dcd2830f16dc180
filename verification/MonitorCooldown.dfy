/** The cooldown runs from the authorisation of an attempt, not from the release of the
    credential: how far apart releases are, and a run in which they are closer. */
module MonitorCooldown {
  import opened Shared
  import opened BoundedTime
  import opened MonitorPolicy
  import opened MonitorEngine
  import opened MonitorRuns
  import opened MonitorSafety

  // ---------------------------------------------------------------------------------
  // Releases follow one another.

  /** The time of the last release. */
  function LastRelease(log: seq<Entry>): nat {
    if log == [] then 0
    else if log[|log| - 1].Submitted? then log[|log| - 1].releasedAt
    else LastRelease(log[..|log| - 1])
  }

  predicate Ordered(log: seq<Entry>) {
    log == [] ||
    (var before := log[..|log| - 1];
     Ordered(before) && (log[|log| - 1].Submitted? ==> LastRelease(before) <= log[|log| - 1].releasedAt))
  }

  /** Releases are in the order of the clock. */
  ghost predicate Timely(w: World) {
    w.core.Valid() && Ordered(w.log) && LastRelease(w.log) <= w.clock
  }

  lemma {:induction false} OrderedOn(log: seq<Entry>, more: seq<Entry>)
    requires forall e :: e in more ==> !e.Submitted?
    ensures Ordered(log + more) == Ordered(log) && LastRelease(log + more) == LastRelease(log)
    decreases |more|
  {
    if more == [] {
      assert log + more == log;
    } else {
      var k := |more| - 1;
      assert more[k] in more && forall e :: e in more[..k] ==> e in more;
      assert (log + more)[..|log + more| - 1] == log + more[..k];
      OrderedOn(log, more[..k]);
    }
  }

  /** What a step adds to the history. */
  ghost function Added(w: World, a: Action): seq<Entry>
    requires w.core.Valid() && Enabled(w, a)
  {
    match a
    case Probe(t, p, err, now, save) =>
      var r := w.core.mem[w.threads[t].name];
      Sighting(w.threads[t].name, p, err) + Saving(PersistenceRelevantChanged(r, AfterProbe(r, p, err, now)), save)
    case Start(t, now, save) => Saving(MayStart(w.core.mem[w.threads[t].name], w.core.auto[w.threads[t].name], now),
                                       save)
    case Submit(t, now) =>
      var s := w.threads[t];
      [Submitted(s.name, s.episode, s.authorizedAt, Cooldown(w.core), now)]
    case Reply(t, res, err, now, save) => Saving(true, save)
    case Clear(t, now, save) =>
      var attempted := Clearable(w.core.mem[w.threads[t].name]);
      (if attempted && save != FailedKeptOld then [Cleared(w.threads[t].name)] else []) + Saving(attempted, save)
    case Add(name, auto, now, save) => Saving(true, save)
    case Restart(opts, configured, now) => [Restarted]
    case _ => []
  }

  lemma StepAdds(w: World, a: Action)
    requires w.core.Valid() && Enabled(w, a)
    ensures w.clock <= Next(w, a).clock && Next(w, a).log == w.log + Added(w, a)
  {
    hide AfterProbe, AfterStart, AfterFailedStart, AfterUnlock, AfterClear, SaveAll, MayStart, UnlockDue;
    hide PersistenceRelevantChanged, Clearable;
    hide Sighting, Saving;
  }

  lemma AddedReleases(w: World, a: Action)
    requires w.core.Valid() && Enabled(w, a)
    ensures if a.Submit?
            then |Added(w, a)| == 1 && Added(w, a)[0].Submitted? && Added(w, a)[0].releasedAt == Next(w, a).clock
            else forall e :: e in Added(w, a) ==> !e.Submitted?
  {
    hide AfterProbe, MayStart, PersistenceRelevantChanged, Clearable;
  }

  lemma StepIsTimely(w: World, a: Action)
    requires Timely(w) && Enabled(w, a) && Next(w, a).core.Valid()
    ensures Timely(Next(w, a))
  {
    hide Next, Added, Enabled;
    StepAdds(w, a);
    AddedReleases(w, a);
    var more := Added(w, a);
    if a.Submit? {
      assert (w.log + more)[..|w.log|] == w.log;
    } else {
      OrderedOn(w.log, more);
    }
  }

  lemma {:induction false} RunIsTimely(opts: Options, auto: map<string, bool>, actions: seq<Action>, worlds: seq<World>,
                                       n: nat)
    requires opts.Valid() && Run(FirstStart(opts, auto), actions, worlds) && n < |worlds|
    ensures Timely(worlds[n])
  {
    hide Enabled, Next, Ordered, LastRelease;
    if n > 0 {
      RunIsTimely(opts, auto, actions, worlds, n - 1);
      assert worlds[n].core.Valid() by {
        ReachedIsValid(opts, auto, actions, worlds, n);
      }
      StepIsTimely(worlds[n - 1], actions[n - 1]);
    } else {
      NothingReleased(opts, auto);
    }
  }

  lemma ReachedIsValid(opts: Options, auto: map<string, bool>, actions: seq<Action>, worlds: seq<World>, n: nat)
    requires opts.Valid() && Run(FirstStart(opts, auto), actions, worlds) && n < |worlds|
    ensures worlds[n].core.Valid()
  {
    hide Run, SafeLog, RecordsFit, StageOk, SlotHolders;
    ReachedInv(opts, auto, actions, worlds, worlds[n]);
  }

  lemma NothingReleased(opts: Options, auto: map<string, bool>)
    requires opts.Valid()
    ensures Timely(FirstStart(opts, auto))
  {}

  lemma {:induction false} ReleaseRemembered(log: seq<Entry>, i: nat)
    requires Ordered(log) && i < |log| && log[i].Submitted?
    ensures log[i].releasedAt <= LastRelease(log)
    decreases |log|
  {
    if i < |log| - 1 {
      ReleaseRemembered(log[..|log| - 1], i);
    }
  }

  lemma {:induction false} ReleasesInOrder(log: seq<Entry>, i: nat, j: nat)
    requires Ordered(log) && i < j < |log| && log[i].Submitted? && log[j].Submitted?
    ensures log[i].releasedAt <= log[j].releasedAt
    decreases |log|
  {
    var before := log[..|log| - 1];
    if j < |log| - 1 {
      ReleasesInOrder(before, i, j);
    } else {
      ReleaseRemembered(before, i);
    }
  }

  // ---------------------------------------------------------------------------------
  // The bound.

  /** Of two releases to a device the later one comes no earlier than the first, and no
      earlier than the cooldown after the first one's authorisation. */
  lemma ReleasesApart(opts: Options, auto: map<string, bool>, actions: seq<Action>, worlds: seq<World>, last: World,
                      i: nat, j: nat, name: string)
    requires opts.Valid() && Run(FirstStart(opts, auto), actions, worlds) && last in worlds
    requires i < j < |last.log| && IsSubmission(last.log[i], name) && IsSubmission(last.log[j], name)
    ensures Max(last.log[i].authorizedAt + last.log[i].cooldown, last.log[i].releasedAt) <= last.log[j].releasedAt
  {
    hide Run;
    OneSubmissionPerEpisode(opts, auto, actions, worlds, last, i, j, name);
    var n :| 0 <= n < |worlds| && worlds[n] == last;
    RunIsTimely(opts, auto, actions, worlds, n);
    ReleasesInOrder(last.log, i, j);
  }

  // ---------------------------------------------------------------------------------
  // The bound is attained.

  /** Some run with these actions ends in this world. */
  ghost predicate Reaches(first: World, actions: seq<Action>, last: World) {
    exists worlds :: Run(first, actions, worlds) && worlds[|worlds| - 1] == last
  }

  lemma Extend(first: World, actions: seq<Action>, mid: World, a: Action)
    requires Reaches(first, actions, mid) && mid.core.Valid() && Enabled(mid, a)
    ensures Reaches(first, actions + [a], Next(mid, a))
  {
    hide Enabled, Next;
    var worlds :| Run(first, actions, worlds) && worlds[|worlds| - 1] == mid;
    var longer := worlds + [Next(mid, a)];
    assert Run(first, actions + [a], longer);
    assert longer[|longer| - 1] == Next(mid, a);
  }

  /** Nothing is going on. */
  predicate Idle(w: World) {
    w.threads == map[] && w.holders == map[] && w.slots == 0 && w.core.opts.Valid() &&
    w.core.auto.Keys == w.core.mem.Keys
  }

  /** One call, up to the start of its probe. */
  function Entered(w: World, name: string): World {
    w.(threads := map[0 := Probing(name)], holders := map[name := 0], slots := 1)
  }

  lemma EnterPoll(first: World, actions: seq<Action>, w: World, name: string)
    requires Reaches(first, actions, w) && Idle(w) && name in w.core.mem
    ensures Reaches(first, actions + [CallPoll(0, name)] + [LockPoll(0)] + [TakeSlot(0)], Entered(w, name))
  {
    hide Reaches;
    Extend(first, actions, w, CallPoll(0, name));
    var w1 := Next(w, CallPoll(0, name));
    Extend(first, actions + [CallPoll(0, name)], w1, LockPoll(0));
    var w2 := Next(w1, LockPoll(0));
    Extend(first, actions + [CallPoll(0, name)] + [LockPoll(0)], w2, TakeSlot(0));
    assert Next(w2, TakeSlot(0)) == Entered(w, name);
  }

  /** A whole poll that ends with its probe. */
  lemma QuietPoll(first: World, actions: seq<Action>, w: World, name: string, p: ProbeResult, now: nat)
    returns (longer: seq<Action>)
    requires Reaches(first, actions, w) && Idle(w) && name in w.core.mem && w.clock <= now
    requires !UnlockDue(AfterProbe(w.core.mem[name], p, NoError, now), p, NoError, w.core.auto[name], now)
    requires PersistenceRelevantChanged(w.core.mem[name], AfterProbe(w.core.mem[name], p, NoError, now))
    ensures var mem := w.core.mem[name := AfterProbe(w.core.mem[name], p, NoError, now)];
            Reaches(first, longer,
                    World(w.core.(mem := mem, durable := mem), now, map[], map[], 0,
                          w.log + Sighting(name, p, NoError) + [SaveSuccess]))
  {
    hide Reaches, AfterProbe, PersistenceRelevantChanged, UnlockDue;
    EnterPoll(first, actions, w, name);
    longer := actions + [CallPoll(0, name)] + [LockPoll(0)] + [TakeSlot(0)];
    var a := Probe(0, p, NoError, now, Saved);
    Extend(first, longer, Entered(w, name), a);
    longer := longer + [a];
    var mem := w.core.mem[name := AfterProbe(w.core.mem[name], p, NoError, now)];
    var w' := Next(Entered(w, name), a);
    assert w'.threads == map[] && w'.holders == map[];
    assert w.log + (Sighting(name, p, NoError) + [SaveSuccess]) == w.log + Sighting(name, p, NoError) + [SaveSuccess];
    assert w' == World(w.core.(mem := mem, durable := mem), now, map[], map[], 0,
                       w.log + Sighting(name, p, NoError) + [SaveSuccess]);
  }

  /** The history of a poll up to its authorised unlock: the sighting and its save, then the
      marker's save. */
  function Unlocking(log: seq<Entry>, name: string): seq<Entry> {
    log + [Observed(name, Locked), SaveSuccess] + [SaveSuccess]
  }

  /** A poll that finds the device locked and starts to unlock it at once; the credential goes
      out at `released`. */
  lemma UnlockingPoll(first: World, actions: seq<Action>, w: World, name: string, now: nat, released: nat)
    returns (longer: seq<Action>)
    requires Reaches(first, actions, w) && Idle(w) && name in w.core.mem && w.clock <= now <= released
    requires var p := ProbeResult(Locked, "", false);
             var r := AfterProbe(w.core.mem[name], p, NoError, now);
             UnlockDue(r, p, NoError, w.core.auto[name], now) && PersistenceRelevantChanged(w.core.mem[name], r) &&
             MayStart(r, w.core.auto[name], now)
    ensures var r := AfterProbe(w.core.mem[name], ProbeResult(Locked, "", false), NoError, now);
            var mem := w.core.mem[name := AfterStart(r, w.core.opts, now)];
            Reaches(first, longer,
                    World(w.core.(mem := mem, durable := mem), released,
                          map[0 := InUnlock(name, r.lockEpisode, now, true)], map[name := 0], 1,
                          Unlocking(w.log, name) + [Submitted(name, r.lockEpisode, now, Cooldown(w.core), released)]))
  {
    hide Reaches, AfterProbe, PersistenceRelevantChanged, UnlockDue, MayStart, AfterStart;
    var p := ProbeResult(Locked, "", false);
    var r := AfterProbe(w.core.mem[name], p, NoError, now);
    EnterPoll(first, actions, w, name);
    longer := actions + [CallPoll(0, name)] + [LockPoll(0)] + [TakeSlot(0)];
    Extend(first, longer, Entered(w, name), Probe(0, p, NoError, now, Saved));
    longer := longer + [Probe(0, p, NoError, now, Saved)];
    var mem1 := w.core.mem[name := r];
    var w1 := Next(Entered(w, name), Probe(0, p, NoError, now, Saved));
    assert w.log + (Sighting(name, p, NoError) + Saving(true, Saved)) == w.log + [Observed(name, Locked), SaveSuccess];
    assert w1 == World(w.core.(mem := mem1, durable := mem1), now, map[0 := Approved(name)], map[name := 0], 1,
                       w.log + [Observed(name, Locked), SaveSuccess]);
    Extend(first, longer, w1, Start(0, now, Saved));
    longer := longer + [Start(0, now, Saved)];
    var mem2 := w.core.mem[name := AfterStart(r, w.core.opts, now)];
    var w2 := Next(w1, Start(0, now, Saved));
    assert w1.log + Saving(true, Saved) == Unlocking(w.log, name) &&
           mem1[name := AfterStart(r, w.core.opts, now)] == mem2;
    assert w2 == World(w.core.(mem := mem2, durable := mem2), now, map[0 := InUnlock(name, r.lockEpisode, now, false)],
                       map[name := 0], 1, Unlocking(w.log, name));
    Extend(first, longer, w2, Submit(0, released));
    longer := longer + [Submit(0, released)];
    assert Next(w2, Submit(0, released)) ==
           World(w.core.(mem := mem2, durable := mem2), released, map[0 := InUnlock(name, r.lockEpisode, now, true)],
                 map[name := 0], 1,
                 Unlocking(w.log, name) + [Submitted(name, r.lockEpisode, now, Cooldown(w.core), released)]);
  }

  lemma EndUnlock(first: World, actions: seq<Action>, w: World, name: string, now: nat)
    requires Reaches(first, actions, w) && w.core.opts.Valid() && w.core.auto.Keys == w.core.mem.Keys && w.clock <= now
    requires w.threads.Keys == {0} && w.threads[0].InUnlock? && w.threads[0].name == name && name in w.core.mem
    requires w.holders == map[name := 0] && w.slots == 1
    ensures var mem := w.core.mem[name := AfterUnlock(w.core.mem[name], UnlockResult(true, ""), NoError, w.core.opts,
                                                      now)];
            Reaches(first, actions + [Reply(0, UnlockResult(true, ""), NoError, now, Saved)],
                    World(w.core.(mem := mem, durable := mem), now, map[], map[], 0, w.log + [SaveSuccess]))
  {
    hide Reaches, AfterUnlock;
    var a := Reply(0, UnlockResult(true, ""), NoError, now, Saved);
    Extend(first, actions, w, a);
    assert w.log + Saving(true, Saved) == w.log + [SaveSuccess];
    assert Next(w, a).threads == map[] && Next(w, a).holders == map[];
  }

  // The records of one device through a lock, a boot and another lock. The first unlock is
  // authorised at 1 and released `late` after it; the second is authorised as early as the
  // cooldown and the clock allow.
  const LOCKED := ProbeResult(Locked, "", false)
  const BOOTED := ProbeResult(Booted, "", false)

  function Again(opts: Options, late: nat): nat
    requires opts.Valid()
  {
    1 + Max(opts.unlockCooldown as int, late)
  }

  function FirstLocked(): DeviceRecord {
    AfterProbe(FreshRecord(0), LOCKED, NoError, 1)
  }

  function Unlocked(opts: Options, late: nat): DeviceRecord
    requires opts.Valid()
  {
    AfterUnlock(AfterStart(FirstLocked(), opts, 1), UnlockResult(true, ""), NoError, opts, 1 + late)
  }

  function Up(opts: Options, late: nat): DeviceRecord
    requires opts.Valid()
  {
    AfterProbe(Unlocked(opts, late), BOOTED, NoError, 1 + late)
  }

  function LockedAgain(opts: Options, late: nat): DeviceRecord
    requires opts.Valid()
  {
    AfterProbe(Up(opts, late), LOCKED, NoError, Again(opts, late))
  }

  lemma StoryPolicy(opts: Options, late: nat)
    requires opts.Valid()
    ensures UnlockDue(FirstLocked(), LOCKED, NoError, true, 1) && MayStart(FirstLocked(), true, 1)
    ensures PersistenceRelevantChanged(FreshRecord(0), FirstLocked())
    ensures !UnlockDue(Up(opts, late), BOOTED, NoError, true, 1 + late)
    ensures PersistenceRelevantChanged(Unlocked(opts, late), Up(opts, late))
    ensures UnlockDue(LockedAgain(opts, late), LOCKED, NoError, true, Again(opts, late))
    ensures MayStart(LockedAgain(opts, late), true, Again(opts, late))
    ensures PersistenceRelevantChanged(Up(opts, late), LockedAgain(opts, late))
  {}

  /** The world of the story's only device, with the same record in memory and on disk. */
  function OnlyMac(opts: Options, r: DeviceRecord, clock: nat, s: Option<Stage>, log: seq<Entry>): World {
    World(Core(opts, map["mac" := true], map["mac" := r], map["mac" := r]), clock,
          if s.Some? then map[0 := s.value] else map[],
          if s.Some? then map["mac" := 0] else map[], if s.Some? then 1 else 0, log)
  }

  function FirstRelease(opts: Options, late: nat): Entry
    requires opts.Valid()
  {
    Submitted("mac", FirstLocked().lockEpisode, 1, opts.unlockCooldown as int, 1 + late)
  }

  function SecondRelease(opts: Options, late: nat): Entry
    requires opts.Valid()
  {
    Submitted("mac", LockedAgain(opts, late).lockEpisode, Again(opts, late), opts.unlockCooldown as int,
              Again(opts, late))
  }

  function Beginning(opts: Options, late: nat): seq<Entry>
    requires opts.Valid()
  {
    Unlocking([], "mac") + [FirstRelease(opts, late)] + [SaveSuccess]
  }

  lemma StoryBegins(opts: Options, late: nat) returns (actions: seq<Action>)
    requires opts.Valid()
    ensures Reaches(FirstStart(opts, map["mac" := true]), actions,
                    OnlyMac(opts, Unlocked(opts, late), 1 + late, None, Beginning(opts, late)))
  {
    hide Reaches, AfterProbe, AfterStart, AfterUnlock, UnlockDue, MayStart, PersistenceRelevantChanged;
    StoryPolicy(opts, late);
    var w0 := FirstStart(opts, map["mac" := true]);
    EmptyRun(w0);
    actions := UnlockingPoll(w0, [], w0, "mac", 1, 1 + late);
    var log := Unlocking([], "mac") + [FirstRelease(opts, late)];
    var w1 := OnlyMac(opts, AfterStart(FirstLocked(), opts, 1), 1 + late,
                      Some(InUnlock("mac", FirstLocked().lockEpisode, 1, true)), log);
    assert w0.core.mem["mac" := AfterStart(FirstLocked(), opts, 1)] == w1.core.mem;
    EndUnlock(w0, actions, w1, "mac", 1 + late);
    assert w1.core.mem["mac" := Unlocked(opts, late)] == map["mac" := Unlocked(opts, late)];
    actions := actions + [Reply(0, UnlockResult(true, ""), NoError, 1 + late, Saved)];
  }

  lemma StoryEnds(opts: Options, late: nat, actions: seq<Action>, log: seq<Entry>) returns (longer: seq<Action>)
    requires opts.Valid()
    requires Reaches(FirstStart(opts, map["mac" := true]), actions,
                     OnlyMac(opts, Unlocked(opts, late), 1 + late, None, log))
    ensures Reaches(FirstStart(opts, map["mac" := true]), longer,
                OnlyMac(opts, AfterStart(LockedAgain(opts, late), opts, Again(opts, late)), Again(opts, late),
                        Some(InUnlock("mac", LockedAgain(opts, late).lockEpisode, Again(opts, late), true)),
                        Unlocking(log + [Observed("mac", Booted)] + [SaveSuccess],
                                  "mac") + [SecondRelease(opts, late)]))
  {
    hide Reaches, AfterProbe, AfterStart, AfterUnlock, UnlockDue, MayStart, PersistenceRelevantChanged;
    StoryPolicy(opts, late);
    var at := Again(opts, late);
    var w0, w2 := FirstStart(opts, map["mac" := true]), OnlyMac(opts, Unlocked(opts, late), 1 + late, None, log);
    longer := QuietPoll(w0, actions, w2, "mac", BOOTED, 1 + late);
    var w3 := OnlyMac(opts, Up(opts, late), 1 + late, None, log + [Observed("mac", Booted)] + [SaveSuccess]);
    assert w2.core.mem["mac" := Up(opts, late)] == w3.core.mem;
    longer := UnlockingPoll(w0, longer, w3, "mac", at, at);
    var r := AfterStart(LockedAgain(opts, late), opts, at);
    assert w3.core.mem["mac" := r] == map["mac" := r];
  }

  /** For all options and every delay some run has a second release at the earliest instant
      the bound allows after a first one released that late. */
  lemma BoundIsAttained(opts: Options, late: nat)
    returns (actions: seq<Action>, worlds: seq<World>, last: World, i: nat, j: nat)
    requires opts.Valid()
    ensures Run(FirstStart(opts, map["mac" := true]), actions, worlds) && last in worlds
    ensures i < j < |last.log| && IsSubmission(last.log[i], "mac") && IsSubmission(last.log[j], "mac")
    ensures last.log[i].cooldown == opts.unlockCooldown as int
    ensures last.log[i].releasedAt == last.log[i].authorizedAt + late
    ensures last.log[j].releasedAt == Max(last.log[i].authorizedAt + last.log[i].cooldown, last.log[i].releasedAt)
  {
    hide Run, AfterProbe, AfterStart, AfterUnlock;
    var w0, begin := FirstStart(opts, map["mac" := true]), Beginning(opts, late);
    actions := StoryBegins(opts, late);
    actions := StoryEnds(opts, late, actions, begin);
    var at := Again(opts, late);
    last := OnlyMac(opts, AfterStart(LockedAgain(opts, late), opts, at), at,
                    Some(InUnlock("mac", LockedAgain(opts, late).lockEpisode, at, true)),
                    Unlocking(begin + [Observed("mac", Booted)] + [SaveSuccess], "mac") + [SecondRelease(opts, late)]);
    worlds := Witness(w0, actions, last);
    i, j := 3, |last.log| - 1;
    assert last.log[3] == begin[3] == FirstRelease(opts, late);
  }

  lemma Witness(first: World, actions: seq<Action>, last: World) returns (worlds: seq<World>)
    requires Reaches(first, actions, last)
    ensures Run(first, actions, worlds) && last in worlds
  {
    hide Enabled, Next;
    worlds :| Run(first, actions, worlds) && worlds[|worlds| - 1] == last;
  }

  lemma EmptyRun(w: World)
    ensures Reaches(w, [], w)
  {
    assert Run(w, [], [w]);
  }

  /** In every run, a release that follows one which was `late` after its authorisation, under
      the given cooldown, comes at least the cooldown after it. */
  ghost predicate CooldownApart(cooldown: nat, late: nat) {
    forall opts: Options, auto: map<string, bool>, actions: seq<Action>, worlds: seq<World>,
           last: World, i: nat, j: nat, name: string ::
      opts.Valid() && Run(FirstStart(opts, auto), actions, worlds) && last in worlds &&
      i < j < |last.log| && IsSubmission(last.log[i], name) && IsSubmission(last.log[j], name) &&
      last.log[i].cooldown == cooldown && last.log[i].releasedAt == last.log[i].authorizedAt + late ==>
        last.log[i].releasedAt + cooldown <= last.log[j].releasedAt
  }

  /** Releases are guaranteed a cooldown apart exactly when the earlier one goes out at its
      authorisation, or there is no cooldown. */
  lemma CooldownApartIffNotLate(cooldown: nat, late: nat)
    requires cooldown <= MAX_DURATION
    ensures CooldownApart(cooldown, late) <==> late == 0 || cooldown == 0
  {
    hide Run;
    if late == 0 || cooldown == 0 {
      forall opts: Options, auto: map<string, bool>, actions: seq<Action>, worlds: seq<World>,
             last: World, i: nat, j: nat, name: string |
        opts.Valid() && Run(FirstStart(opts, auto), actions, worlds) && last in worlds &&
        i < j < |last.log| && IsSubmission(last.log[i], name) && IsSubmission(last.log[j], name) &&
        last.log[i].cooldown == cooldown && last.log[i].releasedAt == last.log[i].authorizedAt + late
        ensures last.log[i].releasedAt + cooldown <= last.log[j].releasedAt
      {
        ReleasesApart(opts, auto, actions, worlds, last, i, j, name);
      }
    } else {
      var opts := Options(1, 1, cooldown as Duration, 1);
      var actions, worlds, last, i, j := BoundIsAttained(opts, late);
      assert last.log[j].releasedAt < last.log[i].releasedAt + cooldown;
    }
  }
}
