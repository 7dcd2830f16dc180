/** One enrollment from its second check to its end, in the middle of everything else that
    happens in a run: what its rollback restores, and what the other writers find. */
module EnrollmentRuns {
  import opened Shared
  import ConfigStore
  import KnownHosts
  import opened Enrollment
  import opened EnrollmentSafety

  /** Call `t` keeps the mutex from world `i` until just before world `j`. */
  ghost predicate Keeps(worlds: seq<World>, t: nat, i: nat, j: nat) {
    i <= j < |worlds| && forall k :: i <= k < j ==> worlds[k].holder == Some(t)
  }

  lemma HolderIsThere(w: World, t: nat, rules: EnrollRules)
    requires Inv(w, rules) && w.holder == Some(t)
    ensures t in w.calls && w.calls[t].stage.HoldsMutex()
  {
    hide ReservedOk, PinsOk, CallOk;
  }

  predicate ActsFor(a: Action, t: nat) {
    IsEnrollmentStep(a) && a.t == t
  }

  predicate IsOthers(a: Action) {
    a.ProbeHost? || a.GiveUp? || a.InboxChanges? || a.StoreWritten? || a.HostsWritten?
  }

  /** While a call holds the mutex, the other calls only probe and give up. */
  lemma OthersProbe(w: World, a: Action, t: nat, rules: EnrollRules)
    requires Inv(w, rules) && Enabled(w, a, rules) && w.holder == Some(t) && !ActsFor(a, t)
    ensures IsOthers(a)
  {
    if IsEnrollmentStep(a) && a.t in w.calls {
      OnlyOneHolds(w, a.t, t, rules);
    }
    hide Inv, KnownHosts.Sound, Neutral;
  }

  lemma ProbingIsQuiet(w: World, a: Action, t: nat, rules: EnrollRules)
    requires Enabled(w, a, rules) && IsOthers(a) && !ActsFor(a, t) && t in w.calls
    ensures var w' := Next(w, a, rules);
            && t in w'.calls && w'.calls[t] == w.calls[t] && w'.adapter == w.adapter
            && w'.store == (if a.StoreWritten? then a.store else w.store)
            && w'.hosts == (if a.HostsWritten? then a.hosts else w.hosts)
  {
    hide CheckHostKey, KnownHosts.Sound, Neutral;
  }

  /** So they leave the call, the adapter and the files alone; other processes do not. */
  lemma OthersWait(w: World, a: Action, t: nat, rules: EnrollRules)
    requires Inv(w, rules) && Enabled(w, a, rules) && w.holder == Some(t) && !ActsFor(a, t)
    ensures var w' := Next(w, a, rules);
            && t in w.calls && t in w'.calls && w'.calls[t] == w.calls[t] && w'.adapter == w.adapter
            && w'.store == (if a.StoreWritten? then a.store else w.store)
            && w'.hosts == (if a.HostsWritten? then a.hosts else w.hosts)
  {
    hide Inv, Enabled, Next, IsOthers;
    HolderIsThere(w, t, rules);
    OthersProbe(w, a, t, rules);
    ProbingIsQuiet(w, a, t, rules);
  }

  lemma OnlyOneHolds(w: World, u: nat, t: nat, rules: EnrollRules)
    requires Inv(w, rules) && w.holder == Some(t) && u in w.calls && u != t
    ensures !w.calls[u].stage.HoldsMutex()
  {
    hide ReservedOk, PinsOk, CallOk;
  }

  // ---------------------------------------------------------------------------------
  // The adapter.

  /** Where a call stands towards the adapter: not served yet, served, about to be dropped
      from it, dropped. */
  datatype Serving = Unserved | Served | Dropping | Dropped | Elsewhere

  function ServingOf(s: Stage): Serving {
    match s
    case Locked(_) => Unserved
    case Rechecked(_, _) => Unserved
    case Registered(_, _) => Unserved
    case Serving(_, _) => Served
    case Pinned(_, _) => Served
    case UndoAdapter(_, _) => Dropping
    case UndoKey(_, _) => Dropped
    case UndoStore(_, _, _) => Dropped
    case Closing(outcome) => if outcome.Refused? then Unserved else if outcome.Enrolled? then Served else Dropped
    case _ => Elsewhere
  }

  /** What the adapter holds when it was `before` ahead of the second check. */
  predicate Holds(serving: Serving, adapter: map<string, Device>, before: map<string, Device>, d: Device) {
    match serving
    case Unserved => adapter == before
    case Served => adapter == before[d.name := d]
    case Dropping => adapter == before || adapter == before[d.name := d]
    case Dropped => adapter == before - {d.name}
    case Elsewhere => false
  }

  predicate AdapterPhase(w: World, t: nat, before: map<string, Device>, d: Device) {
    t in w.calls && w.calls[t].device == d && Holds(ServingOf(w.calls[t].stage), w.adapter, before, d)
  }

  /** How one step of the call may move it, as the adapter sees it. */
  predicate Moves(s: Stage, adapter: map<string, Device>, s': Stage, adapter': map<string, Device>, d: Device) {
    match ServingOf(s)
    case Unserved =>
      || (ServingOf(s') in {Unserved, Dropping} && adapter' == adapter)
      || (ServingOf(s') == Served && adapter' == adapter[d.name := d])
    case Served => ServingOf(s') in {Served, Dropping} && adapter' == adapter
    case Dropping => ServingOf(s') == Dropped && adapter' == adapter - {d.name}
    case Dropped => ServingOf(s') == Dropped && adapter' == adapter
    case Elsewhere => true
  }

  predicate MovesIn(w: World, w': World, t: nat) {
    t in w.calls && t in w'.calls && w'.calls[t].device == w.calls[t].device &&
    Moves(w.calls[t].stage, w.adapter, w'.calls[t].stage, w'.adapter, w.calls[t].device)
  }

  lemma ForwardMoves(w: World, t: nat, canceled: bool, loadable: bool, weather: ConfigStore.Weather, rules: EnrollRules)
    requires t in w.calls
    ensures w.calls[t].stage.Locked? ==> MovesIn(w, DoRecheck(w, t, canceled, loadable, rules), t)
    ensures w.calls[t].stage.Rechecked? ==> MovesIn(w, DoRegister(w, t, weather, rules), t)
    ensures w.calls[t].stage.Registered? ==> MovesIn(w, DoServe(w, t, canceled), t)
  {
    hide Enrollable, DeviceOf, AsRequested, ConfigStore.AddDevice;
  }

  lemma ServedMoves(w: World, t: nat, located: bool, commit: KnownHosts.CommitWeather, canceled: bool,
                    save: SaveOutcome)
    requires t in w.calls
    ensures w.calls[t].stage.Serving? ==> MovesIn(w, DoPin(w, t, located, commit), t)
    ensures w.calls[t].stage.Pinned? ==> MovesIn(w, DoJoin(w, t, canceled, save), t)
  {
    hide KnownHosts.Commit;
  }

  lemma BackwardMoves(w: World, t: nat, located: bool, readable: bool, save: SaveOutcome, weather: ConfigStore.Weather,
                      rules: EnrollRules)
    requires t in w.calls
    ensures w.calls[t].stage.UndoAdapter? ==> MovesIn(w, DoDropAdapter(w, t), t)
    ensures w.calls[t].stage.UndoKey? ==> MovesIn(w, DoDropKey(w, t, located, readable, save), t)
    ensures w.calls[t].stage.UndoStore? ==> MovesIn(w, DoDropStore(w, t, weather, rules), t)
  {
    hide ConfigStore.RemoveIfUnchanged, KnownHosts.RemoveLine;
  }

  lemma OwnServingStep(w: World, a: Action, t: nat, rules: EnrollRules)
    requires Enabled(w, a, rules) && ActsFor(a, t) && t in w.calls && w.calls[t].stage.HoldsMutex()
    ensures MovesIn(w, Next(w, a, rules), t)
  {
    hide MovesIn, DoBegin, DoProbe, DoRecheck, DoRegister, DoServe, DoPin, DoJoin, DoDropAdapter, DoDropKey;
    hide DoDropStore, DoEnd, KnownHosts.Sound;
    var fine := ConfigStore.Weather(true, true, Saved);
    match a
    case Recheck(_, canceled, loadable) => ForwardMoves(w, t, canceled, loadable, fine, rules);
    case Register(_, weather) => ForwardMoves(w, t, false, true, weather, rules);
    case Serve(_, canceled) => ForwardMoves(w, t, canceled, true, fine, rules);
    case Pin(_, located, commit) => ServedMoves(w, t, located, commit, false, Saved);
    case Join(_, canceled, save) => ServedMoves(w, t, true, KnownHosts.CommitWeather(true, Saved, true), canceled,
                                                save);
    case DropAdapter(_) => BackwardMoves(w, t, true, true, Saved, fine, rules);
    case DropKey(_, located, readable, save) => BackwardMoves(w, t, located, readable, save, fine, rules);
    case DropStore(_, weather) => BackwardMoves(w, t, true, true, Saved, weather, rules);
    case _ =>
  }

  lemma MoveHolds(s: Stage, adapter: map<string, Device>, s': Stage, adapter': map<string, Device>,
                  before: map<string, Device>, d: Device)
    requires Moves(s, adapter, s', adapter', d) && Holds(ServingOf(s), adapter, before, d)
    ensures Holds(ServingOf(s'), adapter', before, d)
  {
    hide ServingOf;
    assert before[d.name := d] - {d.name} == before - {d.name};
    assert before[d.name := d][d.name := d] == before[d.name := d];
  }

  lemma OwnAdapterStep(w: World, a: Action, t: nat, before: map<string, Device>, d: Device, rules: EnrollRules)
    requires Enabled(w, a, rules) && ActsFor(a, t) && AdapterPhase(w, t, before, d) && w.calls[t].stage.HoldsMutex()
    ensures AdapterPhase(Next(w, a, rules), t, before, d)
  {
    hide Next, Enabled, ServingOf, Moves, Holds;
    OwnServingStep(w, a, t, rules);
    var w' := Next(w, a, rules);
    MoveHolds(w.calls[t].stage, w.adapter, w'.calls[t].stage, w'.adapter, before, d);
  }

  lemma AdapterStep(w: World, a: Action, t: nat, before: map<string, Device>, d: Device, rules: EnrollRules)
    requires Inv(w, rules) && Enabled(w, a, rules) && w.holder == Some(t) && AdapterPhase(w, t, before, d)
    ensures AdapterPhase(Next(w, a, rules), t, before, d)
  {
    hide Inv, Next, Enabled;
    if ActsFor(a, t) {
      HolderIsThere(w, t, rules);
      OwnAdapterStep(w, a, t, before, d, rules);
    } else {
      OthersWait(w, a, t, rules);
    }
  }

  lemma {:induction false} AdapterAlong(worlds: seq<World>, actions: seq<Action>, rules: EnrollRules, i: nat, j: nat,
                                        t: nat,
                                        before: map<string, Device>, d: Device)
    requires Run(worlds, actions, rules) && Keeps(worlds, t, i, j) && AdapterPhase(worlds[i], t, before, d)
    ensures AdapterPhase(worlds[j], t, before, d)
    decreases j
  {
    hide Enabled, Next, AdapterPhase;
    if i < j {
      AdapterAlong(worlds, actions, rules, i, j - 1, t, before, d);
      RunKeepsInv(worlds, actions, rules, j - 1);
      hide Inv;
      AdapterStep(worlds[j - 1], actions[j - 1], t, before, d, rules);
    }
  }

  /** The rollback has dropped the adapter's entry. */
  predicate PastDropAdapter(s: Stage) {
    s.UndoKey? || s.UndoStore? || (s.Closing? && (s.outcome.RolledBack? || s.outcome.RollbackIncomplete?))
  }

  /** In every run, a call that was registered and has since rolled its adapter entry back
      leaves the adapter without the name, and otherwise as it was: so it restores the adapter
      exactly when the name was free before. */
  lemma RollbackRestoresAdapterIffNameWasFree(worlds: seq<World>, actions: seq<Action>, rules: EnrollRules, i: nat,
                                              j: nat, t: nat)
    requires Run(worlds, actions, rules) && Keeps(worlds, t, i, j)
    requires t in worlds[i].calls && worlds[i].calls[t].stage.Registered?
    requires t in worlds[j].calls && PastDropAdapter(worlds[j].calls[t].stage)
    ensures var name := worlds[i].calls[t].device.name;
            && worlds[j].adapter == worlds[i].adapter - {name}
            && (worlds[j].adapter == worlds[i].adapter <==> name !in worlds[i].adapter)
  {
    hide Run;
    assert AdapterPhase(worlds[i], t, worlds[i].adapter, worlds[i].calls[t].device);
    AdapterAlong(worlds, actions, rules, i, j, t, worlds[i].adapter, worlds[i].calls[t].device);
  }

  // ---------------------------------------------------------------------------------
  // The two files.

  /** The inventory as the other processes leave it. */
  function StoreLeft(store: seq<Device>, actions: seq<Action>, i: nat, j: nat): seq<Device>
    requires i <= j <= |actions|
    decreases j
  {
    if i == j then store
    else if actions[j - 1].StoreWritten? then actions[j - 1].store
    else StoreLeft(store, actions, i, j - 1)
  }

  /** The known_hosts file as the other processes leave it. */
  function HostsLeft(hosts: Bytes, actions: seq<Action>, i: nat, j: nat): Bytes
    requires i <= j <= |actions|
    decreases j
  {
    if i == j then hosts
    else if actions[j - 1].HostsWritten? then actions[j - 1].hosts
    else HostsLeft(hosts, actions, i, j - 1)
  }

  /** The call has put this line into the file, or a line it does not know of. */
  predicate Wrote(c: Call, line: Bytes) {
    Owned(c) == Some(line) ||
    match c.stage
    case UndoAdapter(_, stray) => stray
    case UndoKey(_, stray) => stray
    case UndoStore(_, stray, _) => stray
    case Closing(outcome) => outcome.RolledBack? && outcome.stray
    case _ => false
  }

  lemma SameDevice(w: World, a: Action, t: nat, rules: EnrollRules)
    requires Enabled(w, a, rules) && ActsFor(a, t) && t in w.calls && w.calls[t].stage.HoldsMutex()
    ensures t in Next(w, a, rules).calls && Next(w, a, rules).calls[t].device == w.calls[t].device
  {
    hide Enrollable, CheckHostKey, DeviceOf, AsRequested, KnownHosts.Sound;
    hide ConfigStore.AddDevice, ConfigStore.RemoveIfUnchanged, KnownHosts.Commit, KnownHosts.RemoveLine;
  }

  /** Only pinning and dropping the key touch known_hosts; the end of a call touches nothing. */
  lemma QuietSteps(w: World, a: Action, t: nat, rules: EnrollRules)
    requires Enabled(w, a, rules) && ActsFor(a, t) && t in w.calls && w.calls[t].stage.HoldsMutex()
    ensures !a.Pin? && !a.DropKey? ==> Next(w, a, rules).hosts == w.hosts
    ensures t in Next(w, a, rules).calls && Next(w, a, rules).calls[t].stage.Closing? ==>
              Next(w, a, rules).hosts == w.hosts
  {
    hide Enrollable, CheckHostKey, DeviceOf, AsRequested, KnownHosts.Sound;
    hide ConfigStore.AddDevice, ConfigStore.RemoveIfUnchanged, KnownHosts.Commit, KnownHosts.RemoveLine;
  }

  /** Before its end, a call that has written a line remembers it. */
  lemma Remembers(w: World, a: Action, t: nat, line: Bytes, rules: EnrollRules)
    requires Enabled(w, a, rules) && ActsFor(a, t) && t in w.calls && Wrote(w.calls[t], line)
    ensures t in Next(w, a, rules).calls ==>
              Next(w, a, rules).calls[t].stage.Closing? || Wrote(Next(w, a, rules).calls[t], line)
  {
    hide Enrollable, CheckHostKey, DeviceOf, AsRequested, KnownHosts.Sound;
    hide ConfigStore.AddDevice, ConfigStore.RemoveIfUnchanged, KnownHosts.Commit, KnownHosts.RemoveLine;
  }

  lemma PinStepOnLine(w: World, t: nat, located: bool, commit: KnownHosts.CommitWeather, line: Bytes,
                      rules: EnrollRules)
    requires Inv(w, rules) && t in w.calls && w.calls[t].stage.Serving? && KnownHosts.IsLine(line)
    ensures var w' := DoPin(w, t, located, commit);
            !Wrote(w'.calls[t], line) ==> (KnownHosts.Present(w'.hosts, line) <==> KnownHosts.Present(w.hosts, line))
  {
    hide Inv, KnownHosts.Sound, KnownHosts.Commit, KnownHosts.Present, KnownHosts.IsLine;
    ServedKeyIsSound(w, t, rules);
    PinOnLine(w.hosts, w.calls[t].stage.key, commit, line);
  }

  lemma DropStepOnLine(w: World, t: nat, located: bool, readable: bool, save: SaveOutcome, line: Bytes)
    requires t in w.calls && w.calls[t].stage.UndoKey? && KnownHosts.IsLine(line)
    ensures var w' := DoDropKey(w, t, located, readable, save);
            !Wrote(w'.calls[t], line) ==> (KnownHosts.Present(w'.hosts, line) <==> KnownHosts.Present(w.hosts, line))
  {
    hide KnownHosts.RemoveLine, KnownHosts.Present, KnownHosts.IsLine;
    if w.calls[t].stage.owned != Some(line) {
      RemoveSparesOthers(w.hosts, w.calls[t].stage.owned, readable, save, line);
    }
  }

  lemma OwnStepOnLine(w: World, a: Action, t: nat, line: Bytes, rules: EnrollRules)
    requires Inv(w, rules) && Enabled(w, a, rules) && w.holder == Some(t) && ActsFor(a, t) && KnownHosts.IsLine(line)
    ensures var w' := Next(w, a, rules);
            && t in w.calls && t in w'.calls && w'.calls[t].device == w.calls[t].device
            && (w'.calls[t].stage.Closing? ==> w'.hosts == w.hosts)
            && (!w'.calls[t].stage.Closing? && !Wrote(w'.calls[t], line) ==>
                  !Wrote(w.calls[t], line) &&
                  (KnownHosts.Present(w'.hosts, line) <==> KnownHosts.Present(w.hosts, line)))
  {
    HolderIsThere(w, t, rules);
    hide Inv, Wrote, KnownHosts.IsLine, KnownHosts.Present, DoPin, DoDropKey;
    SameDevice(w, a, t, rules);
    QuietSteps(w, a, t, rules);
    if Wrote(w.calls[t], line) {
      Remembers(w, a, t, line, rules);
    }
    if a.Pin? {
      PinStepOnLine(w, t, a.located, a.commit, line, rules);
    } else if a.DropKey? {
      DropStepOnLine(w, t, a.located, a.readable, a.save, line);
    }
    hide DoBegin, DoProbe, DoRecheck, DoRegister, DoServe, DoJoin, DoDropAdapter, DoDropStore, DoEnd;
  }

  /** A pin that neither claims a line nor leaves a stray one has left its presence alone. */
  lemma PinOnLine(hosts: Bytes, key: Option<HostKey>, commit: KnownHosts.CommitWeather, line: Bytes)
    requires KnownHosts.Sound(PendingOf(key)) && KnownHosts.IsLine(line)
    ensures var out := KnownHosts.Commit(hosts, PendingOf(key), commit);
            && (!(out.inserted && key.Some? && key.value.line == line) && !(out.content != hosts && !out.inserted) ==>
                  (KnownHosts.Present(out.content, line) <==> KnownHosts.Present(hosts, line)))
            && (out.ok && !out.inserted ==> out.content == hosts)
  {
    KnownHosts.CommitClaimsItsOwn(hosts, PendingOf(key), commit);
    if key.None? || key.value.line != line {
      CommitSparesOthers(hosts, PendingOf(key), commit, line);
    }
    hide KnownHosts.Commit, KnownHosts.Present, KnownHosts.Appended;
  }

  /** What the files hold besides the call's own work. */
  ghost predicate FilesPhase(w: World, t: nat, d: Device, x: Device, line: Bytes, store: seq<Device>, hosts: Bytes) {
    && t in w.calls && w.calls[t].device == d
    && (x != d ==> (x in w.store <==> x in store))
    && (!w.calls[t].stage.Closing? && !Wrote(w.calls[t], line) ==>
          (KnownHosts.Present(w.hosts, line) <==> KnownHosts.Present(hosts, line)))
  }

  lemma FilesStep(w: World, a: Action, rules: EnrollRules, t: nat, d: Device, x: Device, line: Bytes,
                  store: seq<Device>, hosts: Bytes)
    requires Inv(w, rules) && Enabled(w, a, rules) && w.holder == Some(t) && KnownHosts.IsLine(line)
    requires FilesPhase(w, t, d, x, line, store, hosts)
    ensures FilesPhase(Next(w, a, rules), t, d, x, line,
                       if a.StoreWritten? then a.store else store, if a.HostsWritten? then a.hosts else hosts)
  {
    HolderIsThere(w, t, rules);
    hide Inv, Next, Enabled, Wrote, KnownHosts.Present, KnownHosts.IsLine;
    if ActsFor(a, t) {
      OwnStepOnLine(w, a, t, line, rules);
      if x != d {
        OtherDevicesSurvive(w, a, rules, x);
      }
    } else {
      OthersWait(w, a, t, rules);
    }
  }

  lemma {:induction false} FilesAlong(worlds: seq<World>, actions: seq<Action>, rules: EnrollRules, i: nat, j: nat,
                                      t: nat, x: Device, line: Bytes)
    requires Run(worlds, actions, rules) && Keeps(worlds, t, i, j) && KnownHosts.IsLine(line)
    requires t in worlds[i].calls
    ensures FilesPhase(worlds[j], t, worlds[i].calls[t].device, x, line,
                       StoreLeft(worlds[i].store, actions, i, j), HostsLeft(worlds[i].hosts, actions, i, j))
    decreases j
  {
    hide Enabled, Next, Wrote, KnownHosts.Present, KnownHosts.IsLine;
    if i < j {
      FilesAlong(worlds, actions, rules, i, j - 1, t, x, line);
      RunKeepsInv(worlds, actions, rules, j - 1);
      hide Inv, FilesPhase;
      FilesStep(worlds[j - 1], actions[j - 1], rules, t, worlds[i].calls[t].device, x, line,
                StoreLeft(worlds[i].store, actions, i, j - 1), HostsLeft(worlds[i].hosts, actions, i, j - 1));
    }
  }

  lemma OnlyDropStoreRollsBack(w: World, a: Action, t: nat, rules: EnrollRules)
    requires Enabled(w, a, rules) && ActsFor(a, t) && t in w.calls && w.calls[t].stage.HoldsMutex()
    requires t in Next(w, a, rules).calls && Next(w, a, rules).calls[t].stage == Closing(RolledBack(false))
    ensures a.DropStore? && w.calls[t].stage.UndoStore? && !w.calls[t].stage.stray && Next(w, a, rules).hosts == w.hosts
  {
    hide Enrollable, CheckHostKey, DeviceOf, AsRequested, KnownHosts.Sound;
    hide ConfigStore.AddDevice, ConfigStore.RemoveIfUnchanged, KnownHosts.Commit, KnownHosts.RemoveLine;
  }

  /** A call is rolled back by its last undo step only, and without a stray line. */
  lemma RolledBackByDropStore(w: World, a: Action, t: nat, rules: EnrollRules)
    requires Inv(w, rules) && Enabled(w, a, rules) && w.holder == Some(t)
    requires t in Next(w, a, rules).calls && Next(w, a, rules).calls[t].stage == Closing(RolledBack(false))
    ensures a.DropStore? && a.t == t && t in w.calls && w.calls[t].stage.UndoStore? && !w.calls[t].stage.stray
    ensures Next(w, a, rules).hosts == w.hosts
  {
    hide Inv, Enabled, Next;
    HolderIsThere(w, t, rules);
    if ActsFor(a, t) {
      OnlyDropStoreRollsBack(w, a, t, rules);
    } else {
      OthersWait(w, a, t, rules);
    }
  }

  /** The last step of a completed rollback. */
  lemma RollbackEnds(w: World, a: Action, rules: EnrollRules, t: nat, d: Device, line: Bytes, hosts: Bytes, w': World)
    requires Inv(w, rules) && Enabled(w, a, rules) && w' == Next(w, a, rules) && w.holder == Some(t)
    requires t in w'.calls && w'.calls[t].stage == Closing(RolledBack(false))
    requires t in w.calls && w.calls[t].device == d
    requires !w.calls[t].stage.Closing? && !Wrote(w.calls[t], line) ==>
               (KnownHosts.Present(w.hosts, line) <==> KnownHosts.Present(hosts, line))
    ensures a.DropStore?
    ensures KnownHosts.Present(w'.hosts, line) <==> KnownHosts.Present(hosts, line) && Owned(w.calls[t]) != Some(line)
    ensures !ConfigStore.Named(w'.store, d.name) && d.name !in w'.adapter
  {
    hide Inv, Enabled, Next, KnownHosts.Present, ConfigStore.Named;
    RolledBackByDropStore(w, a, t, rules);
    DropStoreIsEnabled(w, a, t, rules);
    CompletedRollbackLeavesNothing(w, t, a.weather, rules);
  }

  lemma DropStoreIsEnabled(w: World, a: Action, t: nat, rules: EnrollRules)
    requires a.DropStore? && a.t == t
    ensures a == DropStore(t, a.weather)
  {}

  lemma NotNamedIsAbsent(store: seq<Device>, d: Device)
    ensures !ConfigStore.Named(store, d.name) ==> d !in store
  {}

  /** What the run offers to its last step in a window. */
  lemma LastStep(worlds: seq<World>, actions: seq<Action>, rules: EnrollRules, i: nat, j: nat, t: nat)
    requires Run(worlds, actions, rules) && i < j && Keeps(worlds, t, i, j)
    ensures j < |worlds| == |actions| + 1 && Keeps(worlds, t, i, j - 1) && worlds[j - 1].holder == Some(t)
    ensures Enabled(worlds[j - 1], actions[j - 1], rules) && worlds[j] == Next(worlds[j - 1], actions[j - 1], rules)
  {
    hide Enabled, Next;
  }

  /** All or nothing, over a whole run. From its second check to the end of a completed
      rollback, whatever else happened: the inventory has exactly the devices the other writers
      left, without the enrollment's own; known_hosts has exactly the lines they left, without
      the one the enrollment wrote; and the adapter does not know the name. */
  lemma RollbackLeavesOthersWork(worlds: seq<World>, actions: seq<Action>, rules: EnrollRules, i: nat, j: nat, t: nat,
                                 x: Device, line: Bytes)
    requires Run(worlds, actions, rules) && i < j && Keeps(worlds, t, i, j) && KnownHosts.IsLine(line)
    requires t in worlds[i].calls && worlds[i].calls[t].stage.Rechecked?
    requires t in worlds[j].calls && worlds[j].calls[t].stage == Closing(RolledBack(false))
    ensures var d := worlds[i].calls[t].device;
            && (x in worlds[j].store <==> x in StoreLeft(worlds[i].store, actions, i, j) && x != d)
            && t in worlds[j - 1].calls
            && (KnownHosts.Present(worlds[j].hosts, line) <==>
                  KnownHosts.Present(HostsLeft(worlds[i].hosts, actions, i, j), line) &&
                  Owned(worlds[j - 1].calls[t]) != Some(line))
            && !ConfigStore.Named(worlds[j].store, d.name) && d.name !in worlds[j].adapter
  {
    hide Run, Keeps, Enabled, Next, Inv, Wrote, KnownHosts.Present, KnownHosts.IsLine, ConfigStore.Named;
    LastStep(worlds, actions, rules, i, j, t);
    RunKeepsInv(worlds, actions, rules, j - 1);
    FilesAlong(worlds, actions, rules, i, j - 1, t, x, line);
    FilesAlong(worlds, actions, rules, i, j, t, x, line);
    var d := worlds[i].calls[t].device;
    RollbackEnds(worlds[j - 1], actions[j - 1], rules, t, d, line, HostsLeft(worlds[i].hosts, actions, i, j - 1),
                 worlds[j]);
    NotNamedIsAbsent(worlds[j].store, d);
  }

  // ---------------------------------------------------------------------------------
  // A registration that failed after the inventory was in place.

  /** Nobody but the owner of a device, or another process, takes it out of the inventory. */
  predicate Spares(w: World, a: Action, d: Device) {
    !a.StoreWritten? && ((a.Register? || a.DropStore?) && a.t in w.calls ==> w.calls[a.t].device != d)
  }

  lemma SparedStays(w: World, a: Action, rules: EnrollRules, d: Device)
    requires Enabled(w, a, rules) && Spares(w, a, d) && d in w.store
    ensures d in Next(w, a, rules).store
  {
    hide Enabled, Next;
    if a.Register? || a.DropStore? {
      SparedByOthers(w, a, rules, d);
    } else {
      StoreUntouched(w, a, rules);
    }
  }

  lemma SparedByOthers(w: World, a: Action, rules: EnrollRules, d: Device)
    requires Enabled(w, a, rules) && Spares(w, a, d) && d in w.store && (a.Register? || a.DropStore?)
    ensures d in Next(w, a, rules).store
  {
    hide Next;
    OtherDevicesSurvive(w, a, rules, d);
  }

  lemma StoreUntouched(w: World, a: Action, rules: EnrollRules)
    requires Enabled(w, a, rules) && !a.Register? && !a.DropStore? && !a.StoreWritten?
    ensures Next(w, a, rules).store == w.store
  {
    hide Enrollable, CheckHostKey, DeviceOf, AsRequested, Neutral, Owned;
    hide KnownHosts.Sound, KnownHosts.Commit, KnownHosts.RemoveLine;
  }

  lemma {:induction false} SparedAlong(worlds: seq<World>, actions: seq<Action>, rules: EnrollRules, i: nat, j: nat,
                                       d: Device)
    requires Run(worlds, actions, rules) && i <= j < |worlds| && d in worlds[i].store
    requires forall k :: i <= k < j ==> Spares(worlds[k], actions[k], d)
    ensures d in worlds[j].store
    decreases j
  {
    hide Enabled, Next, Spares;
    if i < j {
      SparedAlong(worlds, actions, rules, i, j - 1, d);
      SparedStays(worlds[j - 1], actions[j - 1], rules, d);
    }
  }

  lemma StepOfRun(worlds: seq<World>, actions: seq<Action>, rules: EnrollRules, i: nat)
    requires Run(worlds, actions, rules) && i + 1 < |worlds|
    ensures |worlds| == |actions| + 1 && Enabled(worlds[i], actions[i], rules)
    ensures worlds[i + 1] == Next(worlds[i], actions[i], rules)
  {
    hide Enabled, Next;
  }

  /** In every run, a registration is refused and yet leaves its device in the inventory
      exactly when the save failed after the replacement; and then the device stays until
      another process, or another enrollment of the same device, takes it out: the enrollment
      that wrote it never does. */
  lemma LeftEntryStays(worlds: seq<World>, actions: seq<Action>, rules: EnrollRules, i: nat, j: nat, t: nat,
                       weather: ConfigStore.Weather)
    requires Run(worlds, actions, rules) && i < j < |worlds| && actions[i] == Register(t, weather)
    requires t in worlds[i].calls && forall k :: i < k < j ==> Spares(worlds[k], actions[k], worlds[i].calls[t].device)
    ensures var d := worlds[i].calls[t].device;
            && t in worlds[i + 1].calls
            && (worlds[i + 1].calls[t].stage == Closing(Refused(true)) <==>
                  weather.locked && weather.readable && weather.save == FailedReplaced &&
                  ConfigStore.ValidInventory(worlds[i].store, rules.config) &&
                  !ConfigStore.Named(worlds[i].store, d.name) &&
                  ConfigStore.ValidInventory(worlds[i].store + [d], rules.config))
            && (worlds[i + 1].calls[t].stage == Closing(Refused(true)) ==> d in worlds[j].store)
  {
    hide Run, Inv, Enabled, Next, Spares, ConfigStore.ValidInventory, ConfigStore.Named;
    StepOfRun(worlds, actions, rules, i);
    RunKeepsInv(worlds, actions, rules, i);
    RegistrationEnds(worlds[i], worlds[i + 1], t, weather, rules);
    if worlds[i + 1].calls[t].stage == Closing(Refused(true)) {
      SparedAlong(worlds, actions, rules, i + 1, j, worlds[i].calls[t].device);
    }
  }

  lemma RegistrationEnds(w: World, w': World, t: nat, weather: ConfigStore.Weather, rules: EnrollRules)
    requires Inv(w, rules) && Enabled(w, Register(t, weather), rules) && w' == Next(w, Register(t, weather), rules)
    ensures RegisterEnds(w, w', t, weather, rules)
  {
    hide Inv, ConfigStore.ValidInventory, ConfigStore.Named;
    RefusedLeavesEntryIffReplaced(w, t, weather, rules);
    hide ConfigStore.AddDevice;
  }

  /** How a registration ends. */
  predicate RegisterEnds(w: World, w': World, t: nat, weather: ConfigStore.Weather, rules: EnrollRules) {
    t in w.calls && t in w'.calls &&
    var d := w.calls[t].device;
    && (w'.calls[t].stage == Closing(Refused(true)) <==>
          weather.locked && weather.readable && weather.save == FailedReplaced &&
          ConfigStore.ValidInventory(w.store, rules.config) &&
          !ConfigStore.Named(w.store, d.name) && ConfigStore.ValidInventory(w.store + [d], rules.config))
    && (w'.calls[t].stage == Closing(Refused(true)) ==> d in w'.store)
  }

  // ---------------------------------------------------------------------------------
  // What a success leaves.

  /** In every run, an enrollment that succeeds leaves the requested device in the engine and
      in the adapter, field by field as requested, under a name the engine did not have; and
      its key line is at most once in known_hosts. */
  lemma EnrolledAsRequested(worlds: seq<World>, actions: seq<Action>, rules: EnrollRules, i: nat, t: nat,
                            canceled: bool, save: SaveOutcome)
    requires Run(worlds, actions, rules) && i < |actions| && actions[i] == Join(t, canceled, save)
    requires t in worlds[i + 1].calls && worlds[i + 1].calls[t].stage == Closing(Enrolled)
    ensures t in worlds[i].calls
    ensures var r := worlds[i].calls[t].request;
            && worlds[i + 1].engine == worlds[i].engine + {r.name} && r.name !in worlds[i].engine
            && r.name in worlds[i + 1].adapter && AsRequested(worlds[i + 1].adapter[r.name], r, rules)
            && OwnedOnce(worlds[i + 1].hosts, Owned(worlds[i].calls[t]))
  {
    assert i + 1 < |worlds|;
    hide Run, Inv, Enabled, Next, AsRequested;
    RunKeepsInv(worlds, actions, rules, i);
    StepOfRun(worlds, actions, rules, i);
    JoinServes(worlds[i], worlds[i + 1], t, canceled, save, rules);
  }

  lemma JoinServes(w: World, w': World, t: nat, canceled: bool, save: SaveOutcome, rules: EnrollRules)
    requires Inv(w, rules) && Enabled(w, Join(t, canceled, save), rules)
    requires w' == Next(w, Join(t, canceled, save), rules)
    requires t in w'.calls && w'.calls[t].stage == Closing(Enrolled)
    ensures t in w.calls
    ensures var r := w.calls[t].request;
            && w'.engine == w.engine + {r.name} && r.name !in w.engine
            && r.name in w'.adapter && AsRequested(w'.adapter[r.name], r, rules)
            && OwnedOnce(w'.hosts, Owned(w.calls[t]))
  {
    EnrolledIsServed(w, t, canceled, save, rules);
    assert CallOk(w.hosts, w.adapter, w.calls[t], rules);
    hide MutexOk, ReservedOk, PinsOk, OwnedOnce, DeviceOf;
  }

  /** In every run, a registration that succeeds appends the requested device to the inventory
      and leaves the rest of it alone. */
  lemma RegisteredAsRequested(worlds: seq<World>, actions: seq<Action>, rules: EnrollRules, i: nat, t: nat,
                              weather: ConfigStore.Weather)
    requires Run(worlds, actions, rules) && i < |actions| && actions[i] == Register(t, weather)
    requires t in worlds[i + 1].calls && worlds[i + 1].calls[t].stage.Registered?
    ensures t in worlds[i].calls
    ensures var before, after := worlds[i].store, worlds[i + 1].store;
            |after| == |before| + 1 && after[..|before|] == before &&
            AsRequested(after[|before|], worlds[i].calls[t].request, rules)
  {
    assert i + 1 < |worlds|;
    hide Run, Inv, Enabled, Next, AsRequested;
    RunKeepsInv(worlds, actions, rules, i);
    StepOfRun(worlds, actions, rules, i);
    RegistrationAppends(worlds[i], worlds[i + 1], t, weather, rules);
  }

  lemma RegistrationAppends(w: World, w': World, t: nat, weather: ConfigStore.Weather, rules: EnrollRules)
    requires Inv(w, rules) && Enabled(w, Register(t, weather), rules) && w' == Next(w, Register(t, weather), rules)
    requires t in w'.calls && w'.calls[t].stage.Registered?
    ensures t in w.calls && w'.store == w.store + [w.calls[t].device]
    ensures AsRequested(w.calls[t].device, w.calls[t].request, rules)
  {
    assert CallOk(w.hosts, w.adapter, w.calls[t], rules);
    hide MutexOk, ReservedOk, PinsOk, DeviceOf, AsRequested, ConfigStore.ValidInventory, ConfigStore.Named;
  }

  // ---------------------------------------------------------------------------------
  // When an enrollment goes on.

  /** The stage after the forward step `a`, if nothing stands in the way. */
  predicate WentOn(a: Action, s: Stage) {
    match a
    case ProbeHost(_, _, _) => s.Probed?
    case Recheck(_, _, _) => s.Rechecked?
    case Register(_, _) => s.Registered?
    case Serve(_, _) => s.Serving?
    case Pin(_, _, _) => s.Pinned?
    case Join(_, _, _) => s == Closing(Enrolled)
    case _ => false
  }

  predicate IsForward(a: Action) {
    a.ProbeHost? || a.Recheck? || a.Register? || a.Serve? || a.Pin? || a.Join?
  }

  /** What each forward step needs: the host reached with the verified key, known or unknown to
      the file but not changed; the candidate still as it was and enrollable; the device added;
      no cancellation; the key pinned or known; and a free name in an engine that could save. */
  ghost predicate NothingWrong(w: World, a: Action, rules: EnrollRules)
    requires Enabled(w, a, rules)
  {
    match a
    case ProbeHost(t, key, reached) =>
      reached && key.verdict(w.hosts) in {KnownHosts.Known, KnownHosts.UnknownHost} &&
      key.fingerprint == w.calls[t].fingerprint
    case Recheck(t, canceled, loadable) =>
      !canceled && Enrollable(w.candidates, w.store, w.calls[t].request, loadable, rules)
    case Register(t, weather) =>
      weather == ConfigStore.Weather(true, true, Saved) && ConfigStore.ValidInventory(w.store, rules.config) &&
      !ConfigStore.Named(w.store, w.calls[t].device.name) &&
      ConfigStore.ValidInventory(w.store + [w.calls[t].device], rules.config)
    case Serve(t, canceled) => !canceled
    case Pin(t, located, commit) =>
      located &&
      (w.calls[t].stage.key.None? || w.calls[t].stage.key.value.verdict(w.hosts) == KnownHosts.Known ||
       (w.calls[t].stage.key.value.verdict(w.hosts) == KnownHosts.UnknownHost && commit.readable &&
        commit.save == Saved && |KnownHosts.Appended(w.hosts, w.calls[t].stage.key.value.line)| <= 1_048_576))
    case Join(t, canceled, save) => !canceled && w.calls[t].device.name !in w.engine && save == Saved
    case _ => true
  }

  lemma ProbeGoesOn(w: World, t: nat, key: HostKey, reached: bool, rules: EnrollRules)
    requires Enabled(w, ProbeHost(t, key, reached), rules) && w.calls[t].fingerprint != ""
    ensures DoProbe(w, t, key, reached).calls[t].stage.Probed? <==> NothingWrong(w, ProbeHost(t, key, reached), rules)
  {
    hide KnownHosts.Sound, Enrollable;
  }

  lemma RecheckGoesOn(w: World, t: nat, canceled: bool, loadable: bool, rules: EnrollRules)
    requires Enabled(w, Recheck(t, canceled, loadable), rules) && CallOk(w.hosts, w.adapter, w.calls[t], rules)
    ensures DoRecheck(w, t, canceled, loadable, rules).calls[t].stage.Rechecked? <==>
            NothingWrong(w, Recheck(t, canceled, loadable), rules)
  {
    SameFingerprint(w.candidates, w.store, w.calls[t].request, loadable, rules);
    hide Enrollable, DeviceOf, AsRequested, StageOk;
  }

  lemma RegisterGoesOn(w: World, t: nat, weather: ConfigStore.Weather, rules: EnrollRules)
    requires Enabled(w, Register(t, weather), rules)
    ensures DoRegister(w, t, weather, rules).calls[t].stage.Registered? <==>
            NothingWrong(w, Register(t, weather), rules)
  {
    hide ConfigStore.ValidInventory, ConfigStore.Named, Enrollable;
  }

  lemma PinGoesOn(w: World, t: nat, located: bool, commit: KnownHosts.CommitWeather, rules: EnrollRules)
    requires Enabled(w, Pin(t, located, commit), rules)
    ensures DoPin(w, t, located, commit).calls[t].stage.Pinned? <==> NothingWrong(w, Pin(t, located, commit), rules)
  {
    hide KnownHosts.Present, KnownHosts.Appended, Enrollable;
  }

  lemma ServeGoesOn(w: World, t: nat, canceled: bool, rules: EnrollRules)
    requires Enabled(w, Serve(t, canceled), rules)
    ensures DoServe(w, t, canceled).calls[t].stage.Serving? <==> NothingWrong(w, Serve(t, canceled), rules)
  {
    hide Enrollable;
  }

  lemma JoinGoesOn(w: World, t: nat, canceled: bool, save: SaveOutcome, rules: EnrollRules)
    requires Enabled(w, Join(t, canceled, save), rules)
    ensures DoJoin(w, t, canceled, save).calls[t].stage == Closing(Enrolled) <==>
            NothingWrong(w, Join(t, canceled, save), rules)
  {
    hide Enrollable;
  }

  /** In every state, an enrollment goes on exactly when nothing is wrong. */
  lemma GoesOnIff(w: World, a: Action, rules: EnrollRules)
    requires Inv(w, rules) && Enabled(w, a, rules) && IsForward(a)
    ensures a.t in Next(w, a, rules).calls
    ensures WentOn(a, Next(w, a, rules).calls[a.t].stage) <==> NothingWrong(w, a, rules)
  {
    hide Enrollable, DeviceOf, AsRequested, StageOk, MutexOk, ReservedOk, PinsOk, NothingWrong;
    hide DoProbe, DoRecheck, DoRegister, DoServe, DoPin, DoJoin, KnownHosts.Sound, Neutral;
    assert CallOk(w.hosts, w.adapter, w.calls[a.t], rules);
    StaysThere(w, a, rules);
    match a
    case ProbeHost(t, key, reached) => ProbeGoesOn(w, t, key, reached, rules);
    case Recheck(t, canceled, loadable) => RecheckGoesOn(w, t, canceled, loadable, rules);
    case Register(t, weather) => RegisterGoesOn(w, t, weather, rules);
    case Serve(t, canceled) => ServeGoesOn(w, t, canceled, rules);
    case Pin(t, located, commit) => PinGoesOn(w, t, located, commit, rules);
    case Join(t, canceled, save) => JoinGoesOn(w, t, canceled, save, rules);
    case _ =>
  }

  lemma StaysThere(w: World, a: Action, rules: EnrollRules)
    requires Enabled(w, a, rules) && IsForward(a)
    ensures a.t in Next(w, a, rules).calls
  {
    hide Enrollable, DeviceOf, CheckHostKey, ConfigStore.AddDevice, KnownHosts.Commit, KnownHosts.Sound;
  }

  lemma SameFingerprint(candidates: map<string, CandidateView>, store: seq<Device>, r: Request, loadable: bool,
                        rules: EnrollRules)
    ensures Enrollable(candidates, store, r, loadable, rules) ==>
              r.id in candidates && candidates[r.id].fingerprint == r.fingerprint
  {
    hide ConfigStore.ValidInventory, ConfigStore.ValidDevice, DeviceOf;
  }
}
