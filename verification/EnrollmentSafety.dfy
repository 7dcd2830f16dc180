/** What every interleaving of enrollments and other writers keeps: one enrollment per
    candidate, only verified keys pinned, everybody else's entries preserved, and after a
    completed rollback no trace. */
module EnrollmentSafety {
  import opened Shared
  import ConfigStore
  import KnownHosts
  import opened Enrollment

  predicate KeyOk(c: Call, key: Option<HostKey>) {
    key.Some? ==> key.value.fingerprint == c.fingerprint
  }

  ghost predicate KeySound(key: Option<HostKey>) {
    key.Some? ==> KnownHosts.Sound(key.value.Pending())
  }

  predicate OwnedOnce(hosts: Bytes, owned: Option<Bytes>) {
    owned.Some? ==> AtMostOnce(hosts, owned.value)
  }

  predicate OwnedGone(hosts: Bytes, owned: Option<Bytes>) {
    owned.Some? ==> !KnownHosts.Present(hosts, owned.value)
  }

  predicate Served(adapter: map<string, Device>, d: Device) {
    d.name in adapter && adapter[d.name] == d
  }

  /** What a call may rely on at its stage. */
  ghost predicate StageOk(hosts: Bytes, adapter: map<string, Device>, c: Call) {
    match c.stage
    case Probing => true
    case Probed(key) => KeyOk(c, key) && KeySound(key)
    case Locked(key) => KeyOk(c, key) && KeySound(key)
    case Rechecked(key, seen) => KeyOk(c, key) && KeySound(key) && seen == c.fingerprint
    case Registered(key, seen) => KeyOk(c, key) && KeySound(key) && seen == c.fingerprint
    case Serving(key, seen) => KeyOk(c, key) && KeySound(key) && seen == c.fingerprint && Served(adapter, c.device)
    case Pinned(key, owned) => OwnedOnce(hosts, owned) && Served(adapter, c.device)
    case UndoAdapter(owned, stray) => OwnedOnce(hosts, owned)
    case UndoKey(owned, stray) => OwnedOnce(hosts, owned) && c.device.name !in adapter
    case UndoStore(owned, stray, clean) => (clean ==> OwnedGone(hosts, owned)) && c.device.name !in adapter
    case Closing(outcome) => true
  }

  ghost predicate CallOk(hosts: Bytes, adapter: map<string, Device>, c: Call, rules: EnrollRules) {
    && c.fingerprint == c.request.fingerprint != "" && c.device == DeviceOf(c.request, rules)
    && AsRequested(c.device, c.request, rules)
    && StageOk(hosts, adapter, c)
  }

  predicate PinOk(p: PinRecord) {
    p.key == p.requested == p.rechecked != ""
  }

  predicate PinsOk(pins: seq<PinRecord>) {
    forall i :: 0 <= i < |pins| ==> PinOk(pins[i])
  }

  predicate MutexOk(calls: map<nat, Call>, holder: Option<nat>) {
    && (holder.Some? ==> holder.value in calls)
    && forall t :: t in calls ==> (calls[t].stage.HoldsMutex() <==> holder == Some(t))
  }

  predicate ReservedOk(calls: map<nat, Call>, reserved: set<string>) {
    && (forall t :: t in calls ==> calls[t].request.id in reserved)
    && forall t, u :: t in calls && u in calls && t != u ==> calls[t].request.id != calls[u].request.id
  }

  ghost predicate Inv(w: World, rules: EnrollRules) {
    && MutexOk(w.calls, w.holder) && ReservedOk(w.calls, w.reserved) && PinsOk(w.pins)
    && forall t :: t in w.calls ==> CallOk(w.hosts, w.adapter, w.calls[t], rules)
  }

  // ---------------------------------------------------------------------------------
  // Preservation.

  /** Only the holder of the mutex depends on known_hosts and the adapter. */
  lemma UnlockedCallsAreDetached(hosts: Bytes, adapter: map<string, Device>, hosts': Bytes,
                                 adapter': map<string, Device>, c: Call, rules: EnrollRules)
    requires !c.stage.HoldsMutex()
    ensures CallOk(hosts, adapter, c, rules) <==> CallOk(hosts', adapter', c, rules)
  {
    hide KeySound, DeviceOf, AsRequested;
  }

  /** A step of call `t` that leaves the other calls alone keeps the invariant. */
  lemma OwnStepKeepsInv(w: World, w': World, t: nat, c': Call, rules: EnrollRules)
    requires Inv(w, rules) && t in w.calls && w'.calls == w.calls[t := c'] && c'.request == w.calls[t].request
    requires w'.reserved == w.reserved
    requires w.holder == Some(t) || (w.holder == None && w'.hosts == w.hosts && w'.adapter == w.adapter) ||
             (!c'.stage.HoldsMutex() && w'.holder == w.holder && w'.hosts == w.hosts && w'.adapter == w.adapter &&
              w.holder != Some(t))
    requires w'.holder ==
             if c'.stage.HoldsMutex() then Some(t) else if w.holder == Some(t) then None else w.holder
    requires CallOk(w'.hosts, w'.adapter, c', rules) && PinsOk(w'.pins)
    ensures Inv(w', rules)
  {
    hide PinsOk, CallOk;
    assert MutexOk(w'.calls, w'.holder) && ReservedOk(w'.calls, w'.reserved);
    forall u | u in w'.calls
      ensures CallOk(w'.hosts, w'.adapter, w'.calls[u], rules)
    {
      if u != t && w.holder == Some(t) {
        UnlockedCallsAreDetached(w.hosts, w.adapter, w'.hosts, w'.adapter, w.calls[u], rules);
      }
    }
  }

  lemma BeginKeepsInv(w: World, t: nat, request: Request, loadable: bool, rules: EnrollRules)
    requires Inv(w, rules) && t !in w.calls && w.holder == None
    ensures Inv(DoBegin(w, t, request, loadable, rules), rules)
  {
    EnrollableDevice(w.candidates, w.store, request, loadable, rules);
    hide ConfigStore.ValidDevice, ConfigStore.ValidInventory, DeviceOf, AsRequested, PinsOk, KeySound;
  }

  lemma ProbeKeepsInv(w: World, t: nat, key: HostKey, reached: bool, rules: EnrollRules)
    requires Inv(w, rules) && Enabled(w, ProbeHost(t, key, reached), rules)
    ensures Inv(DoProbe(w, t, key, reached), rules)
  {
    var w' := DoProbe(w, t, key, reached);
    CheckedKeyIsExpected(key, w.hosts, true, w.calls[t].fingerprint);
    hide PinsOk, KnownHosts.Sound, CheckHostKey, DeviceOf, AsRequested;
    OwnStepKeepsInv(w, w', t, w'.calls[t], rules);
  }

  lemma GiveUpKeepsInv(w: World, t: nat, rules: EnrollRules)
    requires Inv(w, rules) && t in w.calls && w.calls[t].stage.Probed?
    ensures Inv(At(w, t, Closing(Refused(false))), rules)
  {
    hide PinsOk, KeySound, DeviceOf, AsRequested;
    var w' := At(w, t, Closing(Refused(false)));
    OwnStepKeepsInv(w, w', t, w'.calls[t], rules);
  }

  lemma TakeMutexKeepsInv(w: World, t: nat, rules: EnrollRules)
    requires Inv(w, rules) && t in w.calls && w.calls[t].stage.Probed? && w.holder == None
    ensures Inv(At(w, t, Locked(w.calls[t].stage.key)).(holder := Some(t)), rules)
  {
    hide PinsOk, KeySound, DeviceOf, AsRequested;
    var w' := At(w, t, Locked(w.calls[t].stage.key)).(holder := Some(t));
    OwnStepKeepsInv(w, w', t, w'.calls[t], rules);
  }

  lemma RecheckKeepsInv(w: World, t: nat, canceled: bool, loadable: bool, rules: EnrollRules)
    requires Inv(w, rules) && t in w.calls && w.calls[t].stage.Locked?
    ensures Inv(DoRecheck(w, t, canceled, loadable, rules), rules)
  {
    hide PinsOk, KeySound, DeviceOf, AsRequested, Enrollable;
    var w' := DoRecheck(w, t, canceled, loadable, rules);
    OwnStepKeepsInv(w, w', t, w'.calls[t], rules);
  }

  lemma RegisterKeepsInv(w: World, t: nat, weather: ConfigStore.Weather, rules: EnrollRules)
    requires Inv(w, rules) && t in w.calls && w.calls[t].stage.Rechecked?
    ensures Inv(DoRegister(w, t, weather, rules), rules)
  {
    hide PinsOk, KeySound, DeviceOf, AsRequested, ConfigStore.AddDevice;
    var w' := DoRegister(w, t, weather, rules);
    OwnStepKeepsInv(w, w', t, w'.calls[t], rules);
  }

  lemma ServeKeepsInv(w: World, t: nat, canceled: bool, rules: EnrollRules)
    requires Inv(w, rules) && t in w.calls && w.calls[t].stage.Registered?
    ensures Inv(DoServe(w, t, canceled), rules)
  {
    hide PinsOk, KeySound, DeviceOf, AsRequested;
    var w' := DoServe(w, t, canceled);
    OwnStepKeepsInv(w, w', t, w'.calls[t], rules);
  }

  /** A line an enrollment wrote stands in the file exactly once. */
  lemma CommitWritesOnce(hosts: Bytes, pending: KnownHosts.PendingKey, commit: KnownHosts.CommitWeather)
    requires KnownHosts.Sound(pending)
    ensures var out := KnownHosts.Commit(hosts, pending, commit);
            out.inserted ==>
              pending.PendingKey? && KnownHosts.IsLine(pending.line) && AtMostOnce(out.content, pending.line)
  {
    KnownHosts.CommitClaimsItsOwn(hosts, pending, commit);
    if KnownHosts.Commit(hosts, pending, commit).inserted {
      KnownHosts.RemoveUndoesAppend(hosts, pending.line);
      EndingTheLastLine(hosts, pending.line);
    }
    hide KnownHosts.Commit, KnownHosts.Removed, KnownHosts.Appended, KnownHosts.Present, KnownHosts.Terminated;
  }

  lemma EndingTheLastLine(hosts: Bytes, line: Bytes)
    requires KnownHosts.IsLine(line)
    ensures KnownHosts.Present(KnownHosts.Terminated(hosts), line) <==> KnownHosts.Present(hosts, line)
  {
    KnownHosts.PresentMeansLine(hosts, line);
    KnownHosts.PresentMeansLine(KnownHosts.Terminated(hosts), line);
    if KnownHosts.Terminated(hosts) != hosts {
      KnownHosts.SplitAt(hosts, []);
      assert hosts + [KnownHosts.NEWLINE] + [] == KnownHosts.Terminated(hosts);
      KnownHosts.LineMatchesItself(line);
      hide KnownHosts.TrimReturns;
      assert KnownHosts.Split([]) == [[]];
    }
  }

  lemma PinKeepsInv(w: World, t: nat, located: bool, commit: KnownHosts.CommitWeather, rules: EnrollRules)
    requires Inv(w, rules) && t in w.calls && w.calls[t].stage.Serving?
    ensures Inv(DoPin(w, t, located, commit), rules)
  {
    hide KnownHosts.Sound, KnownHosts.Commit, DeviceOf, AsRequested, AtMostOnce, KnownHosts.IsLine, PinsOk;
    var w' := DoPin(w, t, located, commit);
    PinKeepsCall(w, t, located, commit, rules);
    PinIsRecorded(w, t, located, commit, rules);
    OwnStepKeepsInv(w, w', t, w'.calls[t], rules);
  }

  lemma PinIsRecorded(w: World, t: nat, located: bool, commit: KnownHosts.CommitWeather, rules: EnrollRules)
    requires PinsOk(w.pins) && t in w.calls && w.calls[t].stage.Serving?
    requires CallOk(w.hosts, w.adapter, w.calls[t], rules)
    ensures PinsOk(DoPin(w, t, located, commit).pins)
  {
    hide KnownHosts.Sound, KnownHosts.Commit, DeviceOf, AsRequested, Served;
  }

  lemma PinKeepsCall(w: World, t: nat, located: bool, commit: KnownHosts.CommitWeather, rules: EnrollRules)
    requires t in w.calls && w.calls[t].stage.Serving? && CallOk(w.hosts, w.adapter, w.calls[t], rules)
    ensures var w' := DoPin(w, t, located, commit);
            CallOk(w'.hosts, w'.adapter, w'.calls[t], rules)
  {
    hide KeySound, KnownHosts.Commit, DeviceOf, AsRequested, OwnedOnce, Served;
    CommitOwnsOnce(w.hosts, w.calls[t].stage.key, commit);
  }

  lemma CommitOwnsOnce(hosts: Bytes, key: Option<HostKey>, commit: KnownHosts.CommitWeather)
    requires KeySound(key)
    ensures var out := KnownHosts.Commit(hosts, PendingOf(key), commit);
            OwnedOnce(out.content, if out.inserted && key.Some? then Some(key.value.line) else None) &&
            OwnedOnce(hosts, None)
  {
    CommitWritesOnce(hosts, PendingOf(key), commit);
    hide KnownHosts.Commit, AtMostOnce;
  }

  lemma JoinKeepsInv(w: World, t: nat, canceled: bool, save: SaveOutcome, rules: EnrollRules)
    requires Inv(w, rules) && t in w.calls && w.calls[t].stage.Pinned?
    ensures Inv(DoJoin(w, t, canceled, save), rules)
  {
    hide PinsOk, KeySound, DeviceOf, AsRequested, AtMostOnce;
    var w' := DoJoin(w, t, canceled, save);
    OwnStepKeepsInv(w, w', t, w'.calls[t], rules);
  }

  lemma DropAdapterKeepsInv(w: World, t: nat, rules: EnrollRules)
    requires Inv(w, rules) && t in w.calls && w.calls[t].stage.UndoAdapter?
    ensures Inv(DoDropAdapter(w, t), rules)
  {
    hide PinsOk, KeySound, DeviceOf, AsRequested, AtMostOnce;
    var w' := DoDropAdapter(w, t);
    OwnStepKeepsInv(w, w', t, w'.calls[t], rules);
  }

  lemma RemovalClears(hosts: Bytes, owned: Option<Bytes>, readable: bool, save: SaveOutcome)
    requires OwnedOnce(hosts, owned)
    ensures KnownHosts.RemoveLine(hosts, owned, readable, save).1 ==>
              OwnedGone(KnownHosts.RemoveLine(hosts, owned, readable, save).0, owned)
  {
    hide KnownHosts.Present, KnownHosts.Removed;
  }

  lemma DropKeyKeepsInv(w: World, t: nat, located: bool, readable: bool, save: SaveOutcome, rules: EnrollRules)
    requires Inv(w, rules) && t in w.calls && w.calls[t].stage.UndoKey?
    ensures Inv(DoDropKey(w, t, located, readable, save), rules)
  {
    hide PinsOk, KnownHosts.RemoveLine, CallOk, MutexOk, ReservedOk;
    var w' := DoDropKey(w, t, located, readable, save);
    DropKeyKeepsCall(w, t, located, readable, save, rules);
    StageTells(w, t);
    OwnStepKeepsInv(w, w', t, w'.calls[t], rules);
  }

  lemma StageTells(w: World, t: nat)
    requires MutexOk(w.calls, w.holder) && t in w.calls && w.calls[t].stage.HoldsMutex()
    ensures w.holder == Some(t)
  {}

  lemma DropKeyKeepsCall(w: World, t: nat, located: bool, readable: bool, save: SaveOutcome, rules: EnrollRules)
    requires t in w.calls && w.calls[t].stage.UndoKey? && CallOk(w.hosts, w.adapter, w.calls[t], rules)
    ensures var w' := DoDropKey(w, t, located, readable, save);
            CallOk(w'.hosts, w'.adapter, w'.calls[t], rules)
  {
    hide KeySound, DeviceOf, AsRequested, OwnedGone, OwnedOnce, KnownHosts.RemoveLine, Served, KeyOk;
    var s := w.calls[t].stage;
    RemovalClears(w.hosts, s.owned, readable, save);
    assert DoDropKey(w, t, located, readable, save).adapter == w.adapter;
    assert DoDropKey(w, t, located, readable, save).calls[t].stage.clean ==> s.owned.None? || located;
  }

  lemma DropStoreKeepsInv(w: World, t: nat, weather: ConfigStore.Weather, rules: EnrollRules)
    requires Inv(w, rules) && t in w.calls && w.calls[t].stage.UndoStore?
    ensures Inv(DoDropStore(w, t, weather, rules), rules)
  {
    hide PinsOk, KeySound, DeviceOf, AsRequested, OwnedGone, OwnedOnce, ConfigStore.RemoveIfUnchanged;
    var w' := DoDropStore(w, t, weather, rules);
    OwnStepKeepsInv(w, w', t, w'.calls[t], rules);
  }

  lemma EndKeepsInv(w: World, t: nat, rules: EnrollRules)
    requires Inv(w, rules) && t in w.calls && w.calls[t].stage.Closing? && w.holder == None
    ensures Inv(DoEnd(w, t), rules)
  {
    hide PinsOk, CallOk;
  }

  lemma HostsWrittenKeepsInv(w: World, hosts: Bytes, rules: EnrollRules)
    requires Inv(w, rules) && Enabled(w, HostsWritten(hosts), rules)
    ensures Inv(w.(hosts := hosts), rules)
  {
    hide PinsOk, KeySound, DeviceOf, AsRequested, AtMostOnce, MutexOk, ReservedOk, KnownHosts.Present;
    forall t | t in w.calls
      ensures CallOk(hosts, w.adapter, w.calls[t], rules)
    {
      assert Owned(w.calls[t]).Some? ==> Neutral(w.hosts, hosts, Owned(w.calls[t]).value);
    }
  }

  /** Every step keeps the invariant. */
  lemma NextKeepsInv(w: World, a: Action, rules: EnrollRules)
    requires Inv(w, rules) && Enabled(w, a, rules)
    ensures Inv(Next(w, a, rules), rules)
  {
    hide PinsOk, CallOk, MutexOk, ReservedOk, DoBegin, DoProbe, DoRecheck, DoRegister, DoServe, DoPin, DoJoin;
    hide DoDropAdapter, DoDropKey, DoDropStore, DoEnd, Neutral;
    match a
    case Begin(t, request, loadable) => BeginKeepsInv(w, t, request, loadable, rules);
    case ProbeHost(t, key, reached) => ProbeKeepsInv(w, t, key, reached, rules);
    case GiveUp(t) => GiveUpKeepsInv(w, t, rules);
    case TakeMutex(t) => TakeMutexKeepsInv(w, t, rules);
    case Recheck(t, canceled, loadable) => RecheckKeepsInv(w, t, canceled, loadable, rules);
    case Register(t, weather) => RegisterKeepsInv(w, t, weather, rules);
    case Serve(t, canceled) => ServeKeepsInv(w, t, canceled, rules);
    case Pin(t, located, commit) => PinKeepsInv(w, t, located, commit, rules);
    case Join(t, canceled, save) => JoinKeepsInv(w, t, canceled, save, rules);
    case DropAdapter(t) => DropAdapterKeepsInv(w, t, rules);
    case DropKey(t, located, readable, save) => DropKeyKeepsInv(w, t, located, readable, save, rules);
    case DropStore(t, weather) => DropStoreKeepsInv(w, t, weather, rules);
    case End(t) => EndKeepsInv(w, t, rules);
    case InboxChanges(candidates) =>
    case StoreWritten(store) =>
    case HostsWritten(hosts) => HostsWrittenKeepsInv(w, hosts, rules);
  }

  // ---------------------------------------------------------------------------------
  // Main theorems.

  /** A start of the daemon: no enrollment in progress, the files as they are. */
  predicate FirstWorld(w: World) {
    w.calls == map[] && w.reserved == {} && w.holder == None && w.pins == []
  }

  ghost predicate Run(worlds: seq<World>, actions: seq<Action>, rules: EnrollRules) {
    && |worlds| == |actions| + 1 && FirstWorld(worlds[0])
    && forall i :: 0 <= i < |actions| ==>
         Enabled(worlds[i], actions[i], rules) && worlds[i + 1] == Next(worlds[i], actions[i], rules)
  }

  lemma {:induction false} RunKeepsInv(worlds: seq<World>, actions: seq<Action>, rules: EnrollRules, n: nat)
    requires Run(worlds, actions, rules) && n < |worlds|
    ensures Inv(worlds[n], rules)
  {
    hide Enabled, Next, CallOk;
    if n > 0 {
      hide Inv;
      RunKeepsInv(worlds, actions, rules, n - 1);
      NextKeepsInv(worlds[n - 1], actions[n - 1], rules);
    }
  }

  /** In every interleaving at most one enrollment is in flight per candidate, and at most one
      is past the second check. */
  lemma OneEnrollmentPerCandidate(worlds: seq<World>, actions: seq<Action>, rules: EnrollRules, n: nat, t: nat, u: nat)
    requires Run(worlds, actions, rules) && n < |worlds| && t in worlds[n].calls && u in worlds[n].calls && t != u
    ensures worlds[n].calls[t].request.id != worlds[n].calls[u].request.id
    ensures !(worlds[n].calls[t].stage.HoldsMutex() && worlds[n].calls[u].stage.HoldsMutex())
  {
    hide Run, CallOk, PinsOk;
    RunKeepsInv(worlds, actions, rules, n);
  }

  /** Every key line an enrollment ever wrote belongs to a key whose fingerprint is the one
      of the request and the one the candidate showed when it was checked again. */
  lemma OnlyVerifiedKeysArePinned(worlds: seq<World>, actions: seq<Action>, rules: EnrollRules, n: nat, i: nat)
    requires Run(worlds, actions, rules) && n < |worlds| && i < |worlds[n].pins|
    ensures worlds[n].pins[i].key == worlds[n].pins[i].requested == worlds[n].pins[i].rechecked != ""
  {
    hide Run, CallOk, MutexOk, ReservedOk;
    RunKeepsInv(worlds, actions, rules, n);
  }

  predicate IsEnrollmentStep(a: Action) {
    !a.InboxChanges? && !a.StoreWritten? && !a.HostsWritten?
  }

  /** A line that is neither the one the acting call wrote nor the one it is about to write. */
  predicate ForeignLine(w: World, a: Action, line: Bytes)
    requires IsEnrollmentStep(a)
  {
    a.t in w.calls ==>
      Owned(w.calls[a.t]) != Some(line) &&
      (w.calls[a.t].stage.Serving? && w.calls[a.t].stage.key.Some? ==> w.calls[a.t].stage.key.value.line != line)
  }

  lemma CommitSparesOthers(hosts: Bytes, pending: KnownHosts.PendingKey, commit: KnownHosts.CommitWeather, line: Bytes)
    requires KnownHosts.Sound(pending) && KnownHosts.IsLine(line) && (pending.PendingKey? ==> pending.line != line)
    ensures KnownHosts.Present(KnownHosts.Commit(hosts, pending, commit).content, line) <==>
              KnownHosts.Present(hosts, line)
  {
    if pending.PendingKey? {
      KnownHosts.AppendSparesOthers(hosts, pending.line, line);
    }
    hide KnownHosts.Present, KnownHosts.Appended;
  }

  lemma RemoveSparesOthers(hosts: Bytes, owned: Option<Bytes>, readable: bool, save: SaveOutcome, line: Bytes)
    requires KnownHosts.IsLine(line) && owned != Some(line)
    ensures KnownHosts.Present(KnownHosts.RemoveLine(hosts, owned, readable, save).0, line) <==>
              KnownHosts.Present(hosts, line)
  {
    if owned.Some? {
      KnownHosts.RemovalSparesOthers(hosts, owned.value, line);
    }
    hide KnownHosts.Present, KnownHosts.Removed;
  }

  lemma OtherEngineNamesSurvive(w: World, a: Action, rules: EnrollRules, name: string)
    requires Enabled(w, a, rules) && (a.Join? && a.t in w.calls ==> w.calls[a.t].device.name != name)
    ensures name in Next(w, a, rules).engine <==> name in w.engine
  {
    hide Enrollable, CheckHostKey, DeviceOf, AsRequested, KnownHosts.Sound, Neutral, Owned;
    hide ConfigStore.AddDevice, ConfigStore.RemoveIfUnchanged, KnownHosts.Commit, KnownHosts.RemoveLine;
  }

  lemma OtherAdapterNamesSurvive(w: World, a: Action, rules: EnrollRules, name: string)
    requires Enabled(w, a, rules)
    requires ((a.Serve? || a.DropAdapter?) && a.t in w.calls ==> w.calls[a.t].device.name != name)
    ensures name in Next(w, a, rules).adapter <==> name in w.adapter
    ensures name in w.adapter ==> Next(w, a, rules).adapter[name] == w.adapter[name]
  {
    hide Enrollable, CheckHostKey, DeviceOf, AsRequested, KnownHosts.Sound, Neutral, Owned;
    hide ConfigStore.AddDevice, ConfigStore.RemoveIfUnchanged, KnownHosts.Commit, KnownHosts.RemoveLine;
  }

  /** The adapter and the engine change at the enrollment's own name only. */
  lemma OtherNamesSurvive(w: World, a: Action, rules: EnrollRules, name: string)
    requires Enabled(w, a, rules) && (IsEnrollmentStep(a) && a.t in w.calls ==> w.calls[a.t].device.name != name)
    ensures name in Next(w, a, rules).engine <==> name in w.engine
    ensures name in Next(w, a, rules).adapter <==> name in w.adapter
    ensures name in w.adapter ==> Next(w, a, rules).adapter[name] == w.adapter[name]
  {
    hide Enabled, Next;
    OtherEngineNamesSurvive(w, a, rules, name);
    OtherAdapterNamesSurvive(w, a, rules, name);
  }

  lemma OtherDevicesSurvive(w: World, a: Action, rules: EnrollRules, d: Device)
    requires Enabled(w, a, rules) && IsEnrollmentStep(a) && (a.t in w.calls ==> d != w.calls[a.t].device)
    ensures d in Next(w, a, rules).store <==> d in w.store
  {
    hide Enrollable, CheckHostKey, DeviceOf, AsRequested;
    hide ConfigStore.AddDevice, ConfigStore.RemoveIfUnchanged, KnownHosts.Commit;
    hide KnownHosts.RemoveLine, KnownHosts.Sound;
    match a
    case Register(t, weather) => ConfigStore.AdditionSparesOthers(w.store, w.calls[t].device, weather, rules.config);
    case DropStore(t, weather) => ConfigStore.RemovalSparesOthers(w.store, w.calls[t].device, weather, rules.config);
    case _ =>
  }

  lemma ServedKeyIsSound(w: World, t: nat, rules: EnrollRules)
    requires Inv(w, rules) && t in w.calls && w.calls[t].stage.Serving?
    ensures KnownHosts.Sound(PendingOf(w.calls[t].stage.key))
  {
    hide MutexOk, ReservedOk, PinsOk, DeviceOf, AsRequested, KnownHosts.IsLine, Served;
    assert CallOk(w.hosts, w.adapter, w.calls[t], rules);
  }

  lemma OtherLinesSurvive(w: World, a: Action, rules: EnrollRules, line: Bytes)
    requires Inv(w, rules) && Enabled(w, a, rules) && IsEnrollmentStep(a) && KnownHosts.IsLine(line)
    requires ForeignLine(w, a, line)
    ensures KnownHosts.Present(Next(w, a, rules).hosts, line) <==> KnownHosts.Present(w.hosts, line)
  {
    hide Inv, Enrollable, CheckHostKey, DeviceOf, AsRequested, ConfigStore.AddDevice, ConfigStore.RemoveIfUnchanged,
         KnownHosts.Commit, KnownHosts.RemoveLine, KnownHosts.Present, KnownHosts.IsLine, KnownHosts.Sound;
    match a
    case Pin(t, located, commit) =>
      ServedKeyIsSound(w, t, rules);
      CommitSparesOthers(w.hosts, PendingOf(w.calls[t].stage.key), commit, line);
    case DropKey(t, located, readable, save) =>
      RemoveSparesOthers(w.hosts, w.calls[t].stage.owned, readable, save, line);
    case _ =>
  }

  /** No step of an enrollment, forward or backward, adds or removes a device or a key line
      that is not its own. */
  lemma OthersSurvive(w: World, a: Action, rules: EnrollRules, d: Device, line: Bytes)
    requires Inv(w, rules) && Enabled(w, a, rules) && IsEnrollmentStep(a)
    requires (a.t in w.calls ==> d != w.calls[a.t].device) && KnownHosts.IsLine(line) && ForeignLine(w, a, line)
    ensures d in Next(w, a, rules).store <==> d in w.store
    ensures KnownHosts.Present(Next(w, a, rules).hosts, line) <==> KnownHosts.Present(w.hosts, line)
  {
    hide Inv, Enabled, Next, ForeignLine, KnownHosts.Present, KnownHosts.IsLine;
    OtherDevicesSurvive(w, a, rules, d);
    OtherLinesSurvive(w, a, rules, line);
  }

  /** All or nothing. When a rollback has completed, the inventory has no device of the name,
      the adapter does not know it, and the key line the enrollment claimed is gone; a
      `stray` line is the one exception, told apart below. */
  lemma CompletedRollbackLeavesNothing(w: World, t: nat, weather: ConfigStore.Weather, rules: EnrollRules)
    requires Inv(w, rules) && Enabled(w, DropStore(t, weather), rules)
    ensures var w' := Next(w, DropStore(t, weather), rules);
            var c := w.calls[t];
            w'.calls[t].stage.outcome.RolledBack? ==>
              !ConfigStore.Named(w'.store, c.device.name) && c.device.name !in w'.adapter &&
              OwnedGone(w'.hosts, Owned(c))
  {
    hide MutexOk, ReservedOk, PinsOk, DeviceOf, AsRequested, OwnedGone;
    hide ConfigStore.RemoveIfUnchanged, ConfigStore.Named;
    var c := w.calls[t];
    assert (c.stage.clean ==> OwnedGone(w.hosts, Owned(c))) && c.device.name !in w.adapter by {
      assert CallOk(w.hosts, w.adapter, c, rules);
    }
    hide Inv;
    ConfigStore.RemovalSparesOthers(w.store, c.device, weather, rules.config);
  }

  /** A line is left behind unclaimed exactly when the write of known_hosts failed half-way and
      the file could not be read again to find out. */
  lemma StrayLineIffUnreadableAfterFailure(w: World, t: nat, located: bool, commit: KnownHosts.CommitWeather,
                                           rules: EnrollRules)
    requires Inv(w, rules) && Enabled(w, Pin(t, located, commit), rules)
    ensures var s := w.calls[t].stage;
            var s' := Next(w, Pin(t, located, commit), rules).calls[t].stage;
            (s'.UndoAdapter? && s'.stray) <==>
              located && s.key.Some? && s.key.value.verdict(w.hosts) == KnownHosts.UnknownHost && commit.readable &&
              |KnownHosts.Appended(w.hosts, s.key.value.line)| <= KnownHosts.MAX_SIZE &&
              commit.save == FailedReplaced && !commit.rereadable
  {
    assert CallOk(w.hosts, w.adapter, w.calls[t], rules);
    KnownHosts.CommitClaimsItsOwn(w.hosts, PendingOf(w.calls[t].stage.key), commit);
    hide MutexOk, ReservedOk, PinsOk, DeviceOf, AsRequested, Served;
    hide KnownHosts.Commit, KnownHosts.Appended, KnownHosts.IsLine;
  }

  /** A refused enrollment has changed nothing, with one exception: when the registration
      failed after the new inventory was in place, the device stays in the file and nothing
      removes it. */
  lemma RefusedLeavesEntryIffReplaced(w: World, t: nat, weather: ConfigStore.Weather, rules: EnrollRules)
    requires Inv(w, rules) && Enabled(w, Register(t, weather), rules)
    ensures var w' := Next(w, Register(t, weather), rules);
            var d := w.calls[t].device;
            && (w'.calls[t].stage == Closing(Refused(true)) <==>
                  weather.locked && weather.readable && weather.save == FailedReplaced &&
                  ConfigStore.ValidInventory(w.store, rules.config) &&
                  !ConfigStore.Named(w.store, d.name) && ConfigStore.ValidInventory(w.store + [d], rules.config))
            && (w'.calls[t].stage == Closing(Refused(true)) ==> d in w'.store && w'.store == w.store + [d])
            && (w'.calls[t].stage == Closing(Refused(false)) ==> w'.store == w.store)
            && w'.hosts == w.hosts && w'.adapter == w.adapter
  {
    hide MutexOk, ReservedOk, PinsOk, CallOk, ConfigStore.ValidInventory, ConfigStore.Named;
    assert w.store + [w.calls[t].device] != w.store;
  }

  /** Success: the device is in the engine and served, and was registered. */
  lemma EnrolledIsServed(w: World, t: nat, canceled: bool, save: SaveOutcome, rules: EnrollRules)
    requires Inv(w, rules) && Enabled(w, Join(t, canceled, save), rules)
    ensures var w' := Next(w, Join(t, canceled, save), rules);
            var d := w.calls[t].device;
            w'.calls[t].stage == Closing(Enrolled) ==>
              d.name in w'.engine && d.name !in w.engine && d.name in w'.adapter && w'.adapter[d.name] == d &&
              OwnedOnce(w'.hosts, Owned(w.calls[t]))
  {
    hide MutexOk, ReservedOk, PinsOk, DeviceOf, AsRequested, OwnedOnce;
    assert CallOk(w.hosts, w.adapter, w.calls[t], rules);
  }
}
