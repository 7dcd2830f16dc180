/** Enrollment of a candidate: reserve it, probe without the lock, check everything again,
    write three stores, and undo in reverse on failure, while other processes write the
    same files. */
module Enrollment {
  import opened Shared
  import opened PlainText
  import ConfigStore
  import KnownHosts

  type Device = ConfigStore.Device
  type Bytes = KnownHosts.Bytes

  /** What enrollment reads of a candidate. */
  datatype CandidateView = CandidateView(ignored: bool, managed: bool, fingerprint: string)

  datatype Request = Request(id: string, name: string, host: string, user: string, port: int, fingerprint: string,
                             credentialSource: string, credentialRef: string, autoUnlock: bool)

  /** Lower-casing, the checks of a single device, and the assessment of its credential. */
  datatype EnrollRules = EnrollRules(config: ConfigStore.ConfigRules, lower: string -> string, assess: Device -> bool)

  const SUCCESS_MESSAGE := "System successfully unlocked.\r\nYou may now use SSH to authenticate normally.\r\n\r\n"

  function DeviceOf(r: Request, rules: EnrollRules): Device {
    var source := rules.lower(TrimSpace(r.credentialSource));
    ConfigStore.Device(r.name, r.host, r.user, if r.port == 0 then 22 else r.port, ConfigStore.CredentialId(r.name),
                       if source == "" then ConfigStore.RUNTIME
                       else source, r.credentialRef, SUCCESS_MESSAGE, "", r.autoUnlock)
  }

  /** Every precondition of an enrollment. It changes nothing, so it runs before the probe and
      again after it. */
  predicate Enrollable(candidates: map<string, CandidateView>, store: seq<Device>, r: Request, loadable: bool,
                       rules: EnrollRules) {
    && r.id in candidates
    && (var c := candidates[r.id];
        !c.ignored && !c.managed && c.fingerprint != "" && r.fingerprint == c.fingerprint)
    && (var d := DeviceOf(r, rules);
        && d.credentialSource != ConfigStore.KEYRING
        && ConfigStore.ValidDevice(d, rules.config)
        && loadable && ConfigStore.ValidInventory(store, rules.config)
        && ConfigStore.ValidInventory(store + [d], rules.config)
        && rules.assess(d))
  }

  /** The device a request asks for, told field by field: where to connect and as whom, the
      credential of that name from a source that needs no keyring, and automatic unlock only
      with a credential the daemon can read by itself. */
  predicate AsRequested(d: Device, r: Request, rules: EnrollRules) {
    && d.name == r.name && d.host == r.host && d.user == r.user
    && d.name != "" && d.host != "" && d.user != ""
    && d.port == (if r.port == 0 then 22 else r.port) && 1 <= d.port <= 65535
    && d.cred == "fvu-" + r.name && d.credentialRef == r.credentialRef && d.macAddress == ""
    && d.successMessage == "System successfully unlocked.\r\nYou may now use SSH to authenticate normally.\r\n\r\n"
    && (var asked := rules.lower(TrimSpace(r.credentialSource));
        if asked == "" || asked == "runtime" then d.credentialSource == "runtime"
        else asked == "file" == d.credentialSource)
    && d.autoUnlock == r.autoUnlock && (d.autoUnlock ==> d.credentialSource == "file")
  }

  lemma EnrollableDevice(candidates: map<string, CandidateView>, store: seq<Device>, r: Request, loadable: bool,
                         rules: EnrollRules)
    ensures Enrollable(candidates, store, r, loadable, rules) ==> AsRequested(DeviceOf(r, rules), r, rules)
  {
    hide ConfigStore.ValidInventory, Contains, Utf8Length, TrimSpace;
  }

  /** Exactly when an enrollment may go on: the operator neither ignores nor manages the
      candidate and verified its key, the inventory can be read and takes the requested device,
      and the daemon can use its credential. */
  lemma EnrollableIff(candidates: map<string, CandidateView>, store: seq<Device>, r: Request, loadable: bool,
                      rules: EnrollRules)
    ensures Enrollable(candidates, store, r, loadable, rules) <==>
            && r.id in candidates && !candidates[r.id].ignored && !candidates[r.id].managed
            && candidates[r.id].fingerprint == r.fingerprint != ""
            && loadable && ConfigStore.ValidInventory(store, rules.config)
            && exists d :: AsRequested(d, r, rules) && ConfigStore.ValidInventory(store + [d], rules.config) &&
                           rules.assess(d)
  {
    EnrollableDevice(candidates, store, r, loadable, rules);
    hide ConfigStore.ValidInventory, ConfigStore.ValidDevice;
    if d :| AsRequested(d, r, rules) && ConfigStore.ValidInventory(store + [d], rules.config) && rules.assess(d) {
      assert d == DeviceOf(r, rules);
      LastIsValid(store, d, rules);
    }
  }

  lemma LastIsValid(store: seq<Device>, d: Device, rules: EnrollRules)
    requires ConfigStore.ValidInventory(store + [d], rules.config)
    ensures ConfigStore.ValidDevice(d, rules.config)
  {
    hide ConfigStore.ValidDevice;
    assert (store + [d])[|store|] == d;
  }

  /** A host key as a handshake presents it. */
  datatype HostKey = HostKey(fingerprint: string, line: Bytes, verdict: Bytes -> KnownHosts.Verdict)
  {
    function Pending(): KnownHosts.PendingKey {
      KnownHosts.PendingKey(line, verdict)
    }
  }

  datatype KeyCheck = KeyRefused | KeyPinnedAlready | KeyAccepted

  /** The host-key rules: a changed key is always refused, an unknown one is accepted only on
      request, and an expected fingerprint must match even when the host is known. */
  function CheckHostKey(key: HostKey, hosts: Bytes, acceptNew: bool, expected: string): KeyCheck {
    match key.verdict(hosts)
    case Known => if expected != "" && key.fingerprint != expected then KeyRefused else KeyPinnedAlready
    case UnknownHost =>
      if !acceptNew || (expected != "" && key.fingerprint != expected) then KeyRefused else KeyAccepted
    case _ => KeyRefused
  }

  /** No key passes that is not the expected one, and none is to be pinned unless the host is
      unknown and pinning was asked for. */
  lemma CheckedKeyIsExpected(key: HostKey, hosts: Bytes, acceptNew: bool, expected: string)
    ensures var check := CheckHostKey(key, hosts, acceptNew, expected);
            && (expected != "" && check != KeyRefused ==> key.fingerprint == expected)
            && (check == KeyAccepted <==>
                  acceptNew && key.verdict(hosts) == KnownHosts.UnknownHost &&
                  (expected == "" || key.fingerprint == expected))
            && (key.verdict(hosts) == KnownHosts.ChangedKey ==> check == KeyRefused)
  {}

  // ---------------------------------------------------------------------------------
  // The steps.

  /** `Refused` means that nothing was undone; `left` tells that the failed registration
      nevertheless reached the file. `stray` tells that a failed pin reached known_hosts
      without this enrollment knowing. */
  datatype Outcome = Enrolled | Refused(left: bool) | RolledBack(stray: bool) | RollbackIncomplete

  datatype Stage =
    | Probing
    | Probed(key: Option<HostKey>)
    | Locked(key: Option<HostKey>)
    | Rechecked(key: Option<HostKey>, seen: string)
    | Registered(key: Option<HostKey>, seen: string)
    | Serving(key: Option<HostKey>, seen: string)
    | Pinned(key: Option<HostKey>, owned: Option<Bytes>)
    | UndoAdapter(owned: Option<Bytes>, stray: bool)
    | UndoKey(owned: Option<Bytes>, stray: bool)
    | UndoStore(owned: Option<Bytes>, stray: bool, clean: bool)
    | Closing(outcome: Outcome)
  {
    predicate HoldsMutex() { !Probing? && !Probed? && !Closing? }
  }

  /** `device` and `fingerprint` are what the first validation saw. */
  datatype Call = Call(request: Request, device: Device, fingerprint: string, stage: Stage)

  /** A key line this enrollment wrote: the fingerprints of the key, of the request, and of
      the candidate when it was checked again. */
  datatype PinRecord = PinRecord(line: Bytes, key: string, requested: string, rechecked: string)

  datatype World = World(
    candidates: map<string, CandidateView>,
    store: seq<Device>,
    hosts: Bytes,
    adapter: map<string, Device>,
    engine: set<string>,
    reserved: set<string>,
    holder: Option<nat>,
    calls: map<nat, Call>,
    pins: seq<PinRecord>)

  datatype Action =
    | Begin(t: nat, request: Request, loadable: bool)
    | ProbeHost(t: nat, key: HostKey, reached: bool)
    | GiveUp(t: nat)
    | TakeMutex(t: nat)
    | Recheck(t: nat, canceled: bool, loadable: bool)
    | Register(t: nat, weather: ConfigStore.Weather)
    | Serve(t: nat, canceled: bool)
    | Pin(t: nat, located: bool, commit: KnownHosts.CommitWeather)
    | Join(t: nat, canceled: bool, save: SaveOutcome)
    | DropAdapter(t: nat)
    | DropKey(t: nat, located: bool, readable: bool, save: SaveOutcome)
    | DropStore(t: nat, weather: ConfigStore.Weather)
    | End(t: nat)
    | InboxChanges(candidates: map<string, CandidateView>)
    | StoreWritten(store: seq<Device>)
    | HostsWritten(hosts: Bytes)

  function At(w: World, t: nat, s: Stage): World
    requires t in w.calls
  {
    w.(calls := w.calls[t := w.calls[t].(stage := s)])
  }

  /** The locked part ends: the mutex is free again, the reservation still stands. */
  function Close(w: World, t: nat, outcome: Outcome): World
    requires t in w.calls
  {
    At(w, t, Closing(outcome)).(holder := None)
  }

  predicate AtMostOnce(hosts: Bytes, line: Bytes) {
    !KnownHosts.Present(KnownHosts.Removed(hosts, line), line)
  }

  /** The key line an unfinished call wrote and may have to remove. */
  function Owned(c: Call): Option<Bytes> {
    match c.stage
    case Pinned(_, owned) => owned
    case UndoAdapter(owned, _) => owned
    case UndoKey(owned, _) => owned
    case UndoStore(owned, _, _) => owned
    case _ => None
  }

  /** Other writers do what they like with known_hosts, but do not write the very line that an
      enrollment in progress has written. */
  predicate Neutral(before: Bytes, after: Bytes, line: Bytes) {
    (AtMostOnce(before, line) ==> AtMostOnce(after, line)) &&
    (!KnownHosts.Present(before, line) ==> !KnownHosts.Present(after, line))
  }

  predicate InStage(w: World, t: nat) {
    t in w.calls
  }

  ghost predicate Enabled(w: World, a: Action, rules: EnrollRules) {
    match a
    case Begin(t, request, loadable) => t !in w.calls && w.holder == None
    case ProbeHost(t, key, reached) => InStage(w, t) && w.calls[t].stage.Probing? && KnownHosts.Sound(key.Pending())
    case GiveUp(t) => InStage(w, t) && w.calls[t].stage.Probed?
    case TakeMutex(t) => InStage(w, t) && w.calls[t].stage.Probed? && w.holder == None
    case Recheck(t, canceled, loadable) => InStage(w, t) && w.calls[t].stage.Locked?
    case Register(t, weather) => InStage(w, t) && w.calls[t].stage.Rechecked?
    case Serve(t, canceled) => InStage(w, t) && w.calls[t].stage.Registered?
    case Pin(t, located, commit) => InStage(w, t) && w.calls[t].stage.Serving?
    case Join(t, canceled, save) => InStage(w, t) && w.calls[t].stage.Pinned?
    case DropAdapter(t) => InStage(w, t) && w.calls[t].stage.UndoAdapter?
    case DropKey(t, located, readable, save) => InStage(w, t) && w.calls[t].stage.UndoKey?
    case DropStore(t, weather) => InStage(w, t) && w.calls[t].stage.UndoStore?
    case End(t) => InStage(w, t) && w.calls[t].stage.Closing? && w.holder == None
    case InboxChanges(candidates) => true
    case StoreWritten(store) => true
    case HostsWritten(hosts) => forall t :: t in w.calls && Owned(w.calls[t]).Some? ==>
                                  Neutral(w.hosts, hosts, Owned(w.calls[t]).value)
  }

  function DoBegin(w: World, t: nat, request: Request, loadable: bool, rules: EnrollRules): World {
    if request.id in w.reserved || !Enrollable(w.candidates, w.store, request, loadable, rules) then w
    else w.(reserved := w.reserved + {request.id},
            calls := w.calls[t := Call(request, DeviceOf(request, rules), w.candidates[request.id].fingerprint,
                                       Probing)])
  }

  function DoProbe(w: World, t: nat, key: HostKey, reached: bool): World
    requires t in w.calls
  {
    var check := CheckHostKey(key, w.hosts, true, w.calls[t].fingerprint);
    if !reached || check == KeyRefused then At(w, t, Closing(Refused(false)))
    else At(w, t, Probed(if check == KeyAccepted then Some(key) else None))
  }

  function DoRecheck(w: World, t: nat, canceled: bool, loadable: bool, rules: EnrollRules): World
    requires t in w.calls && w.calls[t].stage.Locked?
  {
    var c := w.calls[t];
    if canceled || !Enrollable(w.candidates, w.store, c.request, loadable, rules) then Close(w, t, Refused(false))
    else
      var seen := w.candidates[c.request.id].fingerprint;
      if seen != c.fingerprint || DeviceOf(c.request, rules) != c.device then Close(w, t, Refused(false))
      else At(w, t, Rechecked(c.stage.key, seen))
  }

  function DoRegister(w: World, t: nat, weather: ConfigStore.Weather, rules: EnrollRules): World
    requires t in w.calls && w.calls[t].stage.Rechecked?
  {
    var c := w.calls[t];
    var (store, ok) := ConfigStore.AddDevice(w.store, c.device, weather, rules.config);
    var w1 := if ok then At(w, t, Registered(c.stage.key, c.stage.seen)) else Close(w, t, Refused(store != w.store));
    w1.(store := store)
  }

  function DoServe(w: World, t: nat, canceled: bool): World
    requires t in w.calls && w.calls[t].stage.Registered?
  {
    var c := w.calls[t];
    if canceled then At(w, t, UndoAdapter(None, false))
    else At(w, t, Serving(c.stage.key, c.stage.seen)).(adapter := w.adapter[c.device.name := c.device])
  }

  function PendingOf(key: Option<HostKey>): KnownHosts.PendingKey {
    if key.Some? then key.value.Pending() else KnownHosts.NoKey
  }

  function DoPin(w: World, t: nat, located: bool, commit: KnownHosts.CommitWeather): World
    requires t in w.calls && w.calls[t].stage.Serving?
  {
    var c := w.calls[t];
    var s := c.stage;
    if !located then At(w, t, UndoAdapter(None, false))
    else
      var out := KnownHosts.Commit(w.hosts, PendingOf(s.key), commit);
      var owned := if out.inserted && s.key.Some? then Some(s.key.value.line) else None;
      var wrote := out.content != w.hosts;
      var w1 := At(w, t, if out.ok then Pinned(s.key, owned) else UndoAdapter(owned, wrote && !out.inserted));
      w1.(hosts := out.content,
          pins := if wrote && s.key.Some?
                  then w.pins + [PinRecord(s.key.value.line, s.key.value.fingerprint, c.request.fingerprint, s.seen)]
                  else w.pins)
  }

  function DoJoin(w: World, t: nat, canceled: bool, save: SaveOutcome): World
    requires t in w.calls && w.calls[t].stage.Pinned?
  {
    var c := w.calls[t];
    if canceled || c.device.name in w.engine || save != Saved then At(w, t, UndoAdapter(c.stage.owned, false))
    else Close(w, t, Enrolled).(engine := w.engine + {c.device.name})
  }

  function DoDropAdapter(w: World, t: nat): World
    requires t in w.calls && w.calls[t].stage.UndoAdapter?
  {
    var s := w.calls[t].stage;
    At(w, t, UndoKey(s.owned, s.stray)).(adapter := w.adapter - {w.calls[t].device.name})
  }

  function DoDropKey(w: World, t: nat, located: bool, readable: bool, save: SaveOutcome): World
    requires t in w.calls && w.calls[t].stage.UndoKey?
  {
    var s := w.calls[t].stage;
    if s.owned.Some? && !located then At(w, t, UndoStore(s.owned, s.stray, false))
    else
      var (hosts, ok) := KnownHosts.RemoveLine(w.hosts, s.owned, readable, save);
      At(w, t, UndoStore(s.owned, s.stray, ok)).(hosts := hosts)
  }

  function DoDropStore(w: World, t: nat, weather: ConfigStore.Weather, rules: EnrollRules): World
    requires t in w.calls && w.calls[t].stage.UndoStore?
  {
    var s := w.calls[t].stage;
    var (store, ok) := ConfigStore.RemoveIfUnchanged(w.store, w.calls[t].device, weather, rules.config);
    Close(w, t, if ok && s.clean then RolledBack(s.stray) else RollbackIncomplete).(store := store)
  }

  function DoEnd(w: World, t: nat): World
    requires t in w.calls
  {
    w.(reserved := w.reserved - {w.calls[t].request.id}, calls := w.calls - {t})
  }

  ghost function Next(w: World, a: Action, rules: EnrollRules): World
    requires Enabled(w, a, rules)
  {
    match a
    case Begin(t, request, loadable) => DoBegin(w, t, request, loadable, rules)
    case ProbeHost(t, key, reached) => DoProbe(w, t, key, reached)
    case GiveUp(t) => At(w, t, Closing(Refused(false)))
    case TakeMutex(t) => At(w, t, Locked(w.calls[t].stage.key)).(holder := Some(t))
    case Recheck(t, canceled, loadable) => DoRecheck(w, t, canceled, loadable, rules)
    case Register(t, weather) => DoRegister(w, t, weather, rules)
    case Serve(t, canceled) => DoServe(w, t, canceled)
    case Pin(t, located, commit) => DoPin(w, t, located, commit)
    case Join(t, canceled, save) => DoJoin(w, t, canceled, save)
    case DropAdapter(t) => DoDropAdapter(w, t)
    case DropKey(t, located, readable, save) => DoDropKey(w, t, located, readable, save)
    case DropStore(t, weather) => DoDropStore(w, t, weather, rules)
    case End(t) => DoEnd(w, t)
    case InboxChanges(candidates) => w.(candidates := candidates)
    case StoreWritten(store) => w.(store := store)
    case HostsWritten(hosts) => w.(hosts := hosts)
  }
}
