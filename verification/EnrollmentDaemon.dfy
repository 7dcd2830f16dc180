/** The enrollment handler of the daemon: its fields and the two files are changed in place,
    and what a failure undoes is stated outright. Others interfere while it probes; the part
    under the mutex runs alone here. */
module EnrollmentDaemon {
  import opened Shared
  import ConfigStore
  import KnownHosts
  import opened Enrollment
  import opened EnrollmentSafety

  /** How each part of one enrollment fares. `canceled` tells whether the request was canceled
      at the checks after the mutex, after registering and after pinning; `joined` is the
      outcome of adding the device to the engine. */
  datatype Fortune = Fortune(
    loadable: bool,
    reached: bool,
    reloadable: bool,
    canceledEarly: bool,
    register: ConfigStore.Weather,
    canceledRegistered: bool,
    located: bool,
    commit: KnownHosts.CommitWeather,
    canceledPinned: bool,
    joined: SaveOutcome,
    undo: Undoing)

  datatype Undoing = Undoing(located: bool, readable: bool, save: SaveOutcome, unregister: ConfigStore.Weather)

  /** What the others make of the candidates and the files while an enrollment probes. */
  datatype Meanwhile = Meanwhile(candidates: map<string, CandidateView>, devices: seq<Device>, hosts: Bytes)

  class Daemon {
    const rules: EnrollRules
    const store: ConfigStore.Store
    const hosts: KnownHosts.KnownHostsFile
    var candidates: map<string, CandidateView>
    var adapter: map<string, Device>
    var engine: set<string>
    var enrolling: set<string>

    constructor (rules: EnrollRules, store: ConfigStore.Store, hosts: KnownHosts.KnownHostsFile,
                 candidates: map<string, CandidateView>, devices: map<string, Device>)
      ensures this.rules == rules && this.store == store && this.hosts == hosts && this.candidates == candidates
      ensures adapter == devices && engine == devices.Keys && enrolling == {}
    {
      this.rules, this.store, this.hosts, this.candidates := rules, store, hosts, candidates;
      adapter, engine, enrolling := devices, devices.Keys, {};
    }

    /** Validates the request and reserves the candidate. */
    method BeginEnrollment(request: Request, loadable: bool) returns (ok: bool)
      modifies this`enrolling
      ensures ok == (request.id !in old(enrolling) && Enrollable(candidates, store.devices, request, loadable, rules))
      ensures enrolling == if ok then old(enrolling) + {request.id} else old(enrolling)
    {
      hide Enrollable;
      if request.id in enrolling || !Enrollable(candidates, store.devices, request, loadable, rules) {
        return false;
      }
      enrolling := enrolling + {request.id};
      ok := true;
    }

    method EndEnrollment(id: string)
      modifies this`enrolling
      ensures enrolling == old(enrolling) - {id}
    {
      enrolling := enrolling - {id};
    }

    /** Undoes an enrollment in reverse order; every part is tried even when one fails. */
    method Rollback(device: Device, owned: Option<Bytes>, undo: Undoing) returns (ok: bool)
      modifies this`adapter, store, hosts
      ensures adapter == old(adapter) - {device.name}
      ensures var (content, unpinned) :=
                if owned.Some? && !undo.located then (old(hosts.content), false)
                else KnownHosts.RemoveLine(old(hosts.content), owned, undo.readable, undo.save);
              var (devices, removed) :=
                ConfigStore.RemoveIfUnchanged(old(store.devices), device, undo.unregister, store.rules);
              hosts.content == content && store.devices == devices && ok == (unpinned && removed)
    {
      adapter := adapter - {device.name};
      var unpinned := true;
      if owned.Some? {
        if undo.located {
          unpinned := hosts.Remove(owned, undo.readable, undo.save);
        } else {
          unpinned := false;
        }
      }
      var removed := store.RemoveUnchanged(device, undo.unregister);
      ok := unpinned && removed;
    }

    /** Everything after the probe, under the mutex: check again, register, serve, pin, join.
        A refusal has touched nothing unless the failed registration reached the file; a
        completed rollback leaves the inventory as it was, known_hosts as it was up to one
        final newline, the engine untouched, and the adapter without the name. */
    method EnrollLocked(request: Request, device: Device, fingerprint: string, key: Option<HostKey>, luck: Fortune)
      returns (outcome: Outcome)
      requires store.rules == rules.config && device == DeviceOf(request, rules) && KeySound(key)
      modifies this`adapter, this`engine, store, hosts
      ensures outcome.Enrolled? ==>
                && Enrollable(candidates, old(store.devices), request, luck.reloadable, rules)
                && fingerprint == candidates[request.id].fingerprint
                && store.devices == old(store.devices) + [device] && adapter == old(adapter)[device.name := device]
                && engine == old(engine) + {device.name} && device.name !in old(engine)
                && (hosts.content == old(hosts.content) ||
                    (key.Some? && hosts.content == KnownHosts.Appended(old(hosts.content), key.value.line)))
                && (key.Some? ==>
                      hosts.content != old(hosts.content) || key.value.verdict(old(hosts.content)) == KnownHosts.Known)
      ensures outcome.Refused? ==>
                && hosts.content == old(hosts.content) && adapter == old(adapter) && engine == old(engine)
                && store.devices == (if outcome.left then old(store.devices) + [device] else old(store.devices))
                && (outcome.left ==> luck.register.save == FailedReplaced)
      ensures outcome.RolledBack? ==>
                && store.devices == old(store.devices) && adapter == old(adapter) - {device.name}
                && engine == old(engine)
                && (!outcome.stray ==>
                      hosts.content == old(hosts.content) || hosts.content == KnownHosts.Terminated(old(hosts.content)))
                && (outcome.stray ==> luck.commit.save == FailedReplaced && !luck.commit.rereadable)
      ensures outcome == RollbackIncomplete ==> engine == old(engine) && adapter == old(adapter) - {device.name}
    {
      hide Enrollable, ConfigStore.AddDevice, ConfigStore.RemoveIfUnchanged, KnownHosts.Commit, KnownHosts.RemoveLine;
      hide KnownHosts.Sound, DeviceOf;
      if luck.canceledEarly || !Enrollable(candidates, store.devices, request, luck.reloadable, rules) {
        return Refused(false);
      }
      CandidateIsThere(candidates, store.devices, request, luck.reloadable, rules);
      if candidates[request.id].fingerprint != fingerprint {
        return Refused(false);
      }
      var before := store.devices;
      RegistrationOutcome(before, device, luck.register, rules.config);
      var registered := store.Add(device, luck.register);
      if !registered {
        return Refused(store.devices != before);
      }
      outcome := FinishEnrollment(device, key, luck, before);
    }

    /** A whole enrollment. While it probes without the mutex, the candidates and both files may
        change in any way. The reservation never outlives it; one that is refused because the
        candidate is reserved or the request does not fit changes nothing at all; and what it
        promises at its end is about the state the others left meanwhile. */
    method HandleEnroll(request: Request, presented: HostKey, meanwhile: Meanwhile, luck: Fortune)
      returns (outcome: Outcome)
      requires store.rules == rules.config && KnownHosts.Sound(presented.Pending())
      modifies this`candidates, this`adapter, this`engine, this`enrolling, store, hosts
      ensures var begins := request.id !in old(enrolling) &&
              Enrollable(old(candidates), old(store.devices), request, luck.loadable, rules);
              && enrolling == old(enrolling)
              && (!begins ==>
                    && outcome == Refused(false) && candidates == old(candidates) && store.devices == old(store.devices)
                    && hosts.content == old(hosts.content) && adapter == old(adapter) && engine == old(engine))
              && (begins ==> candidates == meanwhile.candidates)
              && (begins && !luck.reached ==>
                    && outcome == Refused(false) && store.devices == meanwhile.devices
                    && hosts.content == meanwhile.hosts
                    && adapter == old(adapter) && engine == old(engine))
              && (begins && hosts.content != meanwhile.hosts ==> presented.fingerprint == request.fingerprint)
      ensures outcome.Enrolled? ==>
                && request.id in candidates
                && presented.fingerprint == candidates[request.id].fingerprint == request.fingerprint != ""
                && engine == old(engine) + {request.name}
                && request.name in adapter && adapter == old(adapter)[request.name := adapter[request.name]]
                && store.devices == meanwhile.devices + [adapter[request.name]]
                && AsRequested(adapter[request.name], request, rules)
      ensures outcome.RolledBack? && !outcome.stray ==>
                && store.devices == meanwhile.devices && engine == old(engine)
                && adapter == old(adapter) - {request.name}
                && (hosts.content == meanwhile.hosts || hosts.content == KnownHosts.Terminated(meanwhile.hosts))
    {
      hide Enrollable, ConfigStore.AddDevice, KnownHosts.Sound, CheckHostKey;
      var reserved := BeginEnrollment(request, luck.loadable);
      if !reserved {
        return Refused(false);
      }
      CandidateIsThere(candidates, store.devices, request, luck.loadable, rules);
      var fingerprint := candidates[request.id].fingerprint;
      var check := CheckHostKey(presented, hosts.content, true, fingerprint);
      CheckedKeyIsExpected(presented, hosts.content, true, fingerprint);
      candidates, store.devices, hosts.content := meanwhile.candidates, meanwhile.devices, meanwhile.hosts;
      CandidateIsThere(candidates, store.devices, request, luck.reloadable, rules);
      EnrollableDevice(candidates, store.devices, request, luck.reloadable, rules);
      assert DeviceOf(request, rules).name == request.name;
      hide AsRequested, DeviceOf;
      outcome := Refused(false);
      if luck.reached && check != KeyRefused {
        var key := if check == KeyAccepted then Some(presented) else None;
        outcome := EnrollLocked(request, DeviceOf(request, rules), fingerprint, key, luck);
      }
      EndEnrollment(request.id);
    }

    /** From the registered device to the end. */
    method FinishEnrollment(device: Device, key: Option<HostKey>, luck: Fortune, ghost before: seq<Device>)
      returns (outcome: Outcome)
      requires store.rules == rules.config && KeySound(key) && store.devices == before + [device]
      requires ConfigStore.AddDevice(before, device, luck.register, rules.config) == (before + [device], true)
      modifies this`adapter, this`engine, store, hosts
      ensures !outcome.Refused?
      ensures outcome.Enrolled? ==>
                && store.devices == old(store.devices) && adapter == old(adapter)[device.name := device]
                && engine == old(engine) + {device.name} && device.name !in old(engine)
                && (hosts.content == old(hosts.content) ||
                    (key.Some? && hosts.content == KnownHosts.Appended(old(hosts.content), key.value.line)))
                && (key.Some? ==>
                      hosts.content != old(hosts.content) || key.value.verdict(old(hosts.content)) == KnownHosts.Known)
      ensures outcome.RolledBack? ==>
                && store.devices == before && adapter == old(adapter) - {device.name} && engine == old(engine)
                && (!outcome.stray ==>
                      hosts.content == old(hosts.content) || hosts.content == KnownHosts.Terminated(old(hosts.content)))
                && (outcome.stray ==> luck.commit.save == FailedReplaced && !luck.commit.rereadable)
      ensures outcome == RollbackIncomplete ==> engine == old(engine) && adapter == old(adapter) - {device.name}
    {
      hide ConfigStore.AddDevice, ConfigStore.RemoveIfUnchanged, KnownHosts.Commit, KnownHosts.RemoveLine;
      hide KnownHosts.Sound;
      RegistrationIsUndone(before, device, luck.register, luck.undo.unregister, rules.config);
      NothingToUnpin(hosts.content, luck.undo.readable, luck.undo.save);
      if luck.canceledRegistered {
        var undone := Rollback(device, None, luck.undo);
        return if undone then RolledBack(false) else RollbackIncomplete;
      }
      adapter := adapter[device.name := device];
      assert adapter - {device.name} == old(adapter) - {device.name};
      if !luck.located {
        var undone := Rollback(device, None, luck.undo);
        return if undone then RolledBack(false) else RollbackIncomplete;
      }
      PendingIsSound(key);
      KnownHosts.CommitClaimsItsOwn(hosts.content, PendingOf(key), luck.commit);
      PinIsUndone(hosts.content, key, luck.commit, luck.undo.readable, luck.undo.save);
      var content := hosts.content;
      var inserted, pinned := hosts.CommitPending(PendingOf(key), luck.commit);
      NothingToUnpin(hosts.content, luck.undo.readable, luck.undo.save);
      var stray := !inserted && hosts.content != content;
      var owned := if inserted && key.Some? then Some(key.value.line) else None;
      if !pinned {
        var undone := Rollback(device, owned, luck.undo);
        return if undone then RolledBack(stray) else RollbackIncomplete;
      }
      if luck.canceledPinned || device.name in engine || luck.joined != Saved {
        var undone := Rollback(device, owned, luck.undo);
        return if undone then RolledBack(false) else RollbackIncomplete;
      }
      engine := engine + {device.name};
      outcome := Enrolled;
    }
  }

  lemma PendingIsSound(key: Option<HostKey>)
    requires KeySound(key)
    ensures KnownHosts.Sound(PendingOf(key))
  {}

  lemma CandidateIsThere(candidates: map<string, CandidateView>, store: seq<Device>, r: Request, loadable: bool,
                         rules: EnrollRules)
    ensures Enrollable(candidates, store, r, loadable, rules) ==>
              r.id in candidates && candidates[r.id].fingerprint == r.fingerprint != ""
  {
    hide ConfigStore.ValidDevice, ConfigStore.ValidInventory, DeviceOf;
  }

  lemma RegistrationOutcome(before: seq<Device>, d: Device, weather: ConfigStore.Weather,
                            rules: ConfigStore.ConfigRules)
    ensures var (after, ok) := ConfigStore.AddDevice(before, d, weather, rules);
            (ok ==> after == before + [d]) &&
            (!ok ==> after == before || (after == before + [d] && weather.save == FailedReplaced))
  {
    hide ConfigStore.ValidInventory, ConfigStore.Named;
  }

  /** Whatever removal succeeds after a registration restores the inventory exactly. */
  lemma RegistrationIsUndone(before: seq<Device>, d: Device, weather: ConfigStore.Weather,
                             unregister: ConfigStore.Weather, rules: ConfigStore.ConfigRules)
    requires ConfigStore.AddDevice(before, d, weather, rules) == (before + [d], true)
    ensures ConfigStore.RemoveIfUnchanged(before + [d], d, unregister, rules).1 ==>
              ConfigStore.RemoveIfUnchanged(before + [d], d, unregister, rules).0 == before
  {
    assert before + [d] != before;
    assert !ConfigStore.Named(before, d.name);
    hide ConfigStore.ValidInventory;
    ConfigStore.FoundAt(before + [d], d.name, |before|);
    assert (before + [d])[..|before|] + (before + [d])[|before| + 1..] == before;
  }

  lemma NothingToUnpin(content: Bytes, readable: bool, save: SaveOutcome)
    ensures KnownHosts.RemoveLine(content, None, readable, save) == (content, true)
  {}

  /** Whatever removal succeeds after a pin restores known_hosts up to one final newline. */
  lemma PinIsUndone(content: Bytes, key: Option<HostKey>, commit: KnownHosts.CommitWeather, readable: bool,
                    save: SaveOutcome)
    requires KeySound(key)
    ensures var out := KnownHosts.Commit(content, PendingOf(key), commit);
            && (out.inserted ==> key.Some?)
            && (out.inserted ==>
                  var (after, ok) := KnownHosts.RemoveLine(out.content, Some(key.value.line), readable, save);
                  ok ==> after == KnownHosts.Terminated(content))
  {
    KnownHosts.CommitClaimsItsOwn(content, PendingOf(key), commit);
    if KnownHosts.Commit(content, PendingOf(key), commit).inserted {
      KnownHosts.RemoveUndoesAppend(content, key.value.line);
    }
    hide KnownHosts.Commit, KnownHosts.Appended, KnownHosts.Present, KnownHosts.Removed, KnownHosts.Terminated;
  }
}
