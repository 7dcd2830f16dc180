/** The device inventory file: validation across devices, and read-modify-write cycles under
    the configuration lock. */
module ConfigStore {
  import opened Shared
  import opened PlainText

  datatype Device = Device(
    name: string,
    host: string,
    user: string,
    port: int,
    cred: string,
    credentialSource: string,
    credentialRef: string,
    successMessage: string,
    macAddress: string,
    autoUnlock: bool)

  /** Library rules: characters of category C, the parsers of addresses, MAC addresses and
      file references, and the environment variable of a credential. */
  datatype ConfigRules = ConfigRules(control: char -> bool, address: string -> bool, mac: string -> bool,
                                     fileReference: string -> bool, envName: string -> string)

  const KEYRING := "keyring"
  const RUNTIME := "runtime"
  const FILE := "file"

  function CredentialId(name: string): string {
    "fvu-" + name
  }

  predicate PlainValue(value: string, max: nat, rules: ConfigRules) {
    value != "" && TrimSpace(value) == value && Utf8Length(value) <= max &&
    forall i :: 0 <= i < |value| ==> !rules.control(value[i])
  }

  /** Where the credential of a device comes from. */
  function Source(d: Device): string {
    if d.credentialSource != "" then d.credentialSource else if d.cred == "" then RUNTIME else KEYRING
  }

  predicate ValidDevice(d: Device, rules: ConfigRules) {
    && PlainValue(d.name, 128, rules) && PlainValue(d.host, 253, rules) && PlainValue(d.user, 256, rules)
    && (Contains(d.host, ":") ==> rules.address(d.host))
    && 0 <= d.port <= 65535
    && (d.credentialSource != "" ==>
          d.credentialSource == KEYRING || d.credentialSource == RUNTIME || d.credentialSource == FILE)
    && (d.autoUnlock ==> Source(d) != RUNTIME)
    && (if d.credentialSource == FILE
        then PlainValue(d.credentialRef, 4096, rules) && rules.fileReference(d.credentialRef)
        else d.credentialRef == "")
    && (d.cred != "" ==> PlainValue(d.cred, 256, rules) && d.cred == CredentialId(d.name))
    && Utf8Length(d.successMessage) <= 4096 && !Contains(d.successMessage, "\0")
    && (d.macAddress != "" ==> PlainValue(d.macAddress, 64, rules) && rules.mac(d.macAddress))
  }

  /** A proper value: something without white space at its ends, within its limit in bytes and
      without control characters. */
  predicate Proper(value: string, max: nat, rules: ConfigRules) {
    && value != "" && !IsSpace(value[0]) && !IsSpace(value[|value| - 1]) && Utf8Length(value) <= max
    && forall i :: 0 <= i < |value| ==> !rules.control(value[i])
  }

  lemma ProperIff(value: string, max: nat, rules: ConfigRules)
    ensures PlainValue(value, max, rules) <==> Proper(value, max, rules)
  {
    TrimSpaceTrims(value);
    hide TrimSpace, Utf8Length;
  }

  /** Exactly which devices are valid: proper texts, a host with colons only as an address, and
      one of four ways to the credential. A file reference goes with its file; without a source
      the keyring is meant if a credential is named, and otherwise the runtime, which cannot
      unlock automatically. */
  lemma ValidDeviceIff(d: Device, rules: ConfigRules)
    ensures ValidDevice(d, rules) <==>
            && Proper(d.name, 128, rules) && Proper(d.host, 253, rules) && Proper(d.user, 256, rules)
            && (Contains(d.host, ":") ==> rules.address(d.host)) && 0 <= d.port <= 65535
            && (d.cred == "" || (d.cred == "fvu-" + d.name && Proper(d.cred, 256, rules)))
            && (if d.credentialSource == "file"
                then Proper(d.credentialRef, 4096, rules) && rules.fileReference(d.credentialRef)
                else && d.credentialRef == ""
                     && if d.credentialSource == "runtime" || (d.credentialSource == "" && d.cred == "")
                        then !d.autoUnlock
                        else d.credentialSource == "" || d.credentialSource == "keyring")
            && Utf8Length(d.successMessage) <= 4096 && !Contains(d.successMessage, "\0")
            && (d.macAddress == "" || (Proper(d.macAddress, 64, rules) && rules.mac(d.macAddress)))
  {
    hide PlainValue, Proper, Contains, Utf8Length;
    ProperIff(d.name, 128, rules);
    ProperIff(d.host, 253, rules);
    ProperIff(d.user, 256, rules);
    ProperIff(d.cred, 256, rules);
    ProperIff(d.credentialRef, 4096, rules);
    ProperIff(d.macAddress, 64, rules);
  }

  /** The environment variable that may hold a device's password. */
  function EnvVariable(d: Device, rules: ConfigRules): string {
    rules.envName(if d.cred == "" then CredentialId(d.name) else d.cred)
  }

  /** For a valid device it is always the variable of its name. */
  lemma VariableOfName(d: Device, rules: ConfigRules)
    requires ValidDevice(d, rules)
    ensures EnvVariable(d, rules) == rules.envName("fvu-" + d.name)
  {
    hide PlainValue, Contains, Utf8Length;
  }

  /** Devices are valid one by one, and no two share a name or a credential variable. */
  predicate ValidInventory(devices: seq<Device>, rules: ConfigRules) {
    && (forall i :: 0 <= i < |devices| ==> ValidDevice(devices[i], rules))
    && forall i, j :: 0 <= i < j < |devices| ==>
         devices[i].name != devices[j].name && EnvVariable(devices[i], rules) != EnvVariable(devices[j], rules)
  }

  /** No earlier device has this name or credential variable. */
  predicate NewAmong(devices: seq<Device>, d: Device, rules: ConfigRules) {
    forall k :: 0 <= k < |devices| ==>
                  devices[k].name != d.name && EnvVariable(devices[k], rules) != EnvVariable(d, rules)
  }

  lemma OneMoreDevice(devices: seq<Device>, n: nat, rules: ConfigRules)
    requires n < |devices|
    ensures ValidInventory(devices[..n + 1], rules) <==>
              ValidInventory(devices[..n], rules) && ValidDevice(devices[n], rules) &&
              NewAmong(devices[..n], devices[n], rules)
    ensures ValidInventory(devices, rules) ==> ValidInventory(devices[..n + 1], rules)
  {
    hide ValidDevice, EnvVariable;
    var more := devices[..n + 1];
    assert forall k :: 0 <= k < n ==> more[k] == devices[..n][k];
    assert more[n] == devices[n];
  }

  function Names(devices: seq<Device>, n: nat): set<string>
    requires n <= |devices|
  {
    set k | 0 <= k < n :: devices[k].name
  }

  function Variables(devices: seq<Device>, n: nat, rules: ConfigRules): set<string>
    requires n <= |devices|
  {
    set k | 0 <= k < n :: EnvVariable(devices[k], rules)
  }

  lemma NewAmongNames(devices: seq<Device>, n: nat, rules: ConfigRules)
    requires n < |devices|
    ensures var d := devices[n];
            && (NewAmong(devices[..n], d, rules) <==>
                  d.name !in Names(devices, n) && EnvVariable(d, rules) !in Variables(devices, n, rules))
            && Names(devices, n + 1) == Names(devices, n) + {d.name}
            && Variables(devices, n + 1, rules) == Variables(devices, n, rules) + {EnvVariable(d, rules)}
  {
    hide EnvVariable;
    var prefix := devices[..n];
    assert forall k :: 0 <= k < n ==> prefix[k] == devices[k];
    if NewAmong(prefix, devices[n], rules) {
      forall k | 0 <= k < n
        ensures devices[k].name != devices[n].name && EnvVariable(devices[k], rules) != EnvVariable(devices[n], rules)
      {
        assert prefix[k] == devices[k];
      }
    }
  }

  method ValidateDevices(devices: seq<Device>, rules: ConfigRules) returns (ok: bool)
    ensures ok == ValidInventory(devices, rules)
  {
    var names: set<string>, variables: set<string> := {}, {};
    assert ValidInventory(devices[..0], rules);
    hide ValidDevice, EnvVariable, ValidInventory, NewAmong;
    for i := 0 to |devices|
      invariant ValidInventory(devices[..i], rules)
      invariant names == Names(devices, i) && variables == Variables(devices, i, rules)
    {
      var d := devices[i];
      OneMoreDevice(devices, i, rules);
      NewAmongNames(devices, i, rules);
      if !ValidDevice(d, rules) || d.name in names {
        return false;
      }
      names := names + {d.name};
      var variable := EnvVariable(d, rules);
      if variable in variables {
        return false;
      }
      variables := variables + {variable};
    }
    assert devices[..|devices|] == devices;
    ok := true;
  }

  // ---------------------------------------------------------------------------------
  // The two mutations an enrollment uses.

  predicate Named(devices: seq<Device>, name: string) {
    exists i :: 0 <= i < |devices| && devices[i].name == name
  }

  function WithoutName(devices: seq<Device>, name: string): seq<Device> {
    if devices == [] then []
    else if devices[0].name == name then devices[1..]
    else [devices[0]] + WithoutName(devices[1..], name)
  }

  /** The device of a name, if the inventory has one. */
  function Find(devices: seq<Device>, name: string): Option<Device> {
    if devices == [] then None else if devices[0].name == name then Some(devices[0]) else Find(devices[1..], name)
  }

  /** How a mutation fares: whether the lock was acquired, the file could be read, and how the
      save ended. */
  datatype Weather = Weather(locked: bool, readable: bool, save: SaveOutcome)

  function Written(before: seq<Device>, after: seq<Device>, save: SaveOutcome): seq<Device> {
    if save == FailedKeptOld then before else after
  }

  function AddDevice(devices: seq<Device>, d: Device, weather: Weather, rules: ConfigRules): (seq<Device>, bool) {
    if weather.locked && weather.readable && ValidInventory(devices, rules) && !Named(devices, d.name) &&
       ValidInventory(devices + [d], rules)
    then (Written(devices, devices + [d], weather.save), weather.save == Saved)
    else (devices, false)
  }

  /** Removes a device only if it is still exactly as it was added; a missing one is fine, a
      replaced one is preserved and reported. */
  function RemoveIfUnchanged(devices: seq<Device>, d: Device, weather: Weather,
                             rules: ConfigRules): (seq<Device>, bool) {
    if !weather.locked || !weather.readable || !ValidInventory(devices, rules) then (devices, false)
    else match Find(devices, d.name)
      case None => (devices, true)
      case Some(found) =>
        if found != d then (devices, false)
        else (Written(devices, WithoutName(devices, d.name), weather.save), weather.save == Saved)
  }

  class Store {
    const rules: ConfigRules
    var devices: seq<Device>

    constructor (rules: ConfigRules, devices: seq<Device>)
      ensures this.rules == rules && this.devices == devices
    {
      this.rules, this.devices := rules, devices;
    }

    method Load(weather: Weather) returns (loaded: Option<seq<Device>>)
      ensures loaded == if weather.readable && ValidInventory(devices, rules) then Some(devices) else None
    {
      if !weather.readable {
        return None;
      }
      var valid := ValidateDevices(devices, rules);
      loaded := if valid then Some(devices) else None;
    }

    /** The end of a mutation: the new inventory is validated, then saved. */
    method Replace(next: seq<Device>, save: SaveOutcome) returns (ok: bool)
      modifies this
      ensures ok == (ValidInventory(next, rules) && save == Saved)
      ensures devices == if ValidInventory(next, rules) then Written(old(devices), next, save) else old(devices)
    {
      var valid := ValidateDevices(next, rules);
      if !valid {
        return false;
      }
      if save != FailedKeptOld {
        devices := next;
      }
      ok := save == Saved;
    }

    method Add(d: Device, weather: Weather) returns (ok: bool)
      modifies this
      ensures (devices, ok) == AddDevice(old(devices), d, weather, rules)
    {
      hide ValidInventory;
      if !weather.locked {
        return false;
      }
      var loaded := Load(weather);
      if loaded.None? {
        return false;
      }
      for i := 0 to |devices|
        invariant forall k :: 0 <= k < i ==> devices[k].name != d.name
        invariant devices == old(devices)
      {
        if devices[i].name == d.name {
          return false;
        }
      }
      ok := Replace(devices + [d], weather.save);
    }

    method RemoveUnchanged(expected: Device, weather: Weather) returns (ok: bool)
      modifies this
      ensures (devices, ok) == RemoveIfUnchanged(old(devices), expected, weather, rules)
    {
      hide ValidInventory;
      if !weather.locked {
        return false;
      }
      var loaded := Load(weather);
      if loaded.None? {
        return false;
      }
      for i := 0 to |devices|
        invariant forall k :: 0 <= k < i ==> devices[k].name != expected.name
        invariant devices == old(devices)
      {
        if devices[i].name != expected.name {
          continue;
        }
        FoundAt(devices, expected.name, i);
        if devices[i] != expected {
          return false;
        }
        RemovalStaysValid(devices, expected.name, rules);
        ok := Replace(devices[..i] + devices[i + 1..], weather.save);
        return;
      }
      NotFound(devices, expected.name);
      ok := true;
    }
  }

  lemma {:induction false} FoundAt(devices: seq<Device>, name: string, i: nat)
    requires i < |devices| && devices[i].name == name && forall k :: 0 <= k < i ==> devices[k].name != name
    ensures Find(devices, name) == Some(devices[i]) && WithoutName(devices, name) == devices[..i] + devices[i + 1..]
  {
    if i > 0 {
      FoundAt(devices[1..], name, i - 1);
      assert devices[1..][..i - 1] == devices[1..i] && devices[1..][i..] == devices[i + 1..];
      assert devices[..i] == [devices[0]] + devices[1..i];
    }
  }

  lemma {:induction false} NotFound(devices: seq<Device>, name: string)
    requires forall k :: 0 <= k < |devices| ==> devices[k].name != name
    ensures Find(devices, name) == None
  {
    if devices != [] {
      NotFound(devices[1..], name);
    }
  }

  /** The place of a name, for proofs. */
  lemma FirstNamed(devices: seq<Device>, name: string) returns (i: nat)
    ensures i <= |devices| && forall k :: 0 <= k < i ==> devices[k].name != name
    ensures i < |devices| ==>
              devices[i].name == name && Find(devices, name) == Some(devices[i]) &&
              WithoutName(devices, name) == devices[..i] + devices[i + 1..]
    ensures i == |devices| ==> Find(devices, name) == None
  {
    i := 0;
    while i < |devices| && devices[i].name != name
      invariant i <= |devices| && forall k :: 0 <= k < i ==> devices[k].name != name
    {
      i := i + 1;
    }
    if i < |devices| {
      FoundAt(devices, name, i);
    } else {
      NotFound(devices, name);
    }
  }

  lemma CutStaysValid(devices: seq<Device>, i: nat, rules: ConfigRules)
    requires ValidInventory(devices, rules) && i < |devices|
    ensures ValidInventory(devices[..i] + devices[i + 1..], rules)
  {
    hide ValidDevice, EnvVariable;
    var rest := devices[..i] + devices[i + 1..];
    forall k | 0 <= k < |rest|
      ensures ValidDevice(rest[k], rules)
    {
      assert rest[k] == devices[if k < i then k else k + 1];
    }
    forall j, k | 0 <= j < k < |rest|
      ensures rest[j].name != rest[k].name && EnvVariable(rest[j], rules) != EnvVariable(rest[k], rules)
    {
      assert rest[j] == devices[if j < i then j else j + 1] && rest[k] == devices[if k < i then k else k + 1];
    }
  }

  /** What a rollback writes always passes validation again. */
  lemma RemovalStaysValid(devices: seq<Device>, name: string, rules: ConfigRules)
    requires ValidInventory(devices, rules)
    ensures ValidInventory(WithoutName(devices, name), rules) || Find(devices, name).None?
  {
    hide ValidDevice, EnvVariable;
    var i := FirstNamed(devices, name);
    if i < |devices| {
      CutStaysValid(devices, i, rules);
    }
  }

  /** Adding, then removing, gives back the inventory. */
  lemma RemoveUndoesAdd(devices: seq<Device>, d: Device, rules: ConfigRules)
    requires AddDevice(devices, d, Weather(true, true, Saved), rules).1
    ensures RemoveIfUnchanged(AddDevice(devices, d, Weather(true, true, Saved), rules).0, d, Weather(true, true, Saved),
                              rules) == (devices, true)
  {
    hide ValidInventory;
    FoundAt(devices + [d], d.name, |devices|);
    assert (devices + [d])[..|devices|] + (devices + [d])[|devices| + 1..] == devices;
  }

  /** A removal takes away at most the expected device and no other; once it has succeeded no
      device has the name. */
  lemma RemovalSparesOthers(devices: seq<Device>, d: Device, weather: Weather, rules: ConfigRules)
    ensures var (after, ok) := RemoveIfUnchanged(devices, d, weather, rules);
            && (forall x :: x != d ==> (x in after <==> x in devices))
            && (ok ==> !Named(after, d.name))
            && (Named(devices, d.name) && d !in devices ==> !ok)
  {
    hide ValidDevice, EnvVariable;
    var i := FirstNamed(devices, d.name);
    if i < |devices| {
      var rest := devices[..i] + devices[i + 1..];
      assert devices == devices[..i] + [devices[i]] + devices[i + 1..];
      assert forall k :: 0 <= k < |rest| ==> rest[k] == devices[if k < i then k else k + 1];
      if ValidInventory(devices, rules) {
        assert forall k :: 0 <= k < |rest| ==> rest[k].name != d.name;
      }
    }
  }

  /** An addition adds at most the device, and only a name that was free. */
  lemma AdditionSparesOthers(devices: seq<Device>, d: Device, weather: Weather, rules: ConfigRules)
    ensures var (after, ok) := AddDevice(devices, d, weather, rules);
            && (forall x :: x != d ==> (x in after <==> x in devices))
            && (ok ==> d in after && !Named(devices, d.name))
            && (d in after && d !in devices && !ok ==> weather.save == FailedReplaced)
  {
    hide ValidInventory;
  }
}
