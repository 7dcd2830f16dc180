/** The operations of the discovery inbox as steps on its abstract value: one observation,
    a whole batch, an operator's decision, a new configuration, expiry, saving, reopening
    and reading events. */
module InboxSteps {
  import opened Shared
  import opened TextOrder
  import opened BoundedTime
  import opened InboxData

  datatype EventKind =
    | WasDiscovered | WasUpdated | WasMerged | WasVerified | WasIgnored | WasRestored
    | WasExpired | WasEvicted | WasDropped | ConfigurationChanged

  datatype Event = Event(sequence: nat, at: int, kind: EventKind, candidate: Option<Candidate>, candidateId: string,
                         mergedIds: seq<string>)

  datatype Configured = Configured(fingerprint: string, deviceNames: seq<string>)

  datatype Disk = Disk(sequence: nat, configured: seq<Configured>, candidates: seq<Candidate>)

  /** An inbox without a path keeps nothing on disk and never fails to save. */
  datatype Env = Env(rules: Rules, persistent: bool, ttl: int, maxEntries: int, maxEvents: int)
  {
    ghost predicate Valid() {
      Lawful(rules) && maxEntries > 0 && maxEvents > 0
    }
  }

  const DEFAULT_TTL := 604_800_000_000_000
  const DEFAULT_MAX_CANDIDATES := 4096
  const DEFAULT_MAX_EVENTS := 512

  function WithDefaults(options: Env): Env {
    options.(ttl := if options.ttl == 0 then DEFAULT_TTL else options.ttl,
             maxEntries := if options.maxEntries <= 0 then DEFAULT_MAX_CANDIDATES else options.maxEntries,
             maxEvents := if options.maxEvents <= 0 then DEFAULT_MAX_EVENTS else options.maxEvents)
  }

  datatype Index = Index(
    entries: map<string, Candidate>,
    configured: map<string, seq<string>>,
    sequence: nat,
    dropped: nat,
    evicted: nat,
    events: seq<Event>,
    file: Option<Disk>)

  const EMPTY_INDEX := Index(map[], map[], 0, 0, 0, [], None)

  function NamesFor(configured: map<string, seq<string>>, fingerprint: string): seq<string> {
    if fingerprint in configured then configured[fingerprint] else []
  }

  // ---------------------------------------------------------------------------------
  // One observation.

  datatype IngestResult = IngestResult(candidate: Option<Candidate>, created: bool, dropped: Option<Observation>,
                                       evictedIds: seq<string>, mergedIds: seq<string>)

  /** A batch in progress: what it has changed so far, the events it will publish, and the
      candidates it has produced. */
  datatype Round = Round(
    entries: map<string, Candidate>,
    sequence: nat,
    dropped: nat,
    evicted: nat,
    pending: seq<Event>,
    touched: set<string>,
    results: seq<IngestResult>)

  predicate HasEndpoint(endpoints: seq<Endpoint>, address: string, port: int) {
    exists i :: 0 <= i < |endpoints| && endpoints[i].address == address && endpoints[i].port == port
  }

  predicate MatchesPlace(c: Candidate, o: Observation, rules: Rules) {
    || (o.address != "" && HasEndpoint(c.endpoints, o.address, o.port))
    || (o.hostname != "" && Has(c.hostnames, o.hostname, rules.fold))
    || (o.address == "" && o.hostname == "" && o.name != "" && Has(c.names, o.name, rules.fold))
  }

  /** Two different keys never match, however alike the places are. */
  predicate MatchesObservation(c: Candidate, o: Observation, rules: Rules) {
    if o.fingerprint != "" && c.fingerprint != "" then c.fingerprint == o.fingerprint else MatchesPlace(c, o, rules)
  }

  function Matches(entries: map<string, Candidate>, o: Observation, rules: Rules): set<string> {
    set id | id in entries && MatchesObservation(entries[id], o, rules)
  }

  function Keyed(entries: map<string, Candidate>, ids: set<string>, fingerprint: string): set<string> {
    set id | id in ids && id in entries && entries[id].fingerprint == fingerprint
  }

  ghost function Least(ids: set<string>): Option<string> {
    if ids == {} then None else Some(Ascending(ids)[0])
  }

  /** The entry an observation belongs to: the one with its key, else the first keyless one.
      Without a key, several matches with different keys are no choice at all. */
  ghost function Chosen(entries: map<string, Candidate>, o: Observation, rules: Rules): Option<string> {
    var matches := Matches(entries, o, rules);
    var keyless := Keyed(entries, matches, "");
    if o.fingerprint != "" then
      var same := Keyed(entries, matches, o.fingerprint);
      if same != {} then Least(same) else Least(keyless)
    else if |matches| == 1 then Least(matches)
    else Least(keyless)
  }

  /** An operator's decision protects a candidate from eviction. */
  predicate Pinned(c: Candidate) {
    c.state == Verified || c.state == Ignored || c.verifiedAt.Some? || c.configuredNames != []
  }

  predicate Evictable(entries: map<string, Candidate>, touched: set<string>, id: string) {
    id in entries && id !in touched && !Pinned(entries[id])
  }

  predicate SeenBefore(a: Candidate, b: Candidate) {
    a.lastSeen < b.lastSeen || (a.lastSeen == b.lastSeen && Below(a.id, b.id))
  }

  /** The least recently seen evictable entry. */
  ghost predicate IsVictim(entries: map<string, Candidate>, touched: set<string>, id: string) {
    Evictable(entries, touched, id) &&
    forall other :: Evictable(entries, touched, other) && other != id ==> SeenBefore(entries[id], entries[other])
  }

  ghost function Victim(entries: map<string, Candidate>, touched: set<string>): Option<string> {
    if exists id :: IsVictim(entries, touched, id) then var id :| IsVictim(entries, touched, id); Some(id) else None
  }

  function Emit(r: Round, at: int, kind: EventKind, candidate: Option<Candidate>, id: string,
                merged: seq<string>): Round {
    r.(sequence := r.sequence + 1, pending := r.pending + [Event(r.sequence + 1, at, kind, candidate, id, merged)])
  }

  function NewCandidate(id: string, seen: int): Candidate {
    Candidate(id, Discovered, "", "", [], [], [], [], "", [], seen, seen, None, None)
  }

  /** The chosen candidate takes the key, then the text, then the configured names. */
  function Absorb(c: Candidate, o: Observation, configured: map<string, seq<string>>, rules: Rules): Candidate {
    var keyed :=
      if o.fingerprint == "" then c
      else c.(fingerprint := o.fingerprint, state := if c.state == Discovered then IdentityPending else c.state);
    var merged := MergeObservation(keyed, o, rules);
    var names := NamesFor(configured, merged.fingerprint);
    if names == [] then merged
    else merged.(configuredNames := names, state := if merged.state == Ignored then Ignored else Verified)
  }

  function FoldIn(c: Candidate, ids: seq<string>, entries: map<string, Candidate>, rules: Rules): Candidate {
    if ids == [] then c
    else
      var before := FoldIn(c, ids[..|ids| - 1], entries, rules);
      var id := ids[|ids| - 1];
      if id in entries then MergeCandidates(before, entries[id], rules) else before
  }

  /** Keyless aliases are folded into a candidate with a key. */
  function Aliases(entries: map<string, Candidate>, matches: set<string>, c: Candidate): set<string> {
    if c.fingerprint == "" then {} else Keyed(entries, matches, "") - {c.id}
  }

  ghost function Settle(r: Round, c: Candidate, o: Observation, matches: set<string>, created: bool,
                        evictedIds: seq<string>,
                        configured: map<string, seq<string>>, rules: Rules): Round {
    var c1 := Absorb(c, o, configured, rules);
    var aliases := Aliases(r.entries, matches, c1);
    var merged := Ascending(aliases);
    var c2 := FoldIn(c1, merged, r.entries, rules);
    var kind := if created then WasDiscovered else if merged != [] then WasMerged else WasUpdated;
    var r1 := Emit(r, o.observedAt, kind, Some(c2), c2.id, merged);
    r1.(entries := (r.entries - aliases)[c.id := c2], touched := r.touched + {c.id},
        results := r.results + [IngestResult(Some(c2), created, None, evictedIds, merged)])
  }

  function Dropped(r: Round, o: Observation): Round {
    var r1 := Emit(r, o.observedAt, WasDropped, None, "", []);
    r1.(dropped := r.dropped + 1, results := r.results + [IngestResult(None, false, Some(o), [], [])])
  }

  function Evicted(r: Round, victim: string, at: int): Round {
    var r1 := Emit(r, at, WasEvicted, None, victim, []);
    r1.(entries := r.entries - {victim}, evicted := r.evicted + 1)
  }

  ghost function Create(r: Round, o: Observation, newId: Option<string>, matches: set<string>, evictedIds: seq<string>,
                        configured: map<string, seq<string>>, rules: Rules): Option<Round> {
    if newId.None? then None
    else Some(Settle(r, NewCandidate(newId.value, o.observedAt), o, matches, true, evictedIds, configured, rules))
  }

  /** One normalised observation. A full inbox makes room by one eviction, or drops the
      observation. `newId` is the next random identifier; none when the source of
      randomness fails, which fails the batch. */
  ghost function IngestStep(r: Round, o: Observation, newId: Option<string>, configured: map<string, seq<string>>,
                            env: Env): Option<Round> {
    var matches := Matches(r.entries, o, env.rules);
    match Chosen(r.entries, o, env.rules)
    case Some(id) =>
      if id in r.entries then Some(Settle(r, r.entries[id], o, matches, false, [], configured, env.rules)) else None
    case None =>
      if |r.entries| < env.maxEntries then Create(r, o, newId, matches, [], configured, env.rules)
      else match Victim(r.entries, r.touched)
        case None => Some(Dropped(r, o))
        case Some(victim) => Create(Evicted(r, victim, o.observedAt), o, newId, matches, [victim], configured,
                                    env.rules)
  }

  // ---------------------------------------------------------------------------------
  // A batch.

  /** A time difference saturates at the ends of the 64-bit range. */
  function Elapsed(difference: int): int {
    if difference > MAX_DURATION then MAX_DURATION
    else if difference < -MAX_DURATION - 1 then -MAX_DURATION - 1
    else difference
  }

  predicate Stale(c: Candidate, now: int, ttl: int) {
    c.state != Ignored && Elapsed(now - c.lastSeen) > ttl
  }

  function Expired(entries: map<string, Candidate>, now: int, ttl: int): set<string> {
    if ttl < 0 then {} else set id | id in entries && Stale(entries[id], now, ttl)
  }

  function Departures(ids: seq<string>, sequence: nat, now: int): seq<Event> {
    seq(|ids|, i requires 0 <= i < |ids| => Event(sequence + 1 + i, now, WasExpired, None, ids[i], []))
  }

  ghost function StartRound(s: Index, now: int, ttl: int): Round {
    var gone := Expired(s.entries, now, ttl);
    Round(s.entries - gone, s.sequence + |gone|, s.dropped, s.evicted, Departures(Ascending(gone), s.sequence, now), {},
          [])
  }

  /** The first `n` observations of a batch. */
  ghost function IngestAll(r: Round, os: seq<Observation>, ids: seq<Option<string>>, n: nat,
                           configured: map<string, seq<string>>, env: Env): Option<Round>
    requires n <= |os| == |ids|
  {
    if n == 0 then Some(r)
    else match IngestAll(r, os, ids, n - 1, configured, env)
      case None => None
      case Some(before) => IngestStep(before, os[n - 1], ids[n - 1], configured, env)
  }

  predicate AllNormalize(raw: seq<Observation>, now: int, rules: Rules) {
    forall i :: 0 <= i < |raw| ==> NormalizeObservation(raw[i], now, rules).Some?
  }

  function NormalizeAll(raw: seq<Observation>, now: int, rules: Rules): seq<Observation>
    requires AllNormalize(raw, now, rules)
  {
    seq(|raw|, i requires 0 <= i < |raw| => NormalizeObservation(raw[i], now, rules).value)
  }

  // ---------------------------------------------------------------------------------
  // Saving.

  ghost function ConfiguredList(configured: map<string, seq<string>>): seq<Configured> {
    var keys := Ascending(configured.Keys);
    AscendingFacts(configured.Keys);
    seq(|keys|, i requires 0 <= i < |keys| => Configured(keys[i], configured[keys[i]]))
  }

  ghost function CandidateList(entries: map<string, Candidate>): seq<Candidate> {
    var keys := Ascending(entries.Keys);
    AscendingFacts(entries.Keys);
    seq(|keys|, i requires 0 <= i < |keys| => entries[keys[i]])
  }

  ghost function DiskOf(s: Index): Disk {
    Disk(s.sequence, ConfiguredList(s.configured), CandidateList(s.entries))
  }

  function Latest(events: seq<Event>, max: int): seq<Event> {
    if |events| > max && max >= 0 then events[|events| - max..] else events
  }

  predicate Succeeds(save: SaveOutcome, env: Env) {
    !env.persistent || save == Saved
  }

  /** What an operation wants to do: the new state, still with the old events, and the
      events it will publish. */
  datatype Change = Change(next: Index, pending: seq<Event>)

  /** The end of every operation: publish the events with the new state, or restore the old
      state exactly. A failed save may still have replaced the file. */
  ghost function Commit(s: Index, change: Change, save: SaveOutcome, env: Env): Index {
    var file := if env.persistent && save != FailedKeptOld then Some(DiskOf(change.next)) else s.file;
    if Succeeds(save, env) then change.next.(events := Latest(s.events + change.pending, env.maxEvents), file := file)
    else s.(file := file)
  }

  /** A discovery round; none when an observation is malformed or no identifier can be drawn. */
  ghost function IngestChange(s: Index, raw: seq<Observation>, ids: seq<Option<string>>, now: int,
                              env: Env): Option<Round>
    requires |ids| == |raw|
  {
    if !AllNormalize(raw, now, env.rules) then None
    else IngestAll(StartRound(s, now, env.ttl), NormalizeAll(raw, now, env.rules), ids, |raw|, s.configured, env)
  }

  function RoundChange(s: Index, r: Round): Change {
    Change(s.(entries := r.entries, sequence := r.sequence, dropped := r.dropped, evicted := r.evicted), r.pending)
  }

  // ---------------------------------------------------------------------------------
  // An operator's decision.

  datatype Decision = Verify | Ignore | Restore

  function EventOf(d: Decision): EventKind {
    match d
    case Verify => WasVerified
    case Ignore => WasIgnored
    case Restore => WasRestored
  }

  function Decide(c: Candidate, d: Decision, now: int): Option<Candidate> {
    match d
    case Verify =>
      if c.fingerprint == "" then None else Some(c.(state := Verified, verifiedAt := Some(now), ignoredAt := None))
    case Ignore => Some(c.(state := Ignored, ignoredAt := Some(now)))
    case Restore =>
      if c.state != Ignored then None
      else Some(c.(ignoredAt := None,
                   state := if c.fingerprint == "" then Discovered
                            else if c.configuredNames != [] || c.verifiedAt.Some? then Verified
                            else IdentityPending))
  }

  function ReviewChange(s: Index, id: string, d: Decision, now: int): Option<Change> {
    if id !in s.entries || Decide(s.entries[id], d, now).None? then None
    else
      var c := Decide(s.entries[id], d, now).value;
      Some(Change(s.(entries := s.entries[id := c], sequence := s.sequence + 1),
                  [Event(s.sequence + 1, now, EventOf(d), Some(c), c.id, [])]))
  }

  // ---------------------------------------------------------------------------------
  // Configuration.

  predicate NamesNormalize(names: seq<string>, rules: Rules) {
    forall i :: 0 <= i < |names| ==> NormalizePlain(names[i], 128, rules).Some?
  }

  function NormalizedNames(names: seq<string>, rules: Rules): seq<string>
    requires NamesNormalize(names, rules)
  {
    seq(|names|, i requires 0 <= i < |names| => NormalizePlain(names[i], 128, rules).value)
  }

  /** Reads one configured item into the map; a saved item without names adds nothing. */
  function WithItem(configured: map<string, seq<string>>, item: Configured,
                    rules: Rules): Option<map<string, seq<string>>> {
    var fingerprint := rules.fingerprint(item.fingerprint);
    if fingerprint.None? || !NamesNormalize(item.deviceNames, rules) then None
    else if item.deviceNames == [] then Some(configured)
    else Some(configured[fingerprint.value := AddAll(NamesFor(configured, fingerprint.value),
                                                     NormalizedNames(item.deviceNames, rules), EXACT)])
  }

  function Unsorted(items: seq<Configured>, n: nat, rules: Rules): Option<map<string, seq<string>>>
    requires n <= |items|
  {
    if n == 0 then Some(map[])
    else match Unsorted(items, n - 1, rules)
      case None => None
      case Some(m) => WithItem(m, items[n - 1], rules)
  }

  function SortValues(m: map<string, seq<string>>): map<string, seq<string>> {
    map k | k in m :: SortTexts(m[k])
  }

  predicate EachNamesADevice(items: seq<Configured>) {
    forall i :: 0 <= i < |items| ==> items[i].deviceNames != []
  }

  function Reconfigured(c: Candidate, names: seq<string>): Candidate {
    c.(configuredNames := names,
       state := if names != [] && c.state != Ignored then Verified
                else if c.configuredNames != [] && c.state == Verified && c.verifiedAt.None? then IdentityPending
                else c.state)
  }

  function ReconfiguredAll(entries: map<string, Candidate>, next: map<string, seq<string>>): map<string, Candidate> {
    map id | id in entries :: Reconfigured(entries[id], NamesFor(next, entries[id].fingerprint))
  }

  predicate NamesChanged(entries: map<string, Candidate>, next: map<string, seq<string>>, id: string) {
    id in entries && entries[id].configuredNames != NamesFor(next, entries[id].fingerprint)
  }

  /** The events of a reconfiguration that visits the entries in the given order. */
  function ConfigurationEvents(order: seq<string>, n: nat, entries: map<string, Candidate>,
                               next: map<string, seq<string>>, sequence: nat, now: int): seq<Event>
    requires n <= |order|
  {
    if n == 0 then []
    else
      var before := ConfigurationEvents(order, n - 1, entries, next, sequence, now);
      var id := order[n - 1];
      if NamesChanged(entries, next, id)
      then before + [Event(sequence + |before| + 1, now, ConfigurationChanged,
                           Some(Reconfigured(entries[id],
                                             NamesFor(next, entries[id].fingerprint))), entries[id].id, [])]
      else before
  }

  /** The new configuration the items describe; none when an item is malformed. */
  function Described(items: seq<Configured>, rules: Rules): Option<map<string, seq<string>>> {
    var unsorted := Unsorted(items, |items|, rules);
    if unsorted.None? || !EachNamesADevice(items) then None else Some(SortValues(unsorted.value))
  }

  /** `order` is the arbitrary order in which the entries are visited. */
  function ConfigureChange(s: Index, next: map<string, seq<string>>, order: seq<string>, now: int): Change {
    var events := ConfigurationEvents(order, |order|, s.entries, next, s.sequence, now);
    Change(s.(entries := ReconfiguredAll(s.entries, next), configured := next, sequence := s.sequence + |events|),
           events)
  }

  // ---------------------------------------------------------------------------------
  // Expiry, events, reopening.

  ghost function ExpireChange(s: Index, now: int, ttl: int): Change {
    var gone := Expired(s.entries, now, ttl);
    Change(s.(entries := s.entries - gone, sequence := s.sequence + |gone|),
           Departures(Ascending(gone), s.sequence, now))
  }

  datatype EventBatch = EventBatch(latestSequence: nat, resetRequired: bool, events: seq<Event>)

  /** The retained events after a cursor. */
  function After(events: seq<Event>, cursor: nat): seq<Event> {
    if events == [] then []
    else
      var before := After(events[..|events| - 1], cursor);
      if events[|events| - 1].sequence > cursor then before + [events[|events| - 1]] else before
  }

  function EventsSince(s: Index, cursor: nat): EventBatch {
    if cursor >= s.sequence then EventBatch(s.sequence, false, [])
    else if s.events == [] || cursor + 1 < s.events[0].sequence then EventBatch(s.sequence, true, [])
    else EventBatch(s.sequence, false, After(s.events, cursor))
  }

  /** Adds one saved candidate, with the checks a reopened inbox makes. */
  predicate Admissible(c: Candidate, entries: map<string, Candidate>, configured: map<string, seq<string>>,
                       rules: Rules) {
    && ValidCandidate(c, rules)
    && c.id !in entries
    && (c.fingerprint != "" ==> forall id :: id in entries ==> entries[id].fingerprint != c.fingerprint)
    && c.configuredNames == NamesFor(configured, c.fingerprint)
  }

  function Admitted(candidates: seq<Candidate>, n: nat, configured: map<string, seq<string>>,
                    rules: Rules): Option<map<string, Candidate>>
    requires n <= |candidates|
  {
    if n == 0 then Some(map[])
    else match Admitted(candidates, n - 1, configured, rules)
      case None => None
      case Some(entries) =>
        var c := candidates[n - 1];
        if Admissible(c, entries, configured, rules) then Some(entries[c.id := c]) else None
  }

  /** What a new process makes of the file; an absent file starts empty. */
  function Reopen(file: Option<Disk>, env: Env): Option<Index> {
    if file.None? then Some(EMPTY_INDEX)
    else
      var disk := file.value;
      var unsorted := Unsorted(disk.configured, |disk.configured|, env.rules);
      if unsorted.None? then None
      else
        var configured := SortValues(unsorted.value);
        match Admitted(disk.candidates, |disk.candidates|, configured, env.rules)
        case None => None
        case Some(entries) =>
          if |entries| > env.maxEntries then None
          else Some(Index(entries, configured, disk.sequence, 0, 0, [], file))
  }
}
