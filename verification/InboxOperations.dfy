/** Every operation of the inbox keeps its invariant, publishes gap-free events, and either
    takes effect as a whole or not at all. */
module InboxOperations {
  import opened Shared
  import opened TextOrder
  import opened InboxData
  import opened InboxSteps
  import opened InboxInvariant
  import opened InboxIngest
  import opened InboxBatches

  /** What is saved. */
  ghost predicate ContentOk(s: Index, env: Env) {
    ConfiguredOk(s.configured, env.rules) && WithinLimit(s.entries, s.configured, env)
  }

  /** Events numbered on from a sequence. */
  predicate Follows(pending: seq<Event>, sequence: nat) {
    forall i :: 0 <= i < |pending| ==> pending[i].sequence == sequence + 1 + i
  }

  ghost predicate ChangeOk(s: Index, change: Change, env: Env) {
    ContentOk(change.next, env) && change.next.events == s.events &&
    change.next.sequence == s.sequence + |change.pending| && Follows(change.pending, s.sequence)
  }

  ghost predicate Inv(s: Index, env: Env) {
    ContentOk(s, env) && Gapless(s.events, s.sequence) && |s.events| <= env.maxEvents
  }

  lemma LatestGapless(events: seq<Event>, sequence: nat, pending: seq<Event>, max: int)
    requires Gapless(events, sequence) && Follows(pending, sequence) && max > 0
    ensures Gapless(Latest(events + pending, max), sequence + |pending|) && |Latest(events + pending, max)| <= max
  {
    var all := events + pending;
    assert forall i :: 0 <= i < |all| ==> all[i].sequence == sequence - |events| + 1 + i;
  }

  /** The end of an operation keeps the invariant, whether or not the save succeeds, and a
      failed save changes nothing but perhaps the file. */
  lemma CommitKeepsInv(s: Index, change: Change, save: SaveOutcome, env: Env)
    requires env.maxEvents > 0 && Inv(s, env) && ChangeOk(s, change, env)
    ensures Inv(Commit(s, change, save, env), env)
    ensures var s' := Commit(s, change, save, env);
            if Succeeds(save, env) then s'.(events := s.events, file := s.file) == change.next.(file := s.file)
            else s'.(file := s.file) == s
  {
    hide ConfiguredOk, WithinLimit, DiskOf, Latest, Gapless, Follows;
    LatestGapless(s.events, s.sequence, change.pending, env.maxEvents);
  }

  // ---------------------------------------------------------------------------------
  // Expiry.

  lemma ExpiryKeeps(entries: map<string, Candidate>, now: int, ttl: int, configured: map<string, seq<string>>, env: Env)
    requires WithinLimit(entries, configured, env)
    ensures var gone := Expired(entries, now, ttl);
            && WithinLimit(entries - gone, configured, env) && gone <= entries.Keys
            && |entries - gone| == |entries| - |gone|
            && (forall id :: id in gone ==> entries[id].state != Ignored)
  {
    var gone := Expired(entries, now, ttl);
    RemovalKeepsEntries(entries, gone, configured, env.rules);
    assert (entries - gone).Keys == entries.Keys - gone;
    assert |entries| == |entries.Keys| && |entries - gone| == |(entries - gone).Keys|;
    hide EntriesOk;
  }

  lemma DeparturesFollow(gone: set<string>, sequence: nat, now: int)
    ensures Follows(Departures(Ascending(gone), sequence, now), sequence)
    ensures |Departures(Ascending(gone), sequence, now)| == |gone|
  {
    AscendingFacts(gone);
    hide Ascending;
  }

  lemma ExpireIsOk(s: Index, now: int, env: Env)
    requires Inv(s, env)
    ensures ChangeOk(s, ExpireChange(s, now, env.ttl), env)
  {
    ExpiryKeeps(s.entries, now, env.ttl, s.configured, env);
    DeparturesFollow(Expired(s.entries, now, env.ttl), s.sequence, now);
    hide ConfiguredOk, WithinLimit, Ascending, Departures, Expired;
  }

  // ---------------------------------------------------------------------------------
  // A discovery round.

  predicate AllOk(os: seq<Observation>, rules: Rules) {
    forall k :: 0 <= k < |os| ==> ObservationOk(os[k], rules)
  }

  lemma NormalizedBatchIsOk(raw: seq<Observation>, now: int, rules: Rules)
    requires Lawful(rules) && now != 0 && AllNormalize(raw, now, rules)
    ensures AllOk(NormalizeAll(raw, now, rules), rules)
  {
    hide ObservationOk, NormalizeObservation;
    forall k | 0 <= k < |raw|
      ensures ObservationOk(NormalizeAll(raw, now, rules)[k], rules)
    {
      NormalizedObservationIsOk(raw[k], now, rules);
    }
  }

  lemma RoundStarts(s: Index, os: seq<Observation>, ids: seq<Option<string>>, known: set<string>, now: int, env: Env)
    requires env.maxEntries > 0 && Inv(s, env) && AllOk(os, env.rules) && |os| == |ids| && FreshIds(ids, known)
    requires StartRound(s, now, env.ttl).entries.Keys <= known
    ensures BatchReady(StartRound(s, now, env.ttl), os, ids, known, s.configured, env)
    ensures KeysKept(s.entries, StartRound(s, now, env.ttl).entries)
    ensures StartRound(s, now, env.ttl).entries.Keys <= s.entries.Keys
  {
    ExpiryKeeps(s.entries, now, env.ttl, s.configured, env);
    hide ConfiguredOk, WithinLimit, ObservationOk, FreshIds, Expired;
  }

  /** A discovery round keeps the invariant and numbers its events without a gap. */
  lemma IngestIsOk(s: Index, raw: seq<Observation>, ids: seq<Option<string>>, known: set<string>, now: int, env: Env)
    requires env.Valid() && now != 0 && Inv(s, env) && |ids| == |raw| && FreshIds(ids, known) && s.entries.Keys <= known
    ensures var out := IngestChange(s, raw, ids, now, env);
            out.Some? ==>
              ChangeOk(s, RoundChange(s, out.value), env) && out.value.entries.Keys <= known + Used(ids, |ids|)
  {
    hide ConfiguredOk, WithinLimit, ObservationOk, FreshIds, NormalizeObservation, Expired, IngestStep, Used;
    if AllNormalize(raw, now, env.rules) {
      var os := NormalizeAll(raw, now, env.rules);
      var start := StartRound(s, now, env.ttl);
      NormalizedBatchIsOk(raw, now, env.rules);
      RoundStarts(s, os, ids, known, now, env);
      DeparturesFollow(Expired(s.entries, now, env.ttl), s.sequence, now);
      hide AllNormalize, NormalizeAll, Departures, Ascending, BatchReady;
      assert Follows(start.pending, s.sequence) && start.sequence == s.sequence + |start.pending|;
      PrefixOk(start, os, ids, |raw|, known, s.configured, env);
      RoundConserves(start, os, ids, |raw|, known, s.configured, env);
      hide IngestAll, Lawful, StartRound;
      var out := IngestChange(s, raw, ids, now, env);
      assert out == IngestAll(start, os, ids, |raw|, s.configured, env);
      if out.Some? {
        PublishedFollows(start, out.value, s.sequence);
      }
      hide Published, Follows;
    }
  }

  lemma PublishedFollows(r: Round, r': Round, sequence: nat)
    requires Follows(r.pending, sequence) && r.sequence == sequence + |r.pending| && Published(r, r')
    ensures Follows(r'.pending, sequence) && r'.sequence == sequence + |r'.pending|
  {
    assert forall i :: 0 <= i < |r.pending| ==> r'.pending[i] == r.pending[i];
  }

  // ---------------------------------------------------------------------------------
  // Decisions.

  lemma DecideOk(c: Candidate, d: Decision, now: int, configured: map<string, seq<string>>, rules: Rules)
    requires EntryOk(c, configured, rules) && now != 0 && Decide(c, d, now).Some?
    ensures var c' := Decide(c, d, now).value;
            EntryOk(c', configured, rules) && c'.id == c.id && c'.fingerprint == c.fingerprint &&
            c'.hostnames == c.hostnames
  {
    hide Plain, EndpointOk, ValidId, Sorted, NoRepeats;
  }

  lemma ReplaceOne(entries: map<string, Candidate>, c: Candidate, configured: map<string, seq<string>>, env: Env)
    requires WithinLimit(entries, configured, env) && EntryOk(c, configured, env.rules)
    requires c.id in entries && entries[c.id].fingerprint == c.fingerprint
    ensures WithinLimit(entries[c.id := c], configured, env) && entries[c.id := c].Keys == entries.Keys
  {
    hide EntryOk;
    ReplaceKeepsEntries(entries, {}, c, configured, env.rules);
    assert entries - {} == entries;
    assert entries[c.id := c].Keys == entries.Keys;
    assert |entries[c.id := c]| == |entries[c.id := c].Keys| && |entries| == |entries.Keys|;
  }

  lemma ReviewIsOk(s: Index, id: string, d: Decision, now: int, env: Env)
    requires Inv(s, env) && now != 0
    ensures var out := ReviewChange(s, id, d, now);
            out.Some? ==> ChangeOk(s, out.value, env) && out.value.next.entries.Keys == s.entries.Keys
  {
    hide ConfiguredOk, EntryOk, Decide, Distinct, Gapless;
    if ReviewChange(s, id, d, now).Some? {
      var c := Decide(s.entries[id], d, now).value;
      assert EntryOk(s.entries[id], s.configured, env.rules);
      DecideOk(s.entries[id], d, now, s.configured, env.rules);
      ReplaceOne(s.entries, c, s.configured, env);
    }
    hide WithinLimit;
  }

  // ---------------------------------------------------------------------------------
  // Configuration.

  lemma {:induction false} AddAllExact(values: seq<string>, more: seq<string>)
    ensures NoRepeats(values) ==> NoRepeats(AddAll(values, more, EXACT))
    ensures more != [] ==> AddAll(values, more, EXACT) != []
    ensures NoRepeats(values + more) ==> AddAll(values, more, EXACT) == values + more
  {
    if more == [] {
      assert values + more == values;
    } else {
      var k := |more| - 1;
      AddAllExact(values, more[..k]);
      assert values + more == values + more[..k] + [more[k]];
      if NoRepeats(values + more) {
        NoRepeatsPrefix(values + more[..k], more[k]);
      }
    }
  }

  lemma NoRepeatsPrefix(xs: seq<string>, x: string)
    requires NoRepeats(xs + [x])
    ensures NoRepeats(xs) && !Has(xs, x, EXACT)
  {
    var all := xs + [x];
    forall i, j | 0 <= i < j < |xs|
      ensures xs[i] != xs[j]
    {
      assert all[i] == xs[i] && all[j] == xs[j];
    }
    forall i | 0 <= i < |xs|
      ensures xs[i] != x
    {
      assert all[i] == xs[i] && all[|xs|] == x;
    }
  }

  /** A configuration under construction: like a finished one, but not sorted yet. */
  predicate Growing(configured: map<string, seq<string>>, rules: Rules) {
    forall k :: k in configured ==>
      k != "" && rules.fingerprint(k) == Some(k) && configured[k] != [] && AllPlain(configured[k], 128, rules) &&
      NoRepeats(configured[k])
  }

  lemma NormalizedNamesArePlain(names: seq<string>, rules: Rules)
    requires NamesNormalize(names, rules)
    ensures AllPlain(NormalizedNames(names, rules), 128, rules)
  {
    hide NormalizePlain;
    forall i | 0 <= i < |names|
      ensures Plain(NormalizedNames(names, rules)[i], 128, rules)
    {
      NormalizedIsPlain(names[i], 128, rules);
    }
  }

  lemma {:induction false} UnsortedGrows(items: seq<Configured>, n: nat, rules: Rules)
    requires Lawful(rules) && n <= |items|
    ensures Unsorted(items, n, rules).Some? ==> Growing(Unsorted(items, n, rules).value, rules)
  {
    hide Plain, NormalizePlain, NoRepeats, AllPlain;
    if n > 0 && Unsorted(items, n, rules).Some? {
      UnsortedGrows(items, n - 1, rules);
      var item := items[n - 1];
      var before := Unsorted(items, n - 1, rules).value;
      if item.deviceNames != [] {
        var key := rules.fingerprint(item.fingerprint).value;
        NormalizedNamesArePlain(item.deviceNames, rules);
        WithNamesGrows(before, key, NormalizedNames(item.deviceNames, rules), rules);
      }
    }
  }

  lemma WithNamesGrows(before: map<string, seq<string>>, key: string, names: seq<string>, rules: Rules)
    requires Growing(before, rules) && AllPlain(names, 128, rules) && names != [] && key != ""
    requires rules.fingerprint(key) == Some(key)
    ensures Growing(before[key := AddAll(NamesFor(before, key), names, EXACT)], rules)
  {
    assert NoRepeats(NamesFor(before, key)) && AllPlain(NamesFor(before, key), 128, rules);
    AddAllExact(NamesFor(before, key), names);
    AddAllFrom(NamesFor(before, key), names, EXACT);
    hide Plain, AddAll, NoRepeats;
  }

  lemma SortedNamesOk(names: seq<string>, rules: Rules)
    requires names != [] && AllPlain(names, 128, rules) && NoRepeats(names)
    ensures NamesOk(SortTexts(names), rules)
  {
    SortedTextsFrom(names);
    SortSorts(names);
    SortKeepsAll(names, BY_TEXT);
    var sorted := SortTexts(names);
    assert multiset(sorted) == multiset(names);
    hide SortTexts, Sorted, Plain;
    forall i, j | 0 <= i < j < |sorted|
      ensures sorted[i] != sorted[j]
    {
      if sorted[i] == sorted[j] {
        CountAtLeastTwo(sorted, i, j);
        NoRepeatsCounts(names, sorted[i]);
      }
    }
  }

  lemma {:induction false} NoRepeatsCounts(xs: seq<string>, x: string)
    requires NoRepeats(xs)
    ensures multiset(xs)[x] <= 1
  {
    if xs != [] {
      assert xs == [xs[0]] + xs[1..];
      assert forall i :: 0 <= i < |xs| - 1 ==> xs[1..][i] == xs[i + 1];
      NoRepeatsCounts(xs[1..], x);
      assert x in multiset(xs[1..]) ==> x in xs[1..];
    }
  }

  lemma DescribedIsOk(items: seq<Configured>, rules: Rules)
    requires Lawful(rules)
    ensures Unsorted(items, |items|, rules).Some? ==>
              ConfiguredOk(SortValues(Unsorted(items, |items|, rules).value), rules)
  {
    UnsortedGrows(items, |items|, rules);
    if Unsorted(items, |items|, rules).Some? {
      var m := Unsorted(items, |items|, rules).value;
      hide Unsorted, Lawful, NamesOk, NoRepeats, AllPlain, SortTexts;
      forall k | k in m
        ensures NamesOk(SortTexts(m[k]), rules)
      {
        SortedNamesOk(m[k], rules);
      }
    }
  }

  lemma ReconfiguredOk(c: Candidate, before: map<string, seq<string>>, next: map<string, seq<string>>, rules: Rules)
    requires EntryOk(c, before, rules) && ConfiguredOk(next, rules)
    ensures var c' := Reconfigured(c, NamesFor(next, c.fingerprint));
            && EntryOk(c', next, rules) && c'.id == c.id && c'.fingerprint == c.fingerprint
            && c'.hostnames == c.hostnames
            && (NamesFor(next, c.fingerprint) == c.configuredNames ==> c' == c)
  {
    hide Plain, EndpointOk, ValidId, Sorted, NoRepeats, EndpointsOk;
  }

  /** Replacing each entry by one of the same key keeps the entries in order. */
  lemma SameKeysKeep(entries: map<string, Candidate>, before: map<string, seq<string>>,
                     entries': map<string, Candidate>, next: map<string, seq<string>>, env: Env)
    requires WithinLimit(entries, before, env) && entries'.Keys == entries.Keys
    requires forall id :: id in entries ==>
               entries'[id].id == id && entries'[id].fingerprint == entries[id].fingerprint &&
               EntryOk(entries'[id], next, env.rules)
    ensures WithinLimit(entries', next, env) && KeysKept(entries, entries')
  {
    hide EntryOk;
    assert |entries'| == |entries'.Keys| && |entries| == |entries.Keys|;
  }

  lemma ReconfigurationKeeps(entries: map<string, Candidate>, before: map<string, seq<string>>,
                             next: map<string, seq<string>>, env: Env)
    requires WithinLimit(entries, before, env) && ConfiguredOk(next, env.rules)
    ensures var entries' := ReconfiguredAll(entries, next);
            && WithinLimit(entries', next, env) && entries'.Keys == entries.Keys && KeysKept(entries, entries')
            && (forall id :: id in entries ==> entries'[id].hostnames == entries[id].hostnames)
            && ((forall id :: !NamesChanged(entries, next, id)) ==> entries' == entries)
  {
    hide EntryOk, ConfiguredOk, Distinct, Reconfigured, KeysKept;
    var entries' := ReconfiguredAll(entries, next);
    forall id | id in entries
      ensures EntryOk(entries'[id], next, env.rules) && entries'[id].id == id
      ensures entries'[id].fingerprint == entries[id].fingerprint
      ensures entries'[id].hostnames == entries[id].hostnames
      ensures (!NamesChanged(entries, next, id) ==> entries'[id] == entries[id])
    {
      ReconfiguredOk(entries[id], before, next, env.rules);
    }
    assert entries'.Keys == entries.Keys;
    SameKeysKeep(entries, before, entries', next, env);
    hide EntriesOk, WithinLimit;
  }

  lemma {:induction false} ConfigurationEventsFollow(order: seq<string>, n: nat, entries: map<string, Candidate>,
                                                     next: map<string, seq<string>>, sequence: nat, now: int)
    requires n <= |order|
    ensures var events := ConfigurationEvents(order, n, entries, next, sequence, now);
            Follows(events, sequence) &&
            (events == [] ==> forall i :: 0 <= i < n ==> !NamesChanged(entries, next, order[i]))
  {
    hide NamesChanged, Reconfigured;
    if n > 0 {
      ConfigurationEventsFollow(order, n - 1, entries, next, sequence, now);
    }
  }

  /** A visit of all entries, in any order. */
  ghost predicate Visits(order: seq<string>, entries: map<string, Candidate>) {
    multiset(order) == multiset(entries.Keys)
  }

  lemma DescribedMeansOk(items: seq<Configured>, rules: Rules)
    requires Lawful(rules) && Described(items, rules).Some?
    ensures ConfiguredOk(Described(items, rules).value, rules)
  {
    hide Lawful, ConfiguredOk, SortValues, Unsorted;
    DescribedIsOk(items, rules);
  }

  lemma ReconfigurationIsOk(s: Index, next: map<string, seq<string>>, order: seq<string>, now: int, env: Env)
    requires Inv(s, env) && ConfiguredOk(next, env.rules)
    ensures ChangeOk(s, ConfigureChange(s, next, order, now), env)
    ensures ConfigureChange(s, next, order, now).next.entries.Keys == s.entries.Keys
  {
    hide ConfiguredOk, WithinLimit, NamesChanged, Follows, ReconfiguredAll, ConfigurationEvents, KeysKept, Gapless;
    ReconfigurationKeeps(s.entries, s.configured, next, env);
    ConfigurationEventsFollow(order, |order|, s.entries, next, s.sequence, now);
  }

  /** No event means that no entry changes. */
  lemma QuietReconfiguration(entries: map<string, Candidate>, before: map<string, seq<string>>,
                             next: map<string, seq<string>>, order: seq<string>, sequence: nat, now: int, env: Env)
    requires WithinLimit(entries, before, env) && ConfiguredOk(next, env.rules) && Visits(order, entries)
    requires ConfigurationEvents(order, |order|, entries, next, sequence, now) == []
    ensures ReconfiguredAll(entries, next) == entries
  {
    hide ConfiguredOk, WithinLimit, NamesChanged, Follows, ReconfiguredAll, ConfigurationEvents, KeysKept;
    ReconfigurationKeeps(entries, before, next, env);
    ConfigurationEventsFollow(order, |order|, entries, next, sequence, now);
    forall id
      ensures !NamesChanged(entries, next, id)
    {
      if id in entries {
        assert id in multiset(order);
      } else {
        OnlyEntriesChange(entries, next, id);
      }
    }
  }

  /** A reconfiguration keeps the invariant; the one that publishes nothing and changes no
      configuration leaves the state exactly as it was, so it needs no save. */
  lemma ConfigureIsOk(s: Index, items: seq<Configured>, order: seq<string>, now: int, env: Env)
    requires Inv(s, env) && Lawful(env.rules) && Described(items, env.rules).Some?
    ensures var change := ConfigureChange(s, Described(items, env.rules).value, order, now);
            && ChangeOk(s, change, env) && change.next.entries.Keys == s.entries.Keys
            && (Visits(order, s.entries) && change.pending == [] && change.next.configured == s.configured ==>
                  change.next == s)
  {
    hide Lawful, Described, ConfiguredOk, WithinLimit, Gapless, ChangeOk, ReconfiguredAll, ConfigurationEvents, Visits;
    DescribedMeansOk(items, env.rules);
    var next := Described(items, env.rules).value;
    ReconfigurationIsOk(s, next, order, now, env);
    if Visits(order, s.entries) && ConfigurationEvents(order, |order|, s.entries, next, s.sequence, now) == [] {
      QuietReconfiguration(s.entries, s.configured, next, order, s.sequence, now, env);
    }
  }

  lemma OnlyEntriesChange(entries: map<string, Candidate>, next: map<string, seq<string>>, id: string)
    ensures NamesChanged(entries, next, id) ==> id in entries
  {}
}
