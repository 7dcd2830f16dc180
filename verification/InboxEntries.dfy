/** The loops of the inbox over candidate values and entry maps, in the order the runtime
    happens to visit a map, each proved to compute its specification. */
module InboxEntries {
  import opened Shared
  import opened TextOrder
  import opened InboxData
  import opened InboxSteps
  import opened InboxInvariant
  import opened InboxIngest
  import opened InboxOperations

  method AddTo(values: seq<string>, value: string, same: (string, string) -> bool) returns (out: seq<string>)
    ensures out == Add(values, value, same)
  {
    for i := 0 to |values|
      invariant forall k :: 0 <= k < i ==> !same(values[k], value)
    {
      if same(values[i], value) {
        return values;
      }
    }
    out := values + [value];
  }

  method AddAllTo(values: seq<string>, more: seq<string>, same: (string, string) -> bool) returns (out: seq<string>)
    ensures out == AddAll(values, more, same)
  {
    out := values;
    for i := 0 to |more|
      invariant out == AddAll(values, more[..i], same)
    {
      out := AddTo(out, more[i], same);
      assert more[..i + 1][..i] == more[..i];
    }
    assert more[..|more|] == more;
  }

  lemma {:induction false} PlaceIsFirst(endpoints: seq<Endpoint>, e: Endpoint, i: nat)
    requires i <= |endpoints| && (forall k :: 0 <= k < i ==> !SamePlace(endpoints[k], e))
    requires i < |endpoints| ==> SamePlace(endpoints[i], e)
    ensures PlaceOf(endpoints, e) == i
  {
    if i > 0 {
      PlaceIsFirst(endpoints[1..], e, i - 1);
    }
  }

  method MergeEndpointInto(endpoints: seq<Endpoint>, incoming: Endpoint) returns (out: seq<Endpoint>)
    ensures out == MergeEndpoint(endpoints, incoming)
  {
    for i := 0 to |endpoints|
      invariant forall k :: 0 <= k < i ==> !SamePlace(endpoints[k], incoming)
    {
      if SamePlace(endpoints[i], incoming) {
        PlaceIsFirst(endpoints, incoming, i);
        return endpoints[i := Widen(endpoints[i], incoming)];
      }
    }
    PlaceIsFirst(endpoints, incoming, |endpoints|);
    out := SortBy(endpoints + [incoming], BY_PLACE);
  }

  method MergeEndpointsInto(endpoints: seq<Endpoint>, more: seq<Endpoint>) returns (out: seq<Endpoint>)
    ensures out == MergeEndpoints(endpoints, more)
  {
    hide MergeEndpoint;
    out := endpoints;
    for i := 0 to |more|
      invariant out == MergeEndpoints(endpoints, more[..i])
    {
      out := MergeEndpointInto(out, more[i]);
      assert more[..i + 1][..i] == more[..i];
    }
    assert more[..|more|] == more;
  }

  method MergeInto(target: Candidate, source: Candidate, rules: Rules) returns (merged: Candidate)
    ensures merged == MergeCandidates(target, source, rules)
  {
    hide AddAll, SortTexts, MergeEndpoints;
    merged := target.(firstSeen := Earlier(target.firstSeen, source.firstSeen),
                      lastSeen := Later(target.lastSeen, source.lastSeen));
    var names := AddAllTo(target.names, source.names, rules.fold);
    var hostnames := AddAllTo(target.hostnames, source.hostnames, rules.fold);
    var sources := AddAllTo(target.sources, source.sources, EXACT);
    var endpoints := MergeEndpointsInto(target.endpoints, source.endpoints);
    if source.state == Ignored {
      merged := merged.(state := Ignored, ignoredAt := source.ignoredAt);
    }
    if target.lastEvidence == "" {
      merged := merged.(lastEvidence := source.lastEvidence);
    }
    merged := merged.(names := SortTexts(names), hostnames := SortTexts(hostnames), sources := SortTexts(sources),
                      endpoints := endpoints);
  }

  /** The elements of a set, visited in any order, as a sorted list. */
  method SortedList(ids: set<string>) returns (out: seq<string>)
    ensures out == Ascending(ids)
  {
    var todo := ids;
    out := [];
    while todo != {}
      invariant todo <= ids && multiset(out) == multiset(ids - todo)
    {
      var id :| id in todo;
      assert ids - (todo - {id}) == (ids - todo) + {id};
      out := out + [id];
      todo := todo - {id};
    }
    assert ids - todo == ids;
    SortedEnumeration(out, ids);
    out := SortTexts(out);
  }

  method MatchingIds(entries: map<string, Candidate>, o: Observation, rules: Rules) returns (matches: seq<string>)
    ensures matches == Ascending(Matches(entries, o, rules))
  {
    var seen: set<string> := {};
    if o.fingerprint != "" {
      var todo := entries.Keys;
      while todo != {}
        invariant todo <= entries.Keys
        invariant seen == set id | id in entries.Keys - todo && entries[id].fingerprint == o.fingerprint
      {
        var id :| id in todo;
        if entries[id].fingerprint == o.fingerprint {
          seen := seen + {id};
        }
        todo := todo - {id};
      }
    }
    ghost var keyed := seen;
    var todo := entries.Keys;
    while todo != {}
      invariant todo <= entries.Keys
      invariant keyed <= seen <= Matches(entries, o, rules)
      invariant forall id :: id in entries.Keys - todo && MatchesObservation(entries[id], o, rules) ==> id in seen
    {
      var id :| id in todo;
      todo := todo - {id};
      var c := entries[id];
      if o.fingerprint != "" && c.fingerprint != "" && c.fingerprint != o.fingerprint {
        continue;
      }
      if MatchesPlace(c, o, rules) {
        seen := seen + {id};
      }
    }
    assert seen == Matches(entries, o, rules);
    matches := SortedList(seen);
  }

  /** The first listed entry with a given fingerprint is the least of them. */
  lemma FirstIsLeast(ids: set<string>, wanted: set<string>, i: nat)
    requires wanted <= ids && i < |Ascending(ids)| && Ascending(ids)[i] in wanted
    requires forall k :: 0 <= k < i ==> Ascending(ids)[k] !in wanted
    ensures Least(wanted) == Some(Ascending(ids)[i])
  {
    var all, some := Ascending(ids), Ascending(wanted);
    AscendingFacts(ids);
    AscendingFacts(wanted);
    hide Ascending;
    assert all[i] in some;
    assert some[0] in some && some[0] in wanted && some[0] in all;
    var j :| 0 <= j < |all| && all[j] == some[0];
    BelowIsTotal(all[i], some[0]);
    BelowIsTotal(some[0], all[i]);
    assert j >= i && AtMost(all[i], some[0]);
    var k :| 0 <= k < |some| && some[k] == all[i];
    assert AtMost(some[0], all[i]);
  }

  lemma ListedAsSet(ids: set<string>)
    ensures forall x :: x in Ascending(ids) <==> x in ids
    ensures |Ascending(ids)| == |ids|
  {
    AscendingFacts(ids);
  }

  method FirstWith(entries: map<string, Candidate>, ghost all: set<string>, ids: seq<string>, fingerprint: string)
    returns (found: Option<string>)
    requires ids == Ascending(all) && all <= entries.Keys
    ensures found == Least(Keyed(entries, all, fingerprint))
  {
    ListedAsSet(all);
    hide Ascending;
    assert forall k :: 0 <= k < |ids| ==> ids[k] in ids && ids[k] in entries;
    ghost var wanted := Keyed(entries, all, fingerprint);
    for i := 0 to |ids|
      invariant forall k :: 0 <= k < i ==> ids[k] !in wanted
    {
      if entries[ids[i]].fingerprint == fingerprint {
        FirstIsLeast(all, wanted, i);
        return Some(ids[i]);
      }
    }
    forall id | id in all
      ensures id !in wanted
    {
      assert id in ids;
    }
    found := None;
  }

  /** The least recently seen entry that may be evicted, whatever the order of the visit. */
  method EvictionTarget(entries: map<string, Candidate>, touched: set<string>) returns (victim: Option<string>)
    requires forall id :: id in entries ==> entries[id].id == id
    ensures victim == Victim(entries, touched)
  {
    victim := None;
    var todo := entries.Keys;
    while todo != {}
      invariant todo <= entries.Keys
      invariant victim.None? ==> forall id :: id in entries.Keys - todo ==> !Evictable(entries, touched, id)
      invariant victim.Some? ==> victim.value in entries.Keys - todo && Evictable(entries, touched, victim.value)
      invariant victim.Some? ==>
                  forall id :: id in entries.Keys - todo && Evictable(entries, touched, id) && id != victim.value ==>
                                                SeenBefore(entries[victim.value], entries[id])
    {
      var id :| id in todo;
      ghost var before := todo;
      todo := todo - {id};
      if id in touched || Pinned(entries[id]) {
        continue;
      }
      if victim.None? {
        victim := Some(id);
      } else {
        var c, best := entries[id], entries[victim.value];
        SeenBeforeIsOrder(best, c, c);
        if c.lastSeen < best.lastSeen || (c.lastSeen == best.lastSeen && Below(c.id, best.id)) {
          forall other | other in entries.Keys - before && Evictable(entries, touched, other)
            ensures SeenBefore(c, entries[other])
          {
            SeenBeforeIsOrder(c, best, entries[other]);
          }
          victim := Some(id);
        }
      }
    }
    VictimFacts(entries, touched);
    if victim.Some? {
      assert IsVictim(entries, touched, victim.value);
    }
  }

  method Overdue(entries: map<string, Candidate>, now: int, ttl: int) returns (ids: seq<string>)
    ensures ids == Ascending(Expired(entries, now, ttl))
  {
    var gone: set<string> := {};
    if ttl >= 0 {
      var todo := entries.Keys;
      while todo != {}
        invariant todo <= entries.Keys
        invariant gone == set id | id in entries.Keys - todo && Stale(entries[id], now, ttl)
      {
        var id :| id in todo;
        todo := todo - {id};
        if entries[id].state == Ignored || Elapsed(now - entries[id].lastSeen) <= ttl {
          continue;
        }
        gone := gone + {id};
      }
    }
    assert gone == Expired(entries, now, ttl);
    ids := SortedList(gone);
  }

  /** The listed names that are in a set, in the order of the list. */
  function Picked(ids: seq<string>, wanted: set<string>, n: nat): seq<string>
    requires n <= |ids|
  {
    if n == 0 then []
    else if ids[n - 1] in wanted then Picked(ids, wanted, n - 1) + [ids[n - 1]]
    else Picked(ids, wanted, n - 1)
  }

  lemma {:induction false} PickedElements(ids: seq<string>, wanted: set<string>, n: nat)
    requires n <= |ids|
    ensures forall x :: x in Picked(ids, wanted, n) <==> x in wanted && x in ids[..n]
  {
    if n > 0 {
      PickedElements(ids, wanted, n - 1);
      assert ids[..n] == ids[..n - 1] + [ids[n - 1]];
    }
  }

  lemma {:induction false} PickedSorted(ids: seq<string>, wanted: set<string>, n: nat)
    requires n <= |ids| && Sorted(ids) && NoRepeats(ids)
    ensures Sorted(Picked(ids, wanted, n)) && NoRepeats(Picked(ids, wanted, n))
  {
    if n > 0 {
      PickedSorted(ids, wanted, n - 1);
      PickedElements(ids, wanted, n - 1);
      var before := Picked(ids, wanted, n - 1);
      forall k | 0 <= k < |before|
        ensures AtMost(before[k], ids[n - 1]) && before[k] != ids[n - 1]
      {
        assert before[k] in ids[..n - 1];
      }
    }
  }

  lemma {:induction false} ListOfSet(xs: seq<string>, s: set<string>)
    requires NoRepeats(xs) && forall x :: x in xs <==> x in s
    ensures multiset(xs) == multiset(s)
  {
    if xs == [] {
      assert s == {};
    } else {
      var k := |xs| - 1;
      assert xs == xs[..k] + [xs[k]];
      assert forall x :: x in xs[..k] <==> x in s - {xs[k]};
      ListOfSet(xs[..k], s - {xs[k]});
      assert s == (s - {xs[k]}) + {xs[k]};
    }
  }

  lemma PickedIsAscending(all: set<string>, wanted: set<string>)
    requires wanted <= all
    ensures Picked(Ascending(all), wanted, |Ascending(all)|) == Ascending(wanted)
  {
    var ids := Ascending(all);
    AscendingFacts(all);
    hide Ascending;
    PickedSorted(ids, wanted, |ids|);
    PickedElements(ids, wanted, |ids|);
    assert ids[..|ids|] == ids;
    hide Picked, Sorted;
    ListOfSet(Picked(ids, wanted, |ids|), wanted);
    SortedEnumeration(Picked(ids, wanted, |ids|), wanted);
    SortedStays(Picked(ids, wanted, |ids|));
  }

  lemma PickedStep(ids: seq<string>, wanted: set<string>, n: nat)
    requires n < |ids| && NoRepeats(ids)
    ensures ids[n] !in Picked(ids, wanted, n)
    ensures Picked(ids, wanted, n + 1) == if ids[n] in wanted then Picked(ids, wanted, n) + [ids[n]]
                                          else Picked(ids, wanted, n)
  {
    assert forall k :: 0 <= k < n ==> ids[k] != ids[n];
    PickedElements(ids, wanted, n);
  }

  method ListConfigured(configured: map<string, seq<string>>) returns (items: seq<Configured>)
    ensures items == ConfiguredList(configured)
  {
    var keys := SortedList(configured.Keys);
    ListedAsSet(configured.Keys);
    hide Ascending;
    items := [];
    for i := 0 to |keys|
      invariant |items| == i &&
                forall k :: 0 <= k < i ==> keys[k] in configured && items[k] == Configured(keys[k], configured[keys[k]])
    {
      assert keys[i] in keys;
      items := items + [Configured(keys[i], configured[keys[i]])];
    }
  }

  method ListCandidates(entries: map<string, Candidate>) returns (candidates: seq<Candidate>)
    ensures candidates == CandidateList(entries)
  {
    var ids := SortedList(entries.Keys);
    ListedAsSet(entries.Keys);
    hide Ascending;
    candidates := [];
    for i := 0 to |ids|
      invariant |candidates| == i && forall k :: 0 <= k < i ==> ids[k] in entries && candidates[k] == entries[ids[k]]
    {
      assert ids[i] in ids;
      candidates := candidates + [entries[ids[i]]];
    }
  }

  /** Folds the other keyless matches into the candidate, one by one, and removes them. */
  method FoldMatches(entries: map<string, Candidate>, c: Candidate, ghost all: set<string>, matches: seq<string>,
                     rules: Rules)
    returns (folded: Candidate, merged: seq<string>, left: map<string, Candidate>)
    requires NoRepeats(matches) && (forall x :: x in matches <==> x in all) && c.fingerprint != ""
    ensures merged == Picked(matches, Aliases(entries, all, c), |matches|)
    ensures folded == FoldIn(c, merged, entries, rules) && left == entries - Elements(merged)
  {
    folded, merged, left := c, [], entries;
    ghost var aliases := Aliases(entries, all, c);
    NothingPicked(matches, aliases, c, entries, rules);
    hide Aliases, Picked, FoldIn, MergeCandidates, NoRepeats;
    for i := 0 to |matches|
      invariant merged == Picked(matches, aliases, i)
      invariant folded == FoldIn(c, merged, entries, rules)
      invariant left == entries - Elements(merged)
    {
      var id := matches[i];
      PickedStep(matches, aliases, i);
      AliasOrNot(entries, all, c, id);
      if id == c.id || id !in left || left[id].fingerprint != "" {
        continue;
      }
      FoldOneMore(c, merged, id, entries, rules);
      folded := MergeInto(folded, left[id], rules);
      left := left - {id};
      assert Elements(merged + [id]) == Elements(merged) + {id};
      merged := merged + [id];
    }
  }

  method FoldAliases(entries: map<string, Candidate>, c: Candidate, ghost all: set<string>, matches: seq<string>,
                     rules: Rules)
    returns (folded: Candidate, merged: seq<string>, left: map<string, Candidate>)
    requires matches == Ascending(all) && c.fingerprint != ""
    ensures var aliases := Aliases(entries, all, c);
            && merged == Ascending(aliases) && folded == FoldIn(c, merged, entries, rules) && left == entries - aliases
  {
    ghost var aliases := Aliases(entries, all, c);
    AscendingFacts(all);
    folded, merged, left := FoldMatches(entries, c, all, matches, rules);
    AliasesInAll(entries, all, c);
    PickedIsAscending(all, aliases);
    AscendingFacts(aliases);
    hide Ascending, Aliases, Picked, FoldIn, MergeCandidates, Sorted;
    assert Elements(merged) == aliases;
    SortedStays(merged);
    merged := SortTexts(merged);
  }

  lemma AliasesInAll(entries: map<string, Candidate>, all: set<string>, c: Candidate)
    ensures Aliases(entries, all, c) <= all
  {}

  lemma NothingPicked(ids: seq<string>, wanted: set<string>, c: Candidate, entries: map<string, Candidate>,
                      rules: Rules)
    ensures Picked(ids, wanted, 0) == [] && FoldIn(c, [], entries, rules) == c
  {}

  lemma FoldOneMore(c: Candidate, ids: seq<string>, id: string, entries: map<string, Candidate>, rules: Rules)
    requires id in entries
    ensures FoldIn(c, ids + [id], entries, rules) == MergeCandidates(FoldIn(c, ids, entries, rules), entries[id], rules)
  {
    assert (ids + [id])[..|ids|] == ids;
  }

  lemma AliasOrNot(entries: map<string, Candidate>, all: set<string>, c: Candidate, id: string)
    requires c.fingerprint != ""
    ensures id in Aliases(entries, all, c) <==>
              id in all && id != c.id && id in entries && entries[id].fingerprint == ""
  {}

  method MergeObservationInto(c: Candidate, o: Observation, rules: Rules) returns (merged: Candidate)
    ensures merged == MergeObservation(c, o, rules)
  {
    hide Add, SortTexts, MergeEndpoint;
    merged := c.(firstSeen := Earlier(c.firstSeen, o.observedAt), lastSeen := Later(c.lastSeen, o.observedAt));
    var names, hostnames, sources, endpoints := c.names, c.hostnames, c.sources, c.endpoints;
    if o.name != "" {
      names := AddTo(names, o.name, rules.fold);
    }
    if o.hostname != "" {
      hostnames := AddTo(hostnames, o.hostname, rules.fold);
    }
    if o.source != "" {
      sources := AddTo(sources, o.source, EXACT);
    }
    if o.address != "" {
      endpoints := MergeEndpointInto(endpoints, Endpoint(o.address, o.port, o.observedAt, o.observedAt));
    }
    if o.keyType != "" {
      merged := merged.(keyType := o.keyType);
    }
    if o.evidence != "" {
      merged := merged.(lastEvidence := o.evidence);
    }
    merged := merged.(names := SortTexts(names), hostnames := SortTexts(hostnames), sources := SortTexts(sources),
                      endpoints := endpoints);
  }

  /** The candidate takes the key, the text and the configured names of an observation. */
  method AbsorbInto(c: Candidate, o: Observation, configured: map<string, seq<string>>, rules: Rules)
    returns (absorbed: Candidate)
    ensures absorbed == Absorb(c, o, configured, rules) && absorbed.id == c.id
  {
    hide AddGiven, SortTexts, MergeEndpoint;
    absorbed := c;
    if o.fingerprint != "" {
      absorbed := absorbed.(fingerprint := o.fingerprint);
      if absorbed.state == Discovered {
        absorbed := absorbed.(state := IdentityPending);
      }
    }
    absorbed := MergeObservationInto(absorbed, o, rules);
    var names := NamesFor(configured, absorbed.fingerprint);
    if |names| > 0 {
      absorbed := absorbed.(configuredNames := names);
      if absorbed.state != Ignored {
        absorbed := absorbed.(state := Verified);
      }
    }
  }

  method ChooseMatch(entries: map<string, Candidate>, o: Observation, matches: seq<string>, rules: Rules)
    returns (chosen: Option<string>)
    requires matches == Ascending(Matches(entries, o, rules))
    ensures chosen == Chosen(entries, o, rules)
  {
    ghost var all := Matches(entries, o, rules);
    ListedAsSet(all);
    MatchesAreEntries(entries, o, rules);
    LeastIsMember(Keyed(entries, all, o.fingerprint));
    hide Ascending, Matches;
    if o.fingerprint != "" {
      chosen := FirstWith(entries, all, matches, o.fingerprint);
      if chosen.None? {
        chosen := FirstWith(entries, all, matches, "");
      }
    } else if |matches| == 1 {
      chosen := Some(matches[0]);
    } else {
      chosen := FirstWith(entries, all, matches, "");
    }
  }

  lemma MatchesAreEntries(entries: map<string, Candidate>, o: Observation, rules: Rules)
    ensures Matches(entries, o, rules) <= entries.Keys
  {}

  method ReadItem(configured: map<string, seq<string>>, item: Configured, rules: Rules)
    returns (out: Option<map<string, seq<string>>>)
    ensures out == WithItem(configured, item, rules)
  {
    hide NormalizePlain, Add;
    var fingerprint := rules.fingerprint(item.fingerprint);
    if fingerprint.None? {
      return None;
    }
    var key, names, next := fingerprint.value, item.deviceNames, configured;
    var read: seq<string> := [];
    for i := 0 to |names|
      invariant |read| == i && forall k :: 0 <= k < i ==> NormalizePlain(names[k], 128, rules) == Some(read[k])
      invariant next == if i == 0 then configured else configured[key := AddAll(NamesFor(configured, key), read, EXACT)]
    {
      var name := NormalizePlain(names[i], 128, rules);
      if name.None? {
        return None;
      }
      var longer := AddTo(NamesFor(next, key), name.value, EXACT);
      assert (read + [name.value])[..|read|] == read;
      next := next[key := longer];
      read := read + [name.value];
    }
    assert NamesNormalize(names, rules) && read == NormalizedNames(names, rules);
    out := Some(next);
  }

  method SortAll(m: map<string, seq<string>>) returns (sorted: map<string, seq<string>>)
    ensures sorted == SortValues(m)
  {
    hide SortTexts;
    sorted := m;
    var todo := m.Keys;
    while todo != {}
      invariant todo <= m.Keys && sorted.Keys == m.Keys
      invariant forall k :: k in m ==> sorted[k] == if k in todo then m[k] else SortTexts(m[k])
    {
      var k :| k in todo;
      sorted := sorted[k := SortTexts(sorted[k])];
      todo := todo - {k};
    }
  }

  lemma {:induction false} UnreadableStays(items: seq<Configured>, n: nat, rules: Rules)
    requires n <= |items| && Unsorted(items, n, rules).None?
    ensures Unsorted(items, |items|, rules).None?
    decreases |items| - n
  {
    hide WithItem;
    if n < |items| {
      UnreadableStays(items, n + 1, rules);
    }
  }

  /** Reads a configuration; `strict` also demands that each item names a device. */
  method ReadConfiguration(items: seq<Configured>, strict: bool, rules: Rules)
    returns (out: Option<map<string, seq<string>>>)
    ensures var unsorted := Unsorted(items, |items|, rules);
            out == if unsorted.None? || (strict && !EachNamesADevice(items)) then None
                   else Some(SortValues(unsorted.value))
  {
    hide WithItem, SortValues;
    var next: map<string, seq<string>> := map[];
    for i := 0 to |items|
      invariant Unsorted(items, i, rules) == Some(next)
      invariant strict ==> forall k :: 0 <= k < i ==> items[k].deviceNames != []
    {
      if strict && |items[i].deviceNames| == 0 {
        return None;
      }
      var read := ReadItem(next, items[i], rules);
      if read.None? {
        UnreadableStays(items, i + 1, rules);
        return None;
      }
      next := read.value;
    }
    var sorted := SortAll(next);
    out := Some(sorted);
  }

  /** The entries when all but some have been visited. */
  function Halfway(entries: map<string, Candidate>, next: map<string, seq<string>>,
                   todo: set<string>): map<string, Candidate> {
    map id | id in entries :: if id in todo then entries[id]
                              else Reconfigured(entries[id], NamesFor(next, entries[id].fingerprint))
  }

  lemma OneMoreVisit(entries: map<string, Candidate>, next: map<string, seq<string>>, todo: set<string>, id: string)
    requires id in todo && id in entries
    ensures Halfway(entries, next, todo).Keys == entries.Keys && Halfway(entries, next, todo)[id] == entries[id]
    ensures Halfway(entries, next, todo - {id}) ==
            Halfway(entries, next, todo)[id := Reconfigured(entries[id], NamesFor(next, entries[id].fingerprint))]
  {
    hide Reconfigured, NamesFor;
  }

  lemma VisitBounds(entries: map<string, Candidate>, next: map<string, seq<string>>)
    ensures Halfway(entries, next, entries.Keys) == entries
    ensures Halfway(entries, next, {}) == ReconfiguredAll(entries, next)
  {
    hide Reconfigured, NamesFor;
  }

  lemma VisitedSet(keys: set<string>, todo: set<string>, id: string)
    requires id in todo && todo <= keys
    ensures multiset(keys - (todo - {id})) == multiset(keys - todo) + multiset{id}
  {
    assert keys - (todo - {id}) == (keys - todo) + {id};
  }

  /** Visits all entries, in whatever order, and gives each the names of its key. */
  method Reconfigure(entries: map<string, Candidate>, next: map<string, seq<string>>, sequence: nat, now: int)
    returns (out: map<string, Candidate>, pending: seq<Event>, ghost order: seq<string>)
    ensures Visits(order, entries) && out == ReconfiguredAll(entries, next)
    ensures pending == ConfigurationEvents(order, |order|, entries, next, sequence, now)
  {
    hide Reconfigured, NamesFor, ConfigurationEvents, Halfway, ReconfiguredAll;
    var todo := entries.Keys;
    out, pending, order := entries, [], [];
    NoVisits(entries, next, sequence, now);
    VisitBounds(entries, next);
    while todo != {}
      invariant todo <= entries.Keys && multiset(order) == multiset(entries.Keys - todo)
      invariant out == Halfway(entries, next, todo)
      invariant pending == ConfigurationEvents(order, |order|, entries, next, sequence, now)
    {
      var id :| id in todo;
      EventsOfPrefix(order, id, entries, next, sequence, now);
      OneMoreVisit(entries, next, todo, id);
      VisitedSet(entries.Keys, todo, id);
      var prior := out[id];
      var names := NamesFor(next, prior.fingerprint);
      out := out[id := Reconfigured(prior, names)];
      if prior.configuredNames != names {
        pending := pending + [Event(sequence + |pending| + 1, now, ConfigurationChanged,
                                    Some(Reconfigured(prior, names)), prior.id, [])];
      }
      todo, order := todo - {id}, order + [id];
    }
    assert entries.Keys - todo == entries.Keys;
  }

  lemma NoVisits(entries: map<string, Candidate>, next: map<string, seq<string>>, sequence: nat, now: int)
    ensures ConfigurationEvents([], 0, entries, next, sequence, now) == []
  {}

  lemma EventsOfPrefix(order: seq<string>, id: string, entries: map<string, Candidate>, next: map<string, seq<string>>,
                       sequence: nat, now: int)
    requires id in entries
    ensures var before := ConfigurationEvents(order, |order|, entries, next, sequence, now);
            ConfigurationEvents(order + [id], |order| + 1, entries, next, sequence, now) ==
            if entries[id].configuredNames != NamesFor(next, entries[id].fingerprint)
            then before + [Event(sequence + |before| + 1, now, ConfigurationChanged,
                                 Some(Reconfigured(entries[id],
                                                   NamesFor(next, entries[id].fingerprint))), entries[id].id, [])]
            else before
  {
    hide Reconfigured, NamesFor;
    SamePrefix(order, [id], |order|, entries, next, sequence, now);
  }

  lemma {:induction false} SamePrefix(order: seq<string>, more: seq<string>, n: nat, entries: map<string, Candidate>,
                                      next: map<string, seq<string>>, sequence: nat, now: int)
    requires n <= |order|
    ensures ConfigurationEvents(order + more, n, entries, next, sequence, now) ==
            ConfigurationEvents(order, n, entries, next, sequence, now)
  {
    hide Reconfigured, NamesFor;
    if n > 0 {
      SamePrefix(order, more, n - 1, entries, next, sequence, now);
    }
  }

  lemma {:induction false} RefusedStays(candidates: seq<Candidate>, n: nat, configured: map<string, seq<string>>,
                                        rules: Rules)
    requires n <= |candidates| && Admitted(candidates, n, configured, rules).None?
    ensures Admitted(candidates, |candidates|, configured, rules).None?
    decreases |candidates| - n
  {
    hide Admissible;
    if n < |candidates| {
      RefusedStays(candidates, n + 1, configured, rules);
    }
  }

  /** The fingerprints seen so far, each with the candidate that has it. */
  predicate Indexed(fingerprints: map<string, string>, entries: map<string, Candidate>) {
    && (forall id :: id in entries && entries[id].fingerprint != "" ==> entries[id].fingerprint in fingerprints)
    && (forall f :: f in fingerprints ==> fingerprints[f] in entries && entries[fingerprints[f]].fingerprint == f)
  }

  lemma IndexedAdmits(fingerprints: map<string, string>, entries: map<string, Candidate>, c: Candidate,
                      configured: map<string, seq<string>>, rules: Rules)
    requires Indexed(fingerprints, entries)
    ensures Admissible(c, entries, configured, rules) <==>
              ValidCandidate(c, rules) && c.id !in entries && !(c.fingerprint != "" && c.fingerprint in fingerprints) &&
              c.configuredNames == NamesFor(configured, c.fingerprint)
    ensures Admissible(c, entries, configured, rules) ==>
              Indexed(if c.fingerprint == "" then fingerprints else fingerprints[c.fingerprint := c.id],
                      entries[c.id := c])
  {
    hide ValidCandidate;
  }

  method AdmitAll(candidates: seq<Candidate>, configured: map<string, seq<string>>, rules: Rules)
    returns (out: Option<map<string, Candidate>>)
    ensures out == Admitted(candidates, |candidates|, configured, rules)
  {
    hide Admissible, ValidCandidate, Indexed;
    var entries: map<string, Candidate> := map[];
    var fingerprints: map<string, string> := map[];
    NothingIndexed();
    for i := 0 to |candidates|
      invariant Admitted(candidates, i, configured, rules) == Some(entries) && Indexed(fingerprints, entries)
    {
      var c := candidates[i];
      IndexedAdmits(fingerprints, entries, c, configured, rules);
      if !ValidCandidate(c, rules) || c.id in entries || (c.fingerprint != "" && c.fingerprint in fingerprints) ||
         c.configuredNames != NamesFor(configured, c.fingerprint) {
        RefusedStays(candidates, i + 1, configured, rules);
        return None;
      }
      if c.fingerprint != "" {
        fingerprints := fingerprints[c.fingerprint := c.id];
      }
      entries := entries[c.id := c];
    }
    out := Some(entries);
  }

  lemma NothingIndexed()
    ensures Indexed(map[], map[])
  {}
}
