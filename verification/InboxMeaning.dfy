/** What the parts of the inbox's operations mean, told from outside: which observations are
    accepted and as what, which entry one belongs to, what is published, and what a decision
    or a configuration makes of an entry. */
module InboxMeaning {
  import opened Shared
  import opened PlainText
  import opened TextOrder
  import opened InboxData
  import opened InboxSteps
  import opened InboxInvariant
  import opened InboxIngest

  // ---------------------------------------------------------------------------------
  // Observations.

  /** A given text is read as what stands between the white space at its ends. */
  ghost predicate Reads(value: string, max: nat, rules: Rules, v: string) {
    && v != "" && Trimmed(v) && Surrounds(value, v) && Utf8Length(v) <= max
    && forall i :: 0 <= i < |v| ==> !rules.control(v[i])
  }

  /** A field may be missing. */
  ghost predicate ReadsField(value: string, max: nat, rules: Rules, v: string) {
    if value == "" then v == "" else Reads(value, max, rules, v)
  }

  lemma PlainIff(value: string, max: nat, rules: Rules, v: string)
    ensures NormalizePlain(value, max, rules) == Some(v) <==> Reads(value, max, rules, v)
  {
    hide TrimSpace, Surrounds, Trimmed;
    if v != "" {
      TrimSpaceIsCore(value, v);
    }
    if TrimSpace(value) != "" {
      TrimSpaceIsCore(value, TrimSpace(value));
    }
  }

  lemma FieldIff(value: string, max: nat, rules: Rules, v: string)
    ensures Optional(value, NormalizePlain(value, max, rules)) == Some(v) <==> ReadsField(value, max, rules, v)
  {
    hide NormalizePlain, Reads;
    PlainIff(value, max, rules, v);
  }

  /** Exactly which observations are accepted, and as what: each text trimmed, within its
      limit and without control characters, one dot less at the end of the host name, port 22
      for a missing one, now for a missing time, no time more than five minutes ahead, and at
      least one name, place or key. */
  lemma AcceptedIff(o: Observation, now: int, rules: Rules, n: Observation)
    ensures NormalizeObservation(o, now, rules) == Some(n) <==>
            && Reads(o.source, 64, rules, n.source)
            && ReadsField(o.name, 256, rules, n.name)
            && (if o.hostname == "" then n.hostname == ""
                else Reads(TrimOneDot(TrimSpace(o.hostname)), 253, rules, n.hostname))
            && (if o.address == "" then n.address == "" else rules.address(TrimSpace(o.address)) == Some(n.address))
            && (if o.fingerprint == "" then n.fingerprint == ""
                else rules.fingerprint(o.fingerprint) == Some(n.fingerprint))
            && ReadsField(o.keyType, 128, rules, n.keyType) && ReadsField(o.evidence, 256, rules, n.evidence)
            && n.port == (if o.port == 0 then 22 else o.port) && 1 <= n.port <= 65535
            && n.observedAt == (if o.observedAt == 0 then now else o.observedAt)
            && (o.observedAt == 0 || o.observedAt <= now + 300_000_000_000)
            && (n.name != "" || n.hostname != "" || n.address != "" || n.fingerprint != "")
  {
    hide NormalizePlain, Reads, ReadsField, TrimSpace, TrimOneDot, Optional;
    AcceptedTexts(o, rules, n);
    OptionalMeaning(o.address, rules.address(TrimSpace(o.address)));
    OptionalMeaning(o.fingerprint, rules.fingerprint(o.fingerprint));
  }

  lemma OptionalMeaning(value: string, read: Option<string>)
    ensures Optional(value, read) == if value == "" then Some("") else read
  {}

  lemma AcceptedTexts(o: Observation, rules: Rules, n: Observation)
    ensures NormalizePlain(o.source, 64, rules) == Some(n.source) <==> Reads(o.source, 64, rules, n.source)
    ensures Optional(o.name, NormalizePlain(o.name, 256, rules)) == Some(n.name) <==>
            ReadsField(o.name, 256, rules, n.name)
    ensures Optional(o.keyType, NormalizePlain(o.keyType, 128, rules)) == Some(n.keyType) <==>
            ReadsField(o.keyType, 128, rules, n.keyType)
    ensures Optional(o.evidence, NormalizePlain(o.evidence, 256, rules)) == Some(n.evidence) <==>
            ReadsField(o.evidence, 256, rules, n.evidence)
    ensures Optional(o.hostname, NormalizeHostname(o.hostname, rules)) == Some(n.hostname) <==>
            if o.hostname == "" then n.hostname == ""
            else Reads(TrimOneDot(TrimSpace(o.hostname)), 253, rules, n.hostname)
  {
    hide NormalizePlain, Reads, ReadsField, TrimSpace, TrimOneDot;
    PlainIff(o.source, 64, rules, n.source);
    FieldIff(o.name, 256, rules, n.name);
    FieldIff(o.keyType, 128, rules, n.keyType);
    FieldIff(o.evidence, 256, rules, n.evidence);
    PlainIff(TrimOneDot(TrimSpace(o.hostname)), 253, rules, n.hostname);
  }

  // ---------------------------------------------------------------------------------
  // Which entry.

  /** Something in common: an address and port, a host name, or, when the observation has
      neither, a name. */
  predicate Common(c: Candidate, o: Observation, rules: Rules) {
    || (o.address != "" && exists e :: e in c.endpoints && e.address == o.address && e.port == o.port)
    || (o.hostname != "" && exists h :: h in c.hostnames && rules.fold(h, o.hostname))
    || (o.address == "" && o.hostname == "" && o.name != "" && exists n :: n in c.names && rules.fold(n, o.name))
  }

  predicate Belongs(c: Candidate, o: Observation, rules: Rules) {
    if c.fingerprint != "" && o.fingerprint != "" then c.fingerprint == o.fingerprint else Common(c, o, rules)
  }

  lemma HasIff(values: seq<string>, v: string, same: (string, string) -> bool)
    ensures Has(values, v, same) <==> exists x :: x in values && same(x, v)
  {
    if x :| x in values && same(x, v) {
      var i :| 0 <= i < |values| && values[i] == x;
    }
  }

  lemma MatchIff(c: Candidate, o: Observation, rules: Rules)
    ensures MatchesObservation(c, o, rules) <==> Belongs(c, o, rules)
  {
    HasIff(c.hostnames, o.hostname, rules.fold);
    HasIff(c.names, o.name, rules.fold);
    hide Has;
    if e :| e in c.endpoints && e.address == o.address && e.port == o.port {
      var i :| 0 <= i < |c.endpoints| && c.endpoints[i] == e;
    }
  }

  /** The entry an observation belongs to: the one with its key; without a key the only one
      that has something in common with it; otherwise the first of those without a key. */
  ghost predicate IsChoice(entries: map<string, Candidate>, o: Observation, rules: Rules, id: string) {
    && id in entries && Belongs(entries[id], o, rules)
    && if o.fingerprint != "" && entries[id].fingerprint == o.fingerprint then true
       else if o.fingerprint == "" && (forall k :: k in entries && Belongs(entries[k], o, rules) ==> k == id) then true
       else && entries[id].fingerprint == ""
            && (o.fingerprint != "" ==> forall k :: k in entries ==> entries[k].fingerprint != o.fingerprint)
            && forall k :: k in entries && Belongs(entries[k], o, rules) && entries[k].fingerprint == "" ==>
                             AtMost(id, k)
  }

  lemma LeastIsLeast(ids: set<string>)
    ensures Least(ids).Some? <==> ids != {}
    ensures Least(ids).Some? ==> Least(ids).value in ids && forall k :: k in ids ==> AtMost(Least(ids).value, k)
  {
    LeastIsMember(ids);
    AscendingFacts(ids);
    if ids != {} {
      forall k | k in ids
        ensures AtMost(Ascending(ids)[0], k)
      {
        var i :| 0 <= i < |Ascending(ids)| && Ascending(ids)[i] == k;
        BelowIsTotal(k, k);
      }
    }
  }

  lemma MatchesAre(entries: map<string, Candidate>, o: Observation, rules: Rules)
    ensures forall k :: k in Matches(entries, o, rules) <==> k in entries && Belongs(entries[k], o, rules)
  {
    forall k
      ensures k in Matches(entries, o, rules) <==> k in entries && Belongs(entries[k], o, rules)
    {
      if k in entries {
        MatchIff(entries[k], o, rules);
      }
    }
  }

  lemma LeastIff(ids: set<string>, id: string)
    ensures Least(ids) == Some(id) <==> id in ids && forall k :: k in ids ==> AtMost(id, k)
  {
    LeastIsLeast(ids);
    if id in ids && forall k :: k in ids ==> AtMost(id, k) {
      BelowIsTotal(id, Least(ids).value);
    }
  }

  lemma KeyedChoiceIff(entries: map<string, Candidate>, o: Observation, rules: Rules, id: string)
    requires Distinct(entries) && o.fingerprint != ""
    ensures Chosen(entries, o, rules) == Some(id) <==> IsChoice(entries, o, rules, id)
  {
    var matches := Matches(entries, o, rules);
    var keyless, same := Keyed(entries, matches, ""), Keyed(entries, matches, o.fingerprint);
    MatchesAre(entries, o, rules);
    LeastIff(same, id);
    LeastIff(keyless, id);
    LeastIsLeast(same);
    BelowIsTotal(id, id);
    hide Matches, Least, Common, Below;
    assert forall k :: k in same <==> k in entries && entries[k].fingerprint == o.fingerprint;
    assert forall k :: k in keyless <==> k in entries && entries[k].fingerprint == "" && Belongs(entries[k], o, rules);
  }

  lemma OnlyOne(ids: set<string>, id: string)
    ensures |ids| == 1 && id in ids <==> ids == {id}
    ensures ids == {id} <==> id in ids && forall k :: k in ids ==> k == id
  {
    if |ids| == 1 && id in ids {
      assert |ids - {id}| == 0;
    }
  }

  lemma KeylessChoiceIff(entries: map<string, Candidate>, o: Observation, rules: Rules, id: string)
    requires o.fingerprint == ""
    ensures Chosen(entries, o, rules) == Some(id) <==> IsChoice(entries, o, rules, id)
  {
    var matches := Matches(entries, o, rules);
    var keyless := Keyed(entries, matches, "");
    MatchesAre(entries, o, rules);
    LeastIff(keyless, id);
    LeastIff(matches, id);
    LeastIsLeast(matches);
    LeastIsLeast(keyless);
    OnlyOne(matches, id);
    BelowIsTotal(id, id);
    if |matches| == 1 {
      OnlyOne(matches, Least(matches).value);
    }
    hide Matches, Least, Belongs, Below;
    assert forall k :: k in keyless <==> k in entries && entries[k].fingerprint == "" && Belongs(entries[k], o, rules);
  }

  /** The choice is exactly this, and so there is at most one. */
  lemma ChoiceIff(entries: map<string, Candidate>, o: Observation, rules: Rules, id: string)
    requires Distinct(entries)
    ensures Chosen(entries, o, rules) == Some(id) <==> IsChoice(entries, o, rules, id)
  {
    hide Chosen, IsChoice;
    if o.fingerprint != "" {
      KeyedChoiceIff(entries, o, rules, id);
    } else {
      KeylessChoiceIff(entries, o, rules, id);
    }
  }

  /** Nobody reviewed or configured it, and the round did not produce it. */
  predicate Free(entries: map<string, Candidate>, touched: set<string>, id: string) {
    && id in entries && id !in touched
    && entries[id].state != Verified && entries[id].state != Ignored
    && entries[id].verifiedAt == None && entries[id].configuredNames == []
  }

  /** A full inbox gives up the free entry that was not seen for the longest time; among
      entries last seen together, the one with the least identifier. */
  lemma VictimIff(entries: map<string, Candidate>, touched: set<string>, id: string)
    requires forall k :: k in entries ==> entries[k].id == k
    ensures Victim(entries, touched) == Some(id) <==>
            && Free(entries, touched, id)
            && forall k :: Free(entries, touched, k) && k != id ==>
                 entries[id].lastSeen < entries[k].lastSeen ||
                 (entries[id].lastSeen == entries[k].lastSeen && Below(id, k))
  {
    VictimFacts(entries, touched);
    forall k
      ensures Free(entries, touched, k) <==> Evictable(entries, touched, k)
      ensures Evictable(entries, touched, k) ==> k in entries
    {
    }
    hide Free, Evictable, Below, Victim;
    assert IsVictim(entries, touched, id) <==>
           Free(entries, touched, id) &&
           forall k :: Free(entries, touched, k) && k != id ==> SeenBefore(entries[id], entries[k]);
    assert forall k :: Free(entries, touched, k) ==> entries[k].id == k;
  }

  // ---------------------------------------------------------------------------------
  // What is published.

  /** The event of an observation: dropped, or what became of its entry. */
  function EventOfResult(res: IngestResult, sequence: nat, at: int): Event {
    if res.dropped.Some? || res.candidate.None? then Event(sequence, at, WasDropped, None, "", [])
    else Event(sequence, at,
               if res.created then WasDiscovered else if res.mergedIds != [] then WasMerged else WasUpdated,
               res.candidate, res.candidate.value.id, res.mergedIds)
  }

  lemma SettlePublishes(r: Round, c: Candidate, o: Observation, matches: set<string>, created: bool,
                        evictedIds: seq<string>, configured: map<string, seq<string>>, rules: Rules)
    ensures var r' := Settle(r, c, o, matches, created, evictedIds, configured, rules);
            && r'.results != [] && LastResult(r').evictedIds == evictedIds
            && r'.pending == r.pending + [EventOfResult(LastResult(r'), r.sequence + 1, o.observedAt)]
  {
    hide Absorb, FoldIn, Aliases, Ascending;
  }

  /** The events of an observation: the eviction it caused, if any, and what became of it. */
  function EventsOfResult(res: IngestResult, sequence: nat, at: int): seq<Event> {
    if res.evictedIds == [] then [EventOfResult(res, sequence + 1, at)]
    else [Event(sequence + 1, at, WasEvicted, None, res.evictedIds[0], [])] + [EventOfResult(res, sequence + 2, at)]
  }

  lemma EndingPublishes(r: Round, r': Round, base: Round, c: Candidate, o: Observation, newId: Option<string>,
                        evictedIds: seq<string>, configured: map<string, seq<string>>, env: Env)
    requires IngestEnds(r, r', base, c, o, newId, evictedIds, configured, env)
    ensures r'.results != []
    ensures r'.pending == r.pending + EventsOfResult(LastResult(r'), r.sequence, o.observedAt)
  {
    SettlePublishes(base, c, o, Matches(r.entries, o, env.rules), Chosen(r.entries, o, env.rules).None?, evictedIds,
                    configured, env.rules);
    hide Settle, Chosen, Matches, SettlesAt, IsVictim, EventOfResult;
    if evictedIds != [] {
      assert evictedIds == [evictedIds[0]];
    }
  }

  /** An observation publishes the eviction it caused, if any, and then what became of it, each
      under the next number, with its time and the candidate as it is now. */
  lemma IngestPublishes(r: Round, o: Observation, newId: Option<string>, configured: map<string, seq<string>>, env: Env)
    requires EntriesOk(r.entries, configured, env.rules) && ConfiguredOk(configured, env.rules)
    requires ObservationOk(o, env.rules) && FreshId(newId, r.entries)
    ensures var out := IngestStep(r, o, newId, configured, env);
            out.Some? ==>
              out.value.results != [] &&
              out.value.pending == r.pending + EventsOfResult(LastResult(out.value), r.sequence, o.observedAt)
  {
    hide IngestStep, EntriesOk, ConfiguredOk, ObservationOk, FreshId, IngestEnds, Evictable;
    var out := IngestStep(r, o, newId, configured, env);
    var base, c, evictedIds := IngestCases(r, o, newId, configured, env);
    if out.Some? && out.value != Dropped(r, o) {
      EndingPublishes(r, out.value, base, c, o, newId, evictedIds, configured, env);
    }
  }

  /** A round begins with one event for each expired entry, in the order of their identifiers. */
  lemma ExpiryPublishes(gone: set<string>, sequence: nat, now: int)
    ensures var events := Departures(Ascending(gone), sequence, now);
            && (forall i :: 0 <= i < |events| ==>
                  events[i] == Event(sequence + 1 + i, now, WasExpired, None, events[i].candidateId, []))
            && (forall id :: id in gone <==> exists i :: 0 <= i < |events| && events[i].candidateId == id)
            && (forall i, j :: 0 <= i < j < |events| ==> Below(events[i].candidateId, events[j].candidateId))
  {
    var ids := Ascending(gone);
    var events := Departures(ids, sequence, now);
    AscendingFacts(gone);
    hide Ascending;
    forall id
      ensures id in gone <==> exists i :: 0 <= i < |events| && events[i].candidateId == id
    {
      if id in gone {
        var i :| 0 <= i < |ids| && ids[i] == id;
        assert events[i].candidateId == id;
      }
    }
    forall i, j | 0 <= i < j < |events|
      ensures Below(events[i].candidateId, events[j].candidateId)
    {
      BelowIsTotal(ids[i], ids[j]);
    }
  }

  /** Of the entries visited, those whose configured names a new configuration changes. */
  function Renamed(order: seq<string>, entries: map<string, Candidate>, next: map<string, seq<string>>): seq<string> {
    if order == [] then []
    else
      var id := order[|order| - 1];
      Renamed(order[..|order| - 1], entries, next) +
      if id in entries &&
         entries[id].configuredNames != (if entries[id].fingerprint in next then next[entries[id].fingerprint] else [])
      then [id] else []
  }

  /** A new configuration publishes one event for each entry it renames, in the order visited,
      with the entry as it is now. */
  lemma {:induction false} ConfigurationPublishes(order: seq<string>, n: nat, entries: map<string, Candidate>,
                                                  next: map<string, seq<string>>, sequence: nat, now: int)
    requires n <= |order|
    ensures var events, ids := ConfigurationEvents(order, n, entries, next, sequence, now),
                               Renamed(order[..n], entries, next);
            && |events| == |ids|
            && forall i :: 0 <= i < |ids| ==>
                 && ids[i] in entries
                 && (var c := entries[ids[i]];
                     events[i] == Event(sequence + 1 + i, now, ConfigurationChanged,
                                        Some(Reconfigured(c, NamesFor(next, c.fingerprint))), c.id, []))
  {
    hide Reconfigured;
    if n > 0 {
      ConfigurationPublishes(order, n - 1, entries, next, sequence, now);
      assert order[..n][..n - 1] == order[..n - 1];
    }
  }

  // ---------------------------------------------------------------------------------
  // Decisions and configuration.

  /** Exactly which decisions are possible, and what they make of an entry. */
  lemma DecisionIff(c: Candidate, d: Decision, now: int, c': Candidate)
    ensures Decide(c, d, now) == Some(c') <==>
            && c' == c.(state := c'.state, verifiedAt := c'.verifiedAt, ignoredAt := c'.ignoredAt)
            && match d
               case Verify =>
                 c.fingerprint != "" && c'.state == Verified && c'.verifiedAt == Some(now) && c'.ignoredAt == None
               case Ignore => c'.state == Ignored && c'.verifiedAt == c.verifiedAt && c'.ignoredAt == Some(now)
               case Restore =>
                 && c.state == Ignored && c'.verifiedAt == c.verifiedAt && c'.ignoredAt == None
                 && (c'.state == Discovered <==> c.fingerprint == "")
                 && (c'.state == Verified <==> c.fingerprint != "" && (c.configuredNames != [] || c.verifiedAt.Some?))
                 && c'.state in {Discovered, Verified, IdentityPending}
  {}

  /** A decision publishes one event of its own kind with the entry as it is now. */
  lemma DecisionPublishes(s: Index, id: string, d: Decision, now: int)
    ensures var out := ReviewChange(s, id, d, now);
            && (out.Some? <==> id in s.entries && Decide(s.entries[id], d, now).Some?)
            && (out.Some? ==>
                  var c := Decide(s.entries[id], d, now).value;
                  && out.value.next == s.(entries := s.entries[id := c], sequence := s.sequence + 1)
                  && |out.value.pending| == 1
                  && (var e := out.value.pending[0];
                      && e.sequence == s.sequence + 1 && e.at == now && e.candidate == Some(c)
                      && e.candidateId == s.entries[id].id && e.mergedIds == []
                      && (e.kind == WasVerified <==> d == Verify) && (e.kind == WasIgnored <==> d == Ignore)
                      && (e.kind == WasRestored <==> d == Restore)))
  {}

  /** What a new configuration makes of an entry: it gets the names of its key; a configured
      one is verified unless the operator ignores it; one that was verified by the old
      configuration alone is pending again. */
  lemma ReconfiguredMeaning(c: Candidate, before: map<string, seq<string>>, next: map<string, seq<string>>,
                            rules: Rules)
    requires EntryOk(c, before, rules)
    ensures var c' := Reconfigured(c, NamesFor(next, c.fingerprint));
            && c' == c.(configuredNames := NamesFor(next, c.fingerprint), state := c'.state)
            && (c'.state == Verified <==>
                  c.state != Ignored &&
                  (c'.configuredNames != [] || (c.verifiedAt.Some? && c.state == Verified)))
            && (c.state == Ignored ==> c'.state == Ignored)
            && (c'.state != Verified && c.state != Ignored ==>
                  c'.state == if c.fingerprint == "" then Discovered else IdentityPending)
  {
    hide HasIdentity, TextsOk, TimesOk, ValidId, NamesFor;
  }
}
