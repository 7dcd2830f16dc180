/** The invariant of the discovery inbox and its preservation by every operation. */
module InboxInvariant {
  import opened Shared
  import opened TextOrder
  import opened InboxData
  import opened InboxSteps

  /** An entry agrees with the configuration: it shows exactly the names of its key, and a
      configured entry is verified unless the operator ignores it. */
  predicate Aligned(c: Candidate, configured: map<string, seq<string>>) {
    && c.configuredNames == NamesFor(configured, c.fingerprint)
    && (c.configuredNames != [] ==> c.state == Verified || c.state == Ignored)
    && (c.state == Verified ==> c.verifiedAt.Some? || c.configuredNames != [])
  }

  /** Everything but an observed identity, which a new entry is still to get. */
  predicate Ready(c: Candidate, configured: map<string, seq<string>>, rules: Rules) {
    Mergeable(c, rules) && Aligned(c, configured)
  }

  predicate EntryOk(c: Candidate, configured: map<string, seq<string>>, rules: Rules) {
    Ready(c, configured, rules) && HasIdentity(c)
  }

  predicate Distinct(entries: map<string, Candidate>) {
    forall i, j :: i in entries && j in entries && i != j && entries[i].fingerprint != "" ==>
                     entries[i].fingerprint != entries[j].fingerprint
  }

  predicate EntriesOk(entries: map<string, Candidate>, configured: map<string, seq<string>>, rules: Rules) {
    && (forall id :: id in entries ==> entries[id].id == id && EntryOk(entries[id], configured, rules))
    && Distinct(entries)
  }

  predicate NamesOk(names: seq<string>, rules: Rules) {
    names != [] && AllPlain(names, 128, rules) && Sorted(names) && NoRepeats(names)
  }

  predicate ConfiguredOk(configured: map<string, seq<string>>, rules: Rules) {
    forall k :: k in configured ==> k != "" && rules.fingerprint(k) == Some(k) && NamesOk(configured[k], rules)
  }

  /** The events form a gap-free run that ends at the given sequence number. */
  predicate Gapless(events: seq<Event>, sequence: nat) {
    |events| <= sequence && forall i :: 0 <= i < |events| ==> events[i].sequence == sequence - |events| + 1 + i
  }

  // ---------------------------------------------------------------------------------
  // One candidate.

  predicate Compatible(c: Candidate, o: Observation) {
    o.fingerprint == "" || c.fingerprint == "" || c.fingerprint == o.fingerprint
  }

  lemma AbsorbOk(c: Candidate, o: Observation, configured: map<string, seq<string>>, rules: Rules)
    requires Ready(c, configured, rules) && ObservationOk(o, rules) && ConfiguredOk(configured, rules)
    requires Compatible(c, o)
    ensures var c' := Absorb(c, o, configured, rules);
            && EntryOk(c', configured, rules) && c'.id == c.id
            && c'.fingerprint == (if o.fingerprint == "" then c.fingerprint else o.fingerprint)
            && (c'.state == Ignored <==> c.state == Ignored)
            && (forall h :: h in c'.hostnames ==> h in c.hostnames || h == o.hostname)
  {
    var keyed :=
      if o.fingerprint == "" then c
      else c.(fingerprint := o.fingerprint, state := if c.state == Discovered then IdentityPending else c.state);
    assert Mergeable(keyed, rules);
    MergeObservationOk(keyed, o, rules);
    hide Plain, EndpointOk, ValidId, SortTexts, MergeEndpoint, Sorted, NoRepeats;
  }

  lemma FoldOneOk(target: Candidate, source: Candidate, configured: map<string, seq<string>>, rules: Rules)
    requires EntryOk(target, configured, rules) && EntryOk(source, configured, rules)
    ensures var c := MergeCandidates(target, source, rules);
            && EntryOk(c, configured, rules) && c.id == target.id && c.fingerprint == target.fingerprint
            && (c.state == Ignored <==> target.state == Ignored || source.state == Ignored)
            && (forall h :: h in c.hostnames ==> h in target.hostnames || h in source.hostnames)
  {
    MergeCandidatesOk(target, source, rules);
    hide Plain, EndpointOk, ValidId, SortTexts, AddAll, MergeEndpoints, TextsOk;
  }

  lemma {:induction false} FoldInOk(c: Candidate, ids: seq<string>, entries: map<string, Candidate>,
                                    configured: map<string, seq<string>>, rules: Rules)
    requires EntryOk(c, configured, rules) && EntriesOk(entries, configured, rules)
    ensures var c' := FoldIn(c, ids, entries, rules);
            && EntryOk(c', configured, rules) && c'.id == c.id && c'.fingerprint == c.fingerprint
            && (c.state == Ignored ==> c'.state == Ignored)
            && (forall id :: id in ids && id in entries && entries[id].state == Ignored ==> c'.state == Ignored)
            && (forall h :: h in c'.hostnames ==>
                  h in c.hostnames || exists id :: id in ids && id in entries && h in entries[id].hostnames)
  {
    hide EntryOk, MergeCandidates;
    if ids != [] {
      var k := |ids| - 1;
      var before := FoldIn(c, ids[..k], entries, rules);
      FoldInOk(c, ids[..k], entries, configured, rules);
      if ids[k] in entries {
        FoldOneOk(before, entries[ids[k]], configured, rules);
      }
      assert forall id :: id in ids ==> id in ids[..k] || id == ids[k];
      assert forall id :: id in ids[..k] ==> id in ids;
      assert ids[k] in ids;
    }
  }

  // ---------------------------------------------------------------------------------
  // Choosing and evicting.

  lemma LeastIsMember(ids: set<string>)
    ensures if ids == {} then Least(ids).None? else Least(ids).Some? && Least(ids).value in ids
  {
    AscendingFacts(ids);
    if ids != {} {
      assert |Ascending(ids)| > 0;
      assert Ascending(ids)[0] in Ascending(ids);
    }
  }

  /** A chosen entry matches and may take the key; when none is chosen for a key, no entry
      has the key and no keyless entry matches. */
  lemma ChosenFacts(entries: map<string, Candidate>, o: Observation, rules: Rules)
    requires Distinct(entries)
    ensures var chosen := Chosen(entries, o, rules);
            && (chosen.Some? ==> chosen.value in Matches(entries, o, rules) && Compatible(entries[chosen.value], o))
            && (o.fingerprint != "" ==>
                  forall id :: id in entries && chosen != Some(id) ==> entries[id].fingerprint != o.fingerprint)
            && (chosen.None? && o.fingerprint != "" ==> Matches(entries, o, rules) == {})
  {
    var matches := Matches(entries, o, rules);
    var same, keyless := Keyed(entries, matches, o.fingerprint), Keyed(entries, matches, "");
    LeastIsMember(same);
    LeastIsMember(keyless);
    LeastIsMember(matches);
    hide Least, MatchesPlace;
    if o.fingerprint != "" {
      assert forall id :: id in entries && entries[id].fingerprint == o.fingerprint ==> id in same;
      assert forall id :: id in matches ==> id in same || id in keyless;
    }
  }

  lemma SeenBeforeIsOrder(a: Candidate, b: Candidate, c: Candidate)
    ensures a.id != b.id ==> SeenBefore(a, b) || SeenBefore(b, a)
    ensures SeenBefore(a, b) && SeenBefore(b, c) ==> SeenBefore(a, c)
    ensures !(SeenBefore(a, b) && SeenBefore(b, a))
  {
    BelowIsTotal(a.id, b.id);
    if Below(a.id, b.id) && Below(b.id, c.id) {
      BelowIsTransitive(a.id, b.id, c.id);
    }
  }

  lemma {:induction false} LeastSeen(entries: map<string, Candidate>, ids: set<string>) returns (least: string)
    requires ids != {} && forall id :: id in ids ==> id in entries && entries[id].id == id
    ensures least in ids && forall id :: id in ids && id != least ==> SeenBefore(entries[least], entries[id])
    decreases |ids|
  {
    least :| least in ids;
    var rest := ids - {least};
    if rest != {} {
      var other := LeastSeen(entries, rest);
      if !SeenBefore(entries[least], entries[other]) {
        SeenBeforeIsOrder(entries[least], entries[other], entries[other]);
        least := other;
      } else {
        forall id | id in rest && id != other
          ensures SeenBefore(entries[least], entries[id])
        {
          SeenBeforeIsOrder(entries[least], entries[other], entries[id]);
        }
      }
    }
  }

  /** A victim is found exactly when some entry may be evicted, and it is the only one that
      qualifies. */
  lemma VictimFacts(entries: map<string, Candidate>, touched: set<string>)
    requires forall id :: id in entries ==> entries[id].id == id
    ensures Victim(entries, touched).Some? ==> IsVictim(entries, touched, Victim(entries, touched).value)
    ensures Victim(entries, touched).None? <==> forall id :: !Evictable(entries, touched, id)
    ensures forall a, b :: IsVictim(entries, touched, a) && IsVictim(entries, touched, b) ==> a == b
  {
    var ids := set id | id in entries && Evictable(entries, touched, id);
    if ids != {} {
      var least := LeastSeen(entries, ids);
      assert IsVictim(entries, touched, least);
    }
    assert forall id :: Evictable(entries, touched, id) ==> id in ids;
    forall a, b | IsVictim(entries, touched, a) && IsVictim(entries, touched, b)
      ensures a == b
    {
      SeenBeforeIsOrder(entries[a], entries[b], entries[a]);
    }
  }

  // ---------------------------------------------------------------------------------
  // One observation.

  /** The entry that settles an observation, existing or new, is the only one with its key. */
  predicate MaySettle(entries: map<string, Candidate>, c: Candidate, o: Observation) {
    && Compatible(c, o)
    && (c.id in entries ==> entries[c.id] == c)
    && (o.fingerprint != "" ==> forall id :: id in entries && id != c.id ==> entries[id].fingerprint != o.fingerprint)
    && (c.fingerprint != "" ==> c.id in entries)
  }

  lemma AliasFacts(entries: map<string, Candidate>, matches: set<string>, c: Candidate)
    ensures var merged := Ascending(Aliases(entries, matches, c));
            && |merged| == |Aliases(entries, matches, c)|
            && (forall id :: id in merged <==> id in Aliases(entries, matches, c))
            && (forall id :: id in merged ==>
                  id in entries && entries[id].fingerprint == "" && id != c.id && c.fingerprint != "")
  {
    AscendingFacts(Aliases(entries, matches, c));
  }

  lemma SettledCandidate(r: Round, c: Candidate, o: Observation, matches: set<string>, created: bool,
                         evictedIds: seq<string>,
                         configured: map<string, seq<string>>, rules: Rules)
    requires EntriesOk(r.entries, configured, rules) && ConfiguredOk(configured, rules) && ObservationOk(o, rules)
    requires Ready(c, configured, rules) && MaySettle(r.entries, c, o)
    ensures var r' := Settle(r, c, o, matches, created, evictedIds, configured, rules);
            && c.id in r'.entries && EntryOk(r'.entries[c.id], configured, rules) && r'.entries[c.id].id == c.id
            && r'.entries[c.id].fingerprint == (if o.fingerprint == "" then c.fingerprint else o.fingerprint)
            && (c.state == Ignored ==> r'.entries[c.id].state == Ignored)
  {
    var c1 := Absorb(c, o, configured, rules);
    AbsorbOk(c, o, configured, rules);
    FoldInOk(c1, Ascending(Aliases(r.entries, matches, c1)), r.entries, configured, rules);
    hide Absorb, FoldIn, EntryOk, Ready, EntriesOk, ConfiguredOk, ObservationOk, Aliases, Ascending;
  }

  /** Replacing an entry by one whose key no other entry has. */
  lemma ReplaceKeepsEntries(entries: map<string, Candidate>, gone: set<string>, c: Candidate,
                            configured: map<string, seq<string>>, rules: Rules)
    requires EntriesOk(entries, configured, rules) && EntryOk(c, configured, rules)
    requires c.fingerprint != "" ==>
               forall id :: id in entries && id != c.id ==> entries[id].fingerprint != c.fingerprint
    ensures EntriesOk((entries - gone)[c.id := c], configured, rules)
  {
    hide EntryOk;
  }

  lemma SettledEntries(r: Round, c: Candidate, o: Observation, matches: set<string>, created: bool,
                       evictedIds: seq<string>,
                       configured: map<string, seq<string>>, rules: Rules)
    requires Absorb(c, o, configured, rules).id == c.id
    ensures var r' := Settle(r, c, o, matches, created, evictedIds, configured, rules);
            c.id in r'.entries &&
            r'.entries == (r.entries - Aliases(r.entries, matches,
                                               Absorb(c, o, configured, rules)))[c.id := r'.entries[c.id]]
  {
    hide Absorb, FoldIn, Aliases, Ascending;
  }

  lemma SettleKeepsEntries(r: Round, c: Candidate, o: Observation, matches: set<string>, created: bool,
                           evictedIds: seq<string>,
                           configured: map<string, seq<string>>, rules: Rules)
    requires EntriesOk(r.entries, configured, rules) && ConfiguredOk(configured, rules) && ObservationOk(o, rules)
    requires Ready(c, configured, rules) && MaySettle(r.entries, c, o)
    ensures EntriesOk(Settle(r, c, o, matches, created, evictedIds, configured, rules).entries, configured, rules)
  {
    SettledCandidate(r, c, o, matches, created, evictedIds, configured, rules);
    AbsorbOk(c, o, configured, rules);
    SettledEntries(r, c, o, matches, created, evictedIds, configured, rules);
    var c1 := Absorb(c, o, configured, rules);
    var c2 := Settle(r, c, o, matches, created, evictedIds, configured, rules).entries[c.id];
    hide Settle, Absorb, EntryOk, Ready, ConfiguredOk, ObservationOk, Aliases;
    ReplaceKeepsEntries(r.entries, Aliases(r.entries, matches, c1), c2, configured, rules);
  }

  lemma NewCandidateIsReady(id: string, seen: int, configured: map<string, seq<string>>, rules: Rules)
    requires ValidId(id) && seen != 0 && ConfiguredOk(configured, rules)
    ensures Ready(NewCandidate(id, seen), configured, rules)
  {}

  /** A fresh random identifier, or none. */
  predicate FreshId(newId: Option<string>, entries: map<string, Candidate>) {
    newId.Some? ==> ValidId(newId.value) && newId.value !in entries
  }

  predicate SettlesAt(entries: map<string, Candidate>, c: Candidate, o: Observation,
                      configured: map<string, seq<string>>, rules: Rules) {
    Ready(c, configured, rules) && EntriesOk(entries, configured, rules) && MaySettle(entries, c, o)
  }

  predicate SettledBy(entries: map<string, Candidate>, c: Candidate, created: bool, newId: Option<string>) {
    if created then newId == Some(c.id) && c.id !in entries && c.fingerprint == "" && c.hostnames == []
    else c.id in entries && entries[c.id] == c
  }

  /** `base` is `r` after the eviction, if there was one. */
  ghost predicate MadeRoom(r: Round, base: Round, at: int, evictedIds: seq<string>, created: bool, env: Env) {
    if evictedIds == [] then base == r && (created ==> |r.entries| < env.maxEntries)
    else |evictedIds| == 1 && |r.entries| >= env.maxEntries && created &&
         IsVictim(r.entries, r.touched, evictedIds[0]) && base == Evicted(r, evictedIds[0], at)
  }

  /** How an observation that is not dropped ends: settled at a known or a new candidate. */
  ghost predicate IngestEnds(r: Round, r': Round, base: Round, c: Candidate, o: Observation, newId: Option<string>,
                             evictedIds: seq<string>,
                             configured: map<string, seq<string>>, env: Env) {
    var matches := Matches(r.entries, o, env.rules);
    var created := Chosen(r.entries, o, env.rules).None?;
    && r' == Settle(base, c, o, matches, created, evictedIds, configured, env.rules)
    && SettlesAt(base.entries, c, o, configured, env.rules)
    && SettledBy(r.entries, c, created, newId)
    && MadeRoom(r, base, o.observedAt, evictedIds, created, env)
  }

  lemma KnownStep(r: Round, o: Observation, newId: Option<string>, configured: map<string, seq<string>>, env: Env)
    requires Chosen(r.entries, o, env.rules).Some? && Chosen(r.entries, o, env.rules).value in r.entries
    ensures var c := r.entries[Chosen(r.entries, o, env.rules).value];
            IngestStep(r, o, newId, configured,
                       env) == Some(Settle(r, c, o, Matches(r.entries, o, env.rules), false, [], configured, env.rules))
  {
    hide Chosen, Settle, Matches, Victim, Create;
  }

  lemma KnownSettles(entries: map<string, Candidate>, o: Observation, configured: map<string, seq<string>>,
                     rules: Rules)
    requires EntriesOk(entries, configured, rules) && Chosen(entries, o, rules).Some?
    ensures var id := Chosen(entries, o, rules).value;
            id in entries && entries[id].id == id && SettlesAt(entries, entries[id], o, configured, rules)
  {
    ChosenFacts(entries, o, rules);
    EntryIsReady(entries[Chosen(entries, o, rules).value], configured, rules);
    hide Chosen, EntryOk, Ready, MatchesObservation, Distinct;
  }

  lemma KnownCase(r: Round, o: Observation, newId: Option<string>, configured: map<string, seq<string>>, env: Env)
    requires EntriesOk(r.entries, configured, env.rules) && Chosen(r.entries, o, env.rules).Some?
    ensures var id := Chosen(r.entries, o, env.rules).value;
            id in r.entries &&
            var r' := Settle(r, r.entries[id], o, Matches(r.entries, o, env.rules), false, [], configured, env.rules);
            IngestStep(r, o, newId, configured, env) == Some(r') &&
            IngestEnds(r, r', r, r.entries[id], o, newId, [], configured, env)
  {
    KnownSettles(r.entries, o, configured, env.rules);
    KnownStep(r, o, newId, configured, env);
    hide IngestStep, Chosen, Settle, EntriesOk, Matches, SettlesAt;
  }

  lemma RemovalKeepsEntries(entries: map<string, Candidate>, gone: set<string>, configured: map<string, seq<string>>,
                            rules: Rules)
    requires EntriesOk(entries, configured, rules)
    ensures EntriesOk(entries - gone, configured, rules)
  {
    hide EntryOk;
  }

  lemma NewStep(r: Round, o: Observation, newId: Option<string>, configured: map<string, seq<string>>, env: Env)
    requires Chosen(r.entries, o, env.rules).None? && |r.entries| < env.maxEntries && newId.Some?
    ensures IngestStep(r, o, newId, configured, env) ==
            Some(Settle(r, NewCandidate(newId.value, o.observedAt), o, Matches(r.entries, o, env.rules), true, [],
                        configured, env.rules))
  {
    hide Chosen, Settle, Matches, Victim, NewCandidate;
  }

  /** When no entry is chosen, a new one may settle the observation. */
  lemma NewSettles(entries: map<string, Candidate>, o: Observation, newId: string, configured: map<string, seq<string>>,
                   rules: Rules)
    requires EntriesOk(entries, configured, rules) && ConfiguredOk(configured, rules) && ObservationOk(o, rules)
    requires ValidId(newId) && newId !in entries && Chosen(entries, o, rules).None?
    ensures SettlesAt(entries, NewCandidate(newId, o.observedAt), o, configured, rules)
    ensures o.fingerprint != "" ==> forall id :: id in entries ==> entries[id].fingerprint != o.fingerprint
  {
    ChosenFacts(entries, o, rules);
    ObservedIsTimed(o, rules);
    NewCandidateIsReady(newId, o.observedAt, configured, rules);
    hide Chosen, EntryOk, Ready, ConfiguredOk, ObservationOk, ValidId, Matches;
  }

  lemma NewCase(r: Round, o: Observation, newId: Option<string>, configured: map<string, seq<string>>, env: Env)
    requires EntriesOk(r.entries, configured, env.rules) && ConfiguredOk(configured, env.rules)
    requires ObservationOk(o, env.rules) && FreshId(newId, r.entries) && newId.Some?
    requires Chosen(r.entries, o, env.rules).None? && |r.entries| < env.maxEntries
    ensures var c := NewCandidate(newId.value, o.observedAt);
            var r' := Settle(r, c, o, Matches(r.entries, o, env.rules), true, [], configured, env.rules);
            IngestStep(r, o, newId, configured, env) == Some(r') &&
            IngestEnds(r, r', r, c, o, newId, [], configured, env)
  {
    NewSettles(r.entries, o, newId.value, configured, env.rules);
    NewStep(r, o, newId, configured, env);
    hide IngestStep, Chosen, Settle, EntriesOk, ConfiguredOk, ObservationOk, Matches, SettlesAt;
  }

  lemma EvictingStep(r: Round, o: Observation, newId: Option<string>, configured: map<string, seq<string>>, env: Env)
    requires Chosen(r.entries, o, env.rules).None? && |r.entries| >= env.maxEntries && newId.Some?
    requires Victim(r.entries, r.touched).Some?
    ensures var victim := Victim(r.entries, r.touched).value;
            IngestStep(r, o, newId, configured, env) ==
            Some(Settle(Evicted(r, victim, o.observedAt), NewCandidate(newId.value, o.observedAt), o,
                        Matches(r.entries, o, env.rules), true, [victim], configured, env.rules))
  {
    hide Chosen, Victim, Matches, Settle, Evicted, NewCandidate;
  }

  lemma EvictionMakesRoom(r: Round, o: Observation, newId: string, configured: map<string, seq<string>>, rules: Rules,
                          victim: string)
    requires EntriesOk(r.entries, configured, rules) && newId !in r.entries
    requires o.fingerprint != "" ==> forall id :: id in r.entries ==> r.entries[id].fingerprint != o.fingerprint
    ensures var base := Evicted(r, victim, o.observedAt);
            SettlesAt(r.entries, NewCandidate(newId, o.observedAt), o, configured, rules) ==>
            SettlesAt(base.entries, NewCandidate(newId, o.observedAt), o, configured, rules)
  {
    RemovalKeepsEntries(r.entries, {victim}, configured, rules);
    hide EntriesOk;
  }

  lemma EvictingCase(r: Round, o: Observation, newId: Option<string>, configured: map<string, seq<string>>, env: Env)
    requires EntriesOk(r.entries, configured, env.rules) && ConfiguredOk(configured, env.rules)
    requires ObservationOk(o, env.rules) && FreshId(newId, r.entries) && newId.Some?
    requires Chosen(r.entries, o, env.rules).None? && |r.entries| >= env.maxEntries
    requires Victim(r.entries, r.touched).Some?
    ensures var c := NewCandidate(newId.value, o.observedAt);
            var victim := Victim(r.entries, r.touched).value;
            var base := Evicted(r, victim, o.observedAt);
            var r' := Settle(base, c, o, Matches(r.entries, o, env.rules), true, [victim], configured, env.rules);
            IngestStep(r, o, newId, configured, env) == Some(r') &&
            IngestEnds(r, r', base, c, o, newId, [victim], configured, env)
  {
    VictimFacts(r.entries, r.touched);
    NewSettles(r.entries, o, newId.value, configured, env.rules);
    EvictingStep(r, o, newId, configured, env);
    EvictionMakesRoom(r, o, newId.value, configured, env.rules, Victim(r.entries, r.touched).value);
    hide IngestStep, Chosen, Settle, SettlesAt, EntriesOk, ConfiguredOk, ObservationOk, Matches, Victim, IsVictim;
    hide Evicted;
  }

  /** The case split of one observation, with everything the branches establish. */
  lemma IngestCases(r: Round, o: Observation, newId: Option<string>, configured: map<string, seq<string>>, env: Env)
    returns (base: Round, c: Candidate, evictedIds: seq<string>)
    requires EntriesOk(r.entries, configured, env.rules) && ConfiguredOk(configured, env.rules)
    requires ObservationOk(o, env.rules) && FreshId(newId, r.entries)
    ensures var out := IngestStep(r, o, newId, configured, env);
            out.Some? ==>
              || (out.value == Dropped(r, o) && |r.entries| >= env.maxEntries &&
                  forall id :: !Evictable(r.entries, r.touched, id))
              || IngestEnds(r, out.value, base, c, o, newId, evictedIds, configured, env)
    ensures Chosen(r.entries, o, env.rules).None? && newId.Some? ==> c == NewCandidate(newId.value, o.observedAt)
  {
    base, c, evictedIds := r, NewCandidate("", 0), [];
    VictimFacts(r.entries, r.touched);
    if Chosen(r.entries, o, env.rules).Some? {
      KnownCase(r, o, newId, configured, env);
      c := r.entries[Chosen(r.entries, o, env.rules).value];
    } else if newId.Some? {
      c := NewCandidate(newId.value, o.observedAt);
      if |r.entries| < env.maxEntries {
        NewCase(r, o, newId, configured, env);
      } else if Victim(r.entries, r.touched).Some? {
        EvictingCase(r, o, newId, configured, env);
        evictedIds := [Victim(r.entries, r.touched).value];
        base := Evicted(r, evictedIds[0], o.observedAt);
      }
    }
    hide Chosen, Victim, Settle, EntriesOk, IngestEnds, Evicted, Matches, ObservationOk, ConfiguredOk;
  }

  lemma EntryIsReady(c: Candidate, configured: map<string, seq<string>>, rules: Rules)
    ensures EntryOk(c, configured, rules) ==> Ready(c, configured, rules)
  {}

  lemma ObservedIsTimed(o: Observation, rules: Rules)
    ensures ObservationOk(o, rules) ==> o.observedAt != 0
  {}
}
