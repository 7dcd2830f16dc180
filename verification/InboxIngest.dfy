/** What one observation, and then a whole batch, does to the inbox: capacity, conservation
    of entries, identity, and the permanence of an operator's Ignore. */
module InboxIngest {
  import opened Shared
  import opened TextOrder
  import opened InboxData
  import opened InboxSteps
  import opened InboxInvariant

  function Elements(ids: seq<string>): set<string> {
    set id | id in ids
  }

  /** The entries after one observation are those before it, less the evicted and the merged
      ones, and with the candidate the result names; all others are untouched. */
  predicate Accounted(before: map<string, Candidate>, after: map<string, Candidate>, res: IngestResult) {
    if res.dropped.Some?
    then after == before && !res.created && res.evictedIds == [] && res.mergedIds == [] && res.candidate.None?
    else
      && res.candidate.Some?
      && (var t := res.candidate.value.id;
          && t in after && after[t] == res.candidate.value && t !in res.evictedIds && t !in res.mergedIds
          && (res.created <==> t !in before)
          && after.Keys == before.Keys - Elements(res.evictedIds) - Elements(res.mergedIds) + {t}
          && Elements(res.evictedIds) <= before.Keys && Elements(res.mergedIds) <= before.Keys
          && |res.evictedIds| <= 1 && NoRepeats(res.mergedIds)
          && (forall id :: id in res.evictedIds ==> id !in res.mergedIds)
          && (forall id :: id in after && id != t ==> after[id] == before[id])
          && (forall id :: id in res.mergedIds ==> before[id].fingerprint == "" && after[t].fingerprint != ""))
  }

  function LastResult(r: Round): IngestResult
    requires r.results != []
  {
    r.results[|r.results| - 1]
  }

  /** The counters and event list move together. */
  predicate Published(r: Round, r': Round) {
    && r.pending <= r'.pending && r'.sequence - r.sequence == |r'.pending| - |r.pending|
    && forall i :: |r.pending| <= i < |r'.pending| ==> r'.pending[i].sequence == r.sequence + 1 + i - |r.pending|
  }

  lemma SettleOutcome(r: Round, c: Candidate, o: Observation, matches: set<string>, created: bool,
                      evictedIds: seq<string>,
                      configured: map<string, seq<string>>, rules: Rules)
    requires EntriesOk(r.entries, configured, rules) && ConfiguredOk(configured, rules) && ObservationOk(o, rules)
    requires Ready(c, configured, rules) && MaySettle(r.entries, c, o)
    ensures var r' := Settle(r, c, o, matches, created, evictedIds, configured, rules);
            var aliases := Aliases(r.entries, matches, Absorb(c, o, configured, rules));
            && c.id in r'.entries && r'.entries == (r.entries - aliases)[c.id := r'.entries[c.id]]
            && r'.results == r.results + [IngestResult(Some(r'.entries[c.id]), created, None, evictedIds,
                                                       Ascending(aliases))]
            && r'.sequence == r.sequence + 1 && Published(r, r')
            && r'.dropped == r.dropped && r'.evicted == r.evicted && r'.touched == r.touched + {c.id}
  {
    var c1 := Absorb(c, o, configured, rules);
    AbsorbOk(c, o, configured, rules);
    FoldInOk(c1, Ascending(Aliases(r.entries, matches, c1)), r.entries, configured, rules);
    hide Absorb, FoldIn, EntryOk, Ready, EntriesOk, ConfiguredOk, ObservationOk, Aliases, Ascending;
  }

  // ---------------------------------------------------------------------------------
  // What an observation keeps.

  /** A key once seen is never changed, an ignored entry stays ignored or is folded into an
      ignored one, and nobody's decision is evicted. */
  predicate Kept(before: map<string, Candidate>, after: map<string, Candidate>, res: IngestResult) {
    forall id :: id in before ==>
      && (id in after && before[id].fingerprint != "" ==> after[id].fingerprint == before[id].fingerprint)
      && (id in after && before[id].state == Ignored ==> after[id].state == Ignored)
      && (id in res.evictedIds ==> !Pinned(before[id]))
      && (id in res.mergedIds && before[id].state == Ignored ==>
            res.candidate.Some? && res.candidate.value.state == Ignored)
  }

  lemma SettleAbsorbsIgnored(r: Round, c: Candidate, o: Observation, matches: set<string>, created: bool,
                             evictedIds: seq<string>,
                             configured: map<string, seq<string>>, rules: Rules)
    requires EntriesOk(r.entries, configured, rules) && ConfiguredOk(configured, rules) && ObservationOk(o, rules)
    requires Ready(c, configured, rules) && MaySettle(r.entries, c, o)
    ensures var r' := Settle(r, c, o, matches, created, evictedIds, configured, rules);
            var merged := Ascending(Aliases(r.entries, matches, Absorb(c, o, configured, rules)));
            forall id :: id in merged && id in r.entries && r.entries[id].state == Ignored ==>
                           c.id in r'.entries && r'.entries[c.id].state == Ignored
  {
    var c1 := Absorb(c, o, configured, rules);
    AbsorbOk(c, o, configured, rules);
    FoldInOk(c1, Ascending(Aliases(r.entries, matches, c1)), r.entries, configured, rules);
    hide Absorb, FoldIn, EntryOk, Ready, EntriesOk, ConfiguredOk, ObservationOk, Aliases, Ascending;
  }

  /** The shape every settled observation leaves: the aliases are gone, and `c` became `c'`. */
  predicate Settled(before: map<string, Candidate>, after: map<string, Candidate>, c: Candidate, c': Candidate,
                    aliases: set<string>, o: Observation) {
    && c'.id == c.id && c.id !in aliases && after == (before - aliases)[c.id := c']
    && c'.fingerprint == (if o.fingerprint == "" then c.fingerprint else o.fingerprint) && Compatible(c, o)
    && (c.state == Ignored ==> c'.state == Ignored)
    && (forall id :: id in aliases && id in before && before[id].state == Ignored ==> c'.state == Ignored)
  }

  lemma SettleShape(r: Round, c: Candidate, o: Observation, matches: set<string>, created: bool,
                    evictedIds: seq<string>,
                    configured: map<string, seq<string>>, rules: Rules)
    requires EntriesOk(r.entries, configured, rules) && ConfiguredOk(configured, rules) && ObservationOk(o, rules)
    requires Ready(c, configured, rules) && MaySettle(r.entries, c, o)
    ensures var r' := Settle(r, c, o, matches, created, evictedIds, configured, rules);
            && c.id in r'.entries
            && Settled(r.entries, r'.entries, c, r'.entries[c.id],
                       Aliases(r.entries, matches, Absorb(c, o, configured, rules)), o)
  {
    var c1 := Absorb(c, o, configured, rules);
    SettledCandidate(r, c, o, matches, created, evictedIds, configured, rules);
    SettleOutcome(r, c, o, matches, created, evictedIds, configured, rules);
    SettleAbsorbsIgnored(r, c, o, matches, created, evictedIds, configured, rules);
    AliasFacts(r.entries, matches, c1);
    AbsorbOk(c, o, configured, rules);
    hide Ready, EntryOk, EntriesOk, ConfiguredOk, ObservationOk, Settle, Aliases, Ascending, Published, Absorb;
    hide Compatible;
  }

  /** The same seen from before the eviction, with what the result says. */
  ghost predicate Shaped(before: map<string, Candidate>, after: map<string, Candidate>, c: Candidate, c': Candidate,
                         aliases: set<string>,
                         o: Observation, res: IngestResult) {
    && Settled(before - Elements(res.evictedIds), after, c, c', aliases, o)
    && (if res.created then c.id !in before && c.fingerprint == "" else c.id in before && before[c.id] == c)
    && c.id !in res.evictedIds
    && res.candidate == Some(c') && res.mergedIds == Ascending(aliases) && res.dropped.None?
    && (forall id :: id in res.evictedIds ==> id in before && !Pinned(before[id]))
  }

  lemma SettleReports(r: Round, c: Candidate, o: Observation, matches: set<string>, created: bool,
                      evictedIds: seq<string>,
                      configured: map<string, seq<string>>, rules: Rules)
    requires Absorb(c, o, configured, rules).id == c.id
    ensures var r' := Settle(r, c, o, matches, created, evictedIds, configured, rules);
            var aliases := Aliases(r.entries, matches, Absorb(c, o, configured, rules));
            && c.id in r'.entries
            && r'.results ==
               r.results + [IngestResult(Some(r'.entries[c.id]), created, None, evictedIds, Ascending(aliases))]
  {
    hide Absorb, FoldIn, Aliases, Ascending;
  }

  lemma VictimPresent(entries: map<string, Candidate>, touched: set<string>, id: string)
    ensures IsVictim(entries, touched, id) ==> id in entries && id !in touched && !Pinned(entries[id])
  {}

  lemma EndingFacts(r: Round, r': Round, base: Round, c: Candidate, o: Observation, newId: Option<string>,
                    evictedIds: seq<string>,
                    configured: map<string, seq<string>>, env: Env)
    requires IngestEnds(r, r', base, c, o, newId, evictedIds, configured, env)
    ensures base.entries == r.entries - Elements(evictedIds) && base.results == r.results
    ensures if Chosen(r.entries, o, env.rules).None? then c.id !in r.entries && c.fingerprint == ""
            else c.id in r.entries && r.entries[c.id] == c
    ensures c.id !in evictedIds && forall id :: id in evictedIds ==> id in r.entries && !Pinned(r.entries[id])
  {
    hide Chosen, Matches, SettlesAt, Settle, IsVictim, Pinned;
    if evictedIds != [] {
      VictimPresent(r.entries, r.touched, evictedIds[0]);
      assert evictedIds == [evictedIds[0]];
    }
    assert base.entries == r.entries - Elements(evictedIds);
  }

  lemma EndingShape(r: Round, r': Round, base: Round, c: Candidate, o: Observation, newId: Option<string>,
                    evictedIds: seq<string>,
                    configured: map<string, seq<string>>, env: Env)
    requires IngestEnds(r, r', base, c, o, newId, evictedIds, configured, env)
    requires ConfiguredOk(configured, env.rules) && ObservationOk(o, env.rules)
    ensures r'.results != [] && c.id in r'.entries && base.entries == r.entries - Elements(evictedIds)
    ensures r'.results == r.results + [LastResult(r')] && LastResult(r').candidate == Some(r'.entries[c.id])
    ensures r'.entries[c.id].id == c.id
    ensures LastResult(r').evictedIds == evictedIds && LastResult(r').created == Chosen(r.entries, o, env.rules).None?
    ensures LastResult(r').dropped.None?
    ensures r'.entries[c.id].fingerprint == (if o.fingerprint == "" then c.fingerprint else o.fingerprint)
    ensures var aliases := Aliases(base.entries, Matches(r.entries, o, env.rules), Absorb(c, o, configured, env.rules));
            Shaped(r.entries, r'.entries, c, r'.entries[c.id], aliases, o, LastResult(r'))
  {
    var matches := Matches(r.entries, o, env.rules);
    var created := Chosen(r.entries, o, env.rules).None?;
    hide SettledBy, MadeRoom, Matches, Chosen, Settle, Pinned, Ready, EntriesOk, ConfiguredOk, ObservationOk, Aliases;
    hide Ascending, Absorb;
    assert Compatible(c, o);
    assert r' == Settle(base, c, o, matches, created, evictedIds, configured, env.rules);
    assert Ready(c, configured, env.rules) && MaySettle(base.entries, c, o) &&
           EntriesOk(base.entries, configured, env.rules);
    EndingFacts(r, r', base, c, o, newId, evictedIds, configured, env);
    hide IngestEnds, Chosen, Matches, Ready, EntriesOk, ConfiguredOk, ObservationOk, Settle, Aliases, Ascending, Pinned;
    hide Absorb, MaySettle;
    assert c.id in r'.entries &&
           Settled(base.entries, r'.entries, c, r'.entries[c.id],
                   Aliases(base.entries, matches, Absorb(c, o, configured, env.rules)), o) by {
      SettleShape(base, c, o, matches, created, evictedIds, configured, env.rules);
    }
    var aliases := Aliases(base.entries, matches, Absorb(c, o, configured, env.rules));
    assert r'.results ==
           r.results + [IngestResult(Some(r'.entries[c.id]), created, None, evictedIds, Ascending(aliases))] by {
      assert Absorb(c, o, configured, env.rules).id == c.id by {
        AbsorbOk(c, o, configured, env.rules);
      }
      SettleReports(base, c, o, matches, created, evictedIds, configured, env.rules);
    }
  }

  lemma ShapedKeeps(before: map<string, Candidate>, after: map<string, Candidate>, c: Candidate, c': Candidate,
                    aliases: set<string>,
                    o: Observation, res: IngestResult)
    requires Shaped(before, after, c, c', aliases, o, res)
    ensures Kept(before, after, res)
  {
    AscendingFacts(aliases);
    hide Ascending;
  }

  lemma ShapedIdentifies(before: map<string, Candidate>, after: map<string, Candidate>, c: Candidate, c': Candidate,
                         aliases: set<string>,
                         o: Observation, res: IngestResult, rules: Rules)
    requires Shaped(before, after, c, c', aliases, o, res)
    requires o.fingerprint != "" ==> forall id :: id in before && id != c.id ==> before[id].fingerprint != o.fingerprint
    requires o.fingerprint != "" ==>
               forall id :: id in before && id !in res.evictedIds && before[id].fingerprint == "" && id != c.id &&
                            id !in aliases ==>
                                                   !MatchesObservation(before[id], o, rules)
    ensures Identified(after, o, res, rules)
  {
    hide Ascending, Pinned, MatchesObservation;
  }

  lemma ShapedAccounts(before: map<string, Candidate>, after: map<string, Candidate>, c: Candidate, c': Candidate,
                       aliases: set<string>,
                       o: Observation, res: IngestResult)
    requires Shaped(before, after, c, c', aliases, o, res) && |res.evictedIds| <= 1
    requires forall id :: id in aliases ==>
               id in before && id !in res.evictedIds && before[id].fingerprint == "" && c'.fingerprint != ""
    ensures Accounted(before, after, res)
  {
    AscendingFacts(aliases);
    assert Elements(res.mergedIds) == aliases;
    hide Ascending, Pinned;
  }

  lemma EndingAccounts(r: Round, r': Round, base: Round, c: Candidate, o: Observation, newId: Option<string>,
                       evictedIds: seq<string>,
                       configured: map<string, seq<string>>, env: Env)
    requires IngestEnds(r, r', base, c, o, newId, evictedIds, configured, env)
    requires ConfiguredOk(configured, env.rules) && ObservationOk(o, env.rules)
    ensures r'.results != [] && Accounted(r.entries, r'.entries, LastResult(r'))
  {
    var c1 := Absorb(c, o, configured, env.rules);
    var aliases := Aliases(base.entries, Matches(r.entries, o, env.rules), c1);
    assert |evictedIds| <= 1;
    EndingShape(r, r', base, c, o, newId, evictedIds, configured, env);
    assert c1.fingerprint == r'.entries[c.id].fingerprint by {
      AbsorbOk(c, o, configured, env.rules);
    }
    AliasFacts(base.entries, Matches(r.entries, o, env.rules), c1);
    hide Aliases, Ascending, Shaped, ConfiguredOk, ObservationOk, IngestEnds, Absorb, Matches;
    ShapedAccounts(r.entries, r'.entries, c, r'.entries[c.id], aliases, o, LastResult(r'));
  }

  /** Conservation, one observation: the entries are accounted for, at most one is evicted,
      and only from a full inbox; a drop means that nothing could be evicted. */
  lemma IngestAccounts(r: Round, o: Observation, newId: Option<string>, configured: map<string, seq<string>>, env: Env)
    requires EntriesOk(r.entries, configured, env.rules) && ConfiguredOk(configured, env.rules)
    requires ObservationOk(o, env.rules) && FreshId(newId, r.entries)
    ensures var out := IngestStep(r, o, newId, configured, env);
            out.Some? ==>
              && |out.value.results| == |r.results| + 1 && r.results <= out.value.results
              && (var res := LastResult(out.value);
                  && Accounted(r.entries, out.value.entries, res)
                  && (res.dropped.Some? ==>
                        |r.entries| >= env.maxEntries && forall id :: !Evictable(r.entries, r.touched, id))
                  && (res.evictedIds != [] ==>
                        res.created && |r.entries| >= env.maxEntries &&
                        IsVictim(r.entries, r.touched, res.evictedIds[0]))
                  && (res.created && res.evictedIds == [] ==> |r.entries| < env.maxEntries)
                  && (res.created ==> res.candidate.Some? && newId == Some(res.candidate.value.id)))
  {
    hide IngestStep, EntriesOk, ConfiguredOk, ObservationOk, FreshId, IngestEnds, Evictable, IsVictim;
    var out := IngestStep(r, o, newId, configured, env);
    var base, c, evictedIds := IngestCases(r, o, newId, configured, env);
    if out.Some? && IngestEnds(r, out.value, base, c, o, newId, evictedIds, configured, env) {
      EndingAccounts(r, out.value, base, c, o, newId, evictedIds, configured, env);
      EndingJustified(r, out.value, base, c, o, newId, evictedIds, configured, env);
    }
  }

  lemma EndingJustified(r: Round, r': Round, base: Round, c: Candidate, o: Observation, newId: Option<string>,
                        evictedIds: seq<string>,
                        configured: map<string, seq<string>>, env: Env)
    requires IngestEnds(r, r', base, c, o, newId, evictedIds, configured, env)
    requires ConfiguredOk(configured, env.rules) && ObservationOk(o, env.rules)
    ensures r'.results != [] && r'.results == r.results + [LastResult(r')]
    ensures var res := LastResult(r');
            && res.dropped.None? && res.candidate.Some?
            && (res.evictedIds != [] ==>
                  res.created && |r.entries| >= env.maxEntries && IsVictim(r.entries, r.touched, res.evictedIds[0]))
            && (res.created && res.evictedIds == [] ==> |r.entries| < env.maxEntries)
            && (res.created ==> newId == Some(res.candidate.value.id))
  {
    EndingShape(r, r', base, c, o, newId, evictedIds, configured, env);
    hide Chosen, Matches, SettlesAt, ConfiguredOk, ObservationOk, Settle, IsVictim, Shaped, Absorb, Aliases, Evicted;
  }

  lemma IngestKeeps(r: Round, o: Observation, newId: Option<string>, configured: map<string, seq<string>>, env: Env)
    requires EntriesOk(r.entries, configured, env.rules) && ConfiguredOk(configured, env.rules)
    requires ObservationOk(o, env.rules) && FreshId(newId, r.entries)
    ensures var out := IngestStep(r, o, newId, configured, env);
            out.Some? ==> out.value.results != [] && Kept(r.entries, out.value.entries, LastResult(out.value))
  {
    var out := IngestStep(r, o, newId, configured, env);
    var base, c, evictedIds := IngestCases(r, o, newId, configured, env);
    if out.Some? && out.value != Dropped(r, o) {
      EndingShape(r, out.value, base, c, o, newId, evictedIds, configured, env);
      var aliases := Aliases(base.entries, Matches(r.entries, o, env.rules), Absorb(c, o, configured, env.rules));
      hide Shaped;
      ShapedKeeps(r.entries, out.value.entries, c, out.value.entries[c.id], aliases, o, LastResult(out.value));
    }
    hide IngestStep, Ready, EntriesOk, ConfiguredOk, ObservationOk, IngestEnds, Evictable;
  }

  lemma SizeAfter(before: map<string, Candidate>, after: map<string, Candidate>, res: IngestResult)
    requires Accounted(before, after, res)
    ensures |after| == |before| + (if res.created then 1 else 0) - |res.evictedIds| - |res.mergedIds|
  {
    if res.dropped.None? {
      var t := res.candidate.value.id;
      var e, m := Elements(res.evictedIds), Elements(res.mergedIds);
      ElementsSize(res.evictedIds);
      ElementsSize(res.mergedIds);
      assert |before.Keys - e - m| == |before.Keys| - |e| - |m| by {
        assert m <= before.Keys - e;
      }
      assert t in before.Keys - e - m <==> !res.created;
      assert |after| == |after.Keys|;
    }
  }

  lemma {:induction false} ElementsSize(ids: seq<string>)
    requires NoRepeats(ids)
    ensures |Elements(ids)| == |ids|
  {
    if ids != [] {
      ElementsSize(ids[1..]);
      assert Elements(ids) == {ids[0]} + Elements(ids[1..]);
    }
  }

  /** Every observation keeps the invariant of the entries, and the limit. */
  lemma IngestKeepsOk(r: Round, o: Observation, newId: Option<string>, configured: map<string, seq<string>>, env: Env)
    requires EntriesOk(r.entries, configured, env.rules) && ConfiguredOk(configured, env.rules)
    requires ObservationOk(o, env.rules) && FreshId(newId, r.entries)
    requires env.maxEntries > 0 && |r.entries| <= env.maxEntries
    ensures var out := IngestStep(r, o, newId, configured, env);
            out.Some? ==> EntriesOk(out.value.entries, configured, env.rules) && |out.value.entries| <= env.maxEntries
  {
    var out := IngestStep(r, o, newId, configured, env);
    var base, c, evictedIds := IngestCases(r, o, newId, configured, env);
    IngestAccounts(r, o, newId, configured, env);
    if out.Some? {
      SizeAfter(r.entries, out.value.entries, LastResult(out.value));
      if out.value != Dropped(r, o) {
        EndingAccounts(r, out.value, base, c, o, newId, evictedIds, configured, env);
        SettleKeepsEntries(base, c, o, Matches(r.entries, o, env.rules), Chosen(r.entries, o, env.rules).None?,
                           evictedIds, configured, env.rules);
      }
    }
    hide IngestStep, Ready, Chosen, Matches, EntriesOk, ConfiguredOk, ObservationOk, Settle, IsVictim, MaySettle;
    hide Accounted, Evictable;
  }

  /** Identity, one observation: a keyed observation that is not dropped leaves exactly one
      entry with its key, and no keyless entry it still matches. */
  ghost predicate Identified(after: map<string, Candidate>, o: Observation, res: IngestResult, rules: Rules) {
    o.fingerprint != "" && res.dropped.None? ==>
      && res.candidate.Some?
      && (forall id :: id in after && after[id].fingerprint == o.fingerprint <==> id == res.candidate.value.id)
      && (forall id :: id in after && after[id].fingerprint == "" ==> !MatchesObservation(after[id], o, rules))
  }

  lemma KeyIsNew(r: Round, r': Round, base: Round, c: Candidate, o: Observation, newId: Option<string>,
                 evictedIds: seq<string>,
                 configured: map<string, seq<string>>, env: Env)
    requires IngestEnds(r, r', base, c, o, newId, evictedIds, configured, env) && Distinct(r.entries)
    ensures o.fingerprint != "" ==>
              forall id :: id in r.entries && id != c.id ==> r.entries[id].fingerprint != o.fingerprint
  {
    ChosenFacts(r.entries, o, env.rules);
    if o.fingerprint != "" && Chosen(r.entries, o, env.rules).Some? && r.entries[c.id].fingerprint == "" {
      assert forall id :: id in r.entries && r.entries[id].fingerprint == o.fingerprint ==>
               id in Keyed(r.entries, Matches(r.entries, o, env.rules), o.fingerprint);
    }
    hide Chosen, Ready, EntriesOk, Settle, IsVictim, Matches;
  }

  lemma OthersDoNotMatch(before: map<string, Candidate>, evictedIds: seq<string>, c: Candidate, o: Observation,
                         rules: Rules)
    ensures c.fingerprint != "" ==>
              var aliases := Aliases(before - Elements(evictedIds), Matches(before, o, rules), c);
              forall id :: id in before && id !in evictedIds && before[id].fingerprint == "" && id != c.id &&
                           id !in aliases ==>
                             !MatchesObservation(before[id], o, rules)
  {
    hide MatchesObservation;
  }

  lemma EndingIdentifies(r: Round, r': Round, base: Round, c: Candidate, o: Observation, newId: Option<string>,
                         evictedIds: seq<string>,
                         configured: map<string, seq<string>>, env: Env)
    requires IngestEnds(r, r', base, c, o, newId, evictedIds, configured, env) && Distinct(r.entries)
    requires ConfiguredOk(configured, env.rules) && ObservationOk(o, env.rules)
    ensures r'.results != [] && Identified(r'.entries, o, LastResult(r'), env.rules)
  {
    var c1 := Absorb(c, o, configured, env.rules);
    var aliases := Aliases(base.entries, Matches(r.entries, o, env.rules), c1);
    EndingShape(r, r', base, c, o, newId, evictedIds, configured, env);
    KeyIsNew(r, r', base, c, o, newId, evictedIds, configured, env);
    assert c1.fingerprint == (if o.fingerprint == "" then c.fingerprint else o.fingerprint) && c1.id == c.id by {
      AbsorbOk(c, o, configured, env.rules);
    }
    OthersDoNotMatch(r.entries, evictedIds, c1, o, env.rules);
    hide Ready, EntryOk, EntriesOk, ConfiguredOk, ObservationOk, MatchesObservation, Absorb, Shaped, Distinct;
    hide IngestEnds, Aliases, Matches;
    ShapedIdentifies(r.entries, r'.entries, c, r'.entries[c.id], aliases, o, LastResult(r'), env.rules);
  }

  lemma IngestIdentifies(r: Round, o: Observation, newId: Option<string>, configured: map<string, seq<string>>,
                         env: Env)
    requires EntriesOk(r.entries, configured, env.rules) && ConfiguredOk(configured, env.rules)
    requires ObservationOk(o, env.rules) && FreshId(newId, r.entries)
    ensures var out := IngestStep(r, o, newId, configured, env);
            out.Some? ==> out.value.results != [] && Identified(out.value.entries, o, LastResult(out.value), env.rules)
  {
    var out := IngestStep(r, o, newId, configured, env);
    var base, c, evictedIds := IngestCases(r, o, newId, configured, env);
    if out.Some? && out.value != Dropped(r, o) {
      EndingIdentifies(r, out.value, base, c, o, newId, evictedIds, configured, env);
    }
    hide IngestStep, Ready, EntriesOk, ConfiguredOk, ObservationOk, IngestEnds, Evictable;
  }

  /** The events and counters of one observation. */
  predicate Counted(r: Round, r': Round, res: IngestResult) {
    && Published(r, r')
    && r'.dropped == r.dropped + (if res.dropped.Some? then 1 else 0)
    && r'.evicted == r.evicted + |res.evictedIds|
    && r'.touched == r.touched + (if res.candidate.Some? then {res.candidate.value.id} else {})
  }

  predicate SettleCounted(r: Round, r': Round, c: Candidate, evictedIds: seq<string>) {
    && Published(r, r') && r'.dropped == r.dropped && r'.evicted == r.evicted && r'.touched == r.touched + {c.id}
    && r'.results != []
    && (var res := LastResult(r');
        res.evictedIds == evictedIds && res.dropped.None? && res.candidate.Some? && res.candidate.value.id == c.id)
  }

  lemma SettleCounts(r: Round, c: Candidate, o: Observation, matches: set<string>, created: bool,
                     evictedIds: seq<string>,
                     configured: map<string, seq<string>>, rules: Rules)
    requires EntriesOk(r.entries, configured, rules) && ConfiguredOk(configured, rules) && ObservationOk(o, rules)
    requires Ready(c, configured, rules) && MaySettle(r.entries, c, o)
    ensures SettleCounted(r, Settle(r, c, o, matches, created, evictedIds, configured, rules), c, evictedIds)
  {
    SettleOutcome(r, c, o, matches, created, evictedIds, configured, rules);
    SettledCandidate(r, c, o, matches, created, evictedIds, configured, rules);
    hide Ready, EntryOk, EntriesOk, ConfiguredOk, ObservationOk, Settle, MaySettle, Absorb, Aliases, Ascending;
    hide Published;
  }

  lemma EndingCounts(r: Round, r': Round, base: Round, c: Candidate, o: Observation, newId: Option<string>,
                     evictedIds: seq<string>,
                     configured: map<string, seq<string>>, env: Env)
    requires IngestEnds(r, r', base, c, o, newId, evictedIds, configured, env)
    requires ConfiguredOk(configured, env.rules) && ObservationOk(o, env.rules)
    ensures r'.results != [] && Counted(r, r', LastResult(r'))
  {
    var matches := Matches(r.entries, o, env.rules);
    var created := Chosen(r.entries, o, env.rules).None?;
    hide Chosen, Matches, Ready, EntriesOk, ConfiguredOk, ObservationOk, Settle, IsVictim, MaySettle, Published;
    hide Evicted;
    assert SettleCounted(base, r', c, evictedIds) by {
      hide SettledBy, MadeRoom, SettleCounted;
      SettleCounts(base, c, o, matches, created, evictedIds, configured, env.rules);
    }
    if evictedIds != [] {
      EvictionPublishes(r, evictedIds[0], o.observedAt);
    }
    PublishedOnward(r, base, r');
  }

  lemma PublishedOnward(r: Round, r1: Round, r2: Round)
    ensures Published(r, r)
    ensures Published(r, r1) && Published(r1, r2) ==> Published(r, r2)
  {}

  lemma EvictionPublishes(r: Round, victim: string, at: int)
    ensures Published(r, Evicted(r, victim, at)) && Evicted(r, victim, at).sequence == r.sequence + 1
    ensures Evicted(r, victim, at).touched == r.touched && Evicted(r, victim, at).dropped == r.dropped
    ensures Evicted(r, victim, at).evicted == r.evicted + 1 && Evicted(r, victim, at).results == r.results
  {}


  lemma IngestCounts(r: Round, o: Observation, newId: Option<string>, configured: map<string, seq<string>>, env: Env)
    requires EntriesOk(r.entries, configured, env.rules) && ConfiguredOk(configured, env.rules)
    requires ObservationOk(o, env.rules) && FreshId(newId, r.entries)
    ensures var out := IngestStep(r, o, newId, configured, env);
            out.Some? ==> out.value.results != [] && Counted(r, out.value, LastResult(out.value))
  {
    hide IngestStep, EntriesOk, ConfiguredOk, ObservationOk, FreshId, IngestEnds, Evictable;
    var out := IngestStep(r, o, newId, configured, env);
    var base, c, evictedIds := IngestCases(r, o, newId, configured, env);
    if out.Some? && out.value != Dropped(r, o) {
      EndingCounts(r, out.value, base, c, o, newId, evictedIds, configured, env);
    }
  }

  // ---------------------------------------------------------------------------------
  // Host names.

  predicate AllUndotted(entries: map<string, Candidate>) {
    forall id :: id in entries ==> Undotted(entries[id])
  }

  lemma SettleKeepsUndotted(r: Round, c: Candidate, o: Observation, matches: set<string>, created: bool,
                            evictedIds: seq<string>,
                            configured: map<string, seq<string>>, rules: Rules)
    requires EntriesOk(r.entries, configured, rules) && ConfiguredOk(configured, rules) && ObservationOk(o, rules)
    requires Ready(c, configured, rules) && MaySettle(r.entries, c, o)
    requires AllUndotted(r.entries) && Undotted(c) && !EndsInDot(o.hostname)
    ensures AllUndotted(Settle(r, c, o, matches, created, evictedIds, configured, rules).entries)
  {
    var c1 := Absorb(c, o, configured, rules);
    AbsorbOk(c, o, configured, rules);
    FoldInOk(c1, Ascending(Aliases(r.entries, matches, c1)), r.entries, configured, rules);
    hide Absorb, FoldIn, EntryOk, Ready, EntriesOk, ConfiguredOk, ObservationOk, Aliases, Ascending, EndsInDot;
  }

  lemma IngestKeepsUndotted(r: Round, o: Observation, newId: Option<string>, configured: map<string, seq<string>>,
                            env: Env)
    requires EntriesOk(r.entries, configured, env.rules) && ConfiguredOk(configured, env.rules)
    requires ObservationOk(o, env.rules) && FreshId(newId, r.entries)
    requires AllUndotted(r.entries) && !EndsInDot(o.hostname)
    ensures var out := IngestStep(r, o, newId, configured, env);
            out.Some? ==> AllUndotted(out.value.entries)
  {
    var out := IngestStep(r, o, newId, configured, env);
    var base, c, evictedIds := IngestCases(r, o, newId, configured, env);
    if out.Some? && out.value != Dropped(r, o) {
      EndingUndotted(r, out.value, base, c, o, newId, evictedIds, configured, env);
    }
    hide IngestStep, IngestEnds, Ready, EntriesOk, ConfiguredOk, ObservationOk, Evictable, Undotted;
  }

  lemma EndingUndotted(r: Round, r': Round, base: Round, c: Candidate, o: Observation, newId: Option<string>,
                       evictedIds: seq<string>,
                       configured: map<string, seq<string>>, env: Env)
    requires IngestEnds(r, r', base, c, o, newId, evictedIds, configured, env)
    requires ConfiguredOk(configured, env.rules) && ObservationOk(o, env.rules)
    requires AllUndotted(r.entries) && !EndsInDot(o.hostname)
    ensures AllUndotted(r'.entries)
  {
    var matches := Matches(r.entries, o, env.rules);
    var created := Chosen(r.entries, o, env.rules).None?;
    EndingFacts(r, r', base, c, o, newId, evictedIds, configured, env);
    assert r' == Settle(base, c, o, matches, created, evictedIds, configured, env.rules);
    assert Ready(c, configured, env.rules) && MaySettle(base.entries, c, o) &&
           EntriesOk(base.entries, configured, env.rules);
    assert created ==> c.hostnames == [];
    hide IngestEnds, Chosen, Matches, Ready, EntriesOk, ConfiguredOk, ObservationOk, Settle, MaySettle;
    SettleKeepsUndotted(base, c, o, matches, created, evictedIds, configured, env.rules);
  }
}
