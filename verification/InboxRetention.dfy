/** Over a whole discovery round: what was observed or known before is still there at the end,
    in the same entry or in the one it was folded into, unless it was evicted; and what was
    just seen does not turn stale before its time. */
module InboxRetention {
  import opened Shared
  import opened BoundedTime
  import opened InboxData
  import opened InboxSteps
  import opened InboxInvariant
  import opened InboxIngest
  import opened InboxBatches
  import opened InboxOperations
  import opened InboxGathering

  ghost predicate Transitive(same: (string, string) -> bool) {
    forall a, b, c :: same(a, b) && same(b, c) ==> same(a, c)
  }

  /** An entry shows an observation: seen no earlier, under every name and place it gave. */
  predicate ShowsObservation(c: Candidate, o: Observation, rules: Rules) {
    && c.firstSeen <= o.observedAt <= c.lastSeen
    && (o.fingerprint != "" ==> c.fingerprint == o.fingerprint)
    && (o.name != "" ==> Lists(c.names, o.name, rules.fold))
    && (o.hostname != "" ==> Lists(c.hostnames, o.hostname, rules.fold))
    && (o.source != "" ==> Lists(c.sources, o.source, EXACT))
    && (o.address != "" ==> HasEndpoint(c.endpoints, o.address, o.port))
  }

  predicate ShowsPlaces(c: Candidate, p: Candidate) {
    forall e :: e in p.endpoints ==> HasEndpoint(c.endpoints, e.address, e.port)
  }

  /** An entry shows everything another one showed. */
  predicate Shows(c: Candidate, p: Candidate, rules: Rules) {
    && c.firstSeen <= p.firstSeen && p.lastSeen <= c.lastSeen
    && (p.fingerprint != "" ==> c.fingerprint == p.fingerprint)
    && ListsAll(c.names, p.names, rules.fold) && ListsAll(c.hostnames, p.hostnames, rules.fold)
    && ListsAll(c.sources, p.sources, EXACT)
    && ShowsPlaces(c, p)
  }

  lemma ListsOnward(a: seq<string>, b: seq<string>, v: string, same: (string, string) -> bool)
    requires Transitive(same) && ListsAll(a, b, same) && Lists(b, v, same)
    ensures Lists(a, v, same)
  {
    if v !in b {
      var i :| 0 <= i < |b| && same(b[i], v);
      assert b[i] in b;
      if b[i] in a {
        var j :| 0 <= j < |a| && a[j] == b[i];
        assert same(a[j], v);
      } else {
        var j :| 0 <= j < |a| && same(a[j], b[i]);
        assert same(a[j], v);
      }
    }
  }

  lemma ListsAllOnward(a: seq<string>, b: seq<string>, c: seq<string>, same: (string, string) -> bool)
    requires Transitive(same) && ListsAll(a, b, same) && ListsAll(b, c, same)
    ensures ListsAll(a, c, same)
  {
    forall v | v in c
      ensures Lists(a, v, same)
    {
      ListsOnward(a, b, v, same);
    }
  }

  lemma ShowsItself(c: Candidate, rules: Rules)
    ensures Shows(c, c, rules)
  {
    forall e | e in c.endpoints
      ensures HasEndpoint(c.endpoints, e.address, e.port)
    {
      ListedPlace(c.endpoints, e);
    }
  }

  lemma PlaceOnward(a: Candidate, b: Candidate, address: string, port: int)
    requires ShowsPlaces(a, b) && HasEndpoint(b.endpoints, address, port)
    ensures HasEndpoint(a.endpoints, address, port)
  {
    var i :| 0 <= i < |b.endpoints| && b.endpoints[i].address == address && b.endpoints[i].port == port;
    assert b.endpoints[i] in b.endpoints;
  }

  lemma ShowsOnward(a: Candidate, b: Candidate, c: Candidate, rules: Rules)
    requires Transitive(rules.fold) && Shows(a, b, rules) && Shows(b, c, rules)
    ensures Shows(a, c, rules)
  {
    assert Transitive(EXACT);
    ListsAllOnward(a.names, b.names, c.names, rules.fold);
    ListsAllOnward(a.hostnames, b.hostnames, c.hostnames, rules.fold);
    ListsAllOnward(a.sources, b.sources, c.sources, EXACT);
    hide ListsAll, Transitive, HasEndpoint;
    forall e | e in c.endpoints
      ensures HasEndpoint(a.endpoints, e.address, e.port)
    {
      PlaceOnward(a, b, e.address, e.port);
    }
  }

  lemma ObservationOnward(a: Candidate, b: Candidate, o: Observation, rules: Rules)
    requires Transitive(rules.fold) && Shows(a, b, rules) && ShowsObservation(b, o, rules)
    ensures ShowsObservation(a, o, rules)
  {
    assert Transitive(EXACT);
    if o.name != "" {
      ListsOnward(a.names, b.names, o.name, rules.fold);
    }
    if o.hostname != "" {
      ListsOnward(a.hostnames, b.hostnames, o.hostname, rules.fold);
    }
    if o.source != "" {
      ListsOnward(a.sources, b.sources, o.source, EXACT);
    }
    if o.address != "" {
      PlaceOnward(a, b, o.address, o.port);
    }
    hide ListsAll, Lists, Transitive, HasEndpoint;
  }

  // ---------------------------------------------------------------------------------
  // One observation.

  lemma GatheredShows(c: Candidate, o: Observation, base: Candidate, parts: set<Candidate>,
                      configured: map<string, seq<string>>, rules: Rules)
    requires Gathered(c, o, base, parts, configured, rules)
    ensures ShowsObservation(c, o, rules)
    ensures forall p :: p in parts && (p.fingerprint != "" ==> c.fingerprint == p.fingerprint) ==> Shows(c, p, rules)
  {
    hide Lists, ListsAll, HasEndpoint, GathersSpans;
    forall p | p in parts && (p.fingerprint != "" ==> c.fingerprint == p.fingerprint)
      ensures Shows(c, p, rules)
    {
      assert ListsAll(c.names, NAMES(p), rules.fold) && ListsAll(c.hostnames, HOSTNAMES(p), rules.fold) &&
             ListsAll(c.sources, SOURCES(p), EXACT);
    }
  }

  /** Where the entry `id` is after an observation: where it was, or in the one it went into. */
  function Heir(res: IngestResult, id: string): string {
    if id in res.mergedIds && res.candidate.Some? then res.candidate.value.id else id
  }

  /** One observation loses nothing that it does not evict. */
  ghost predicate Retains(before: Round, after: Round, o: Observation, rules: Rules) {
    && after.results != []
    && (var res := LastResult(after);
        && after.results == before.results + [res]
        && (res.candidate.Some? ==>
              var t := res.candidate.value.id;
              && t in after.entries && t in after.touched && t !in res.evictedIds
              && ShowsObservation(after.entries[t], o, rules))
        && (forall id :: id in before.entries && id !in res.evictedIds ==>
              Heir(res, id) in after.entries && Shows(after.entries[Heir(res, id)], before.entries[id], rules))
        && before.touched <= after.touched
        && (forall id :: id in before.touched ==> id !in res.evictedIds))
  }

  ghost predicate ResultGathered(before: Round, res: IngestResult, o: Observation,
                                 configured: map<string, seq<string>>, rules: Rules) {
    res.candidate.Some? ==>
      Gathered(res.candidate.value, o, BaseOf(before.entries, res, o.observedAt),
               PartsOf(before.entries, res, o.observedAt), configured, rules)
  }

  lemma HeirShows(before: Round, after: Round, res: IngestResult, o: Observation, id: string,
                  configured: map<string, seq<string>>, rules: Rules)
    requires Accounted(before.entries, after.entries, res) && Kept(before.entries, after.entries, res)
    requires ResultGathered(before, res, o, configured, rules)
    requires id in before.entries && id !in res.evictedIds
    ensures Heir(res, id) in after.entries && Shows(after.entries[Heir(res, id)], before.entries[id], rules)
  {
    hide Gathered, Shows, Pinned;
    ShowsItself(before.entries[id], rules);
    if res.candidate.Some? && (id in res.mergedIds || id == res.candidate.value.id) {
      var parts := PartsOf(before.entries, res, o.observedAt);
      assert before.entries[id] in parts;
      GatheredShows(res.candidate.value, o, BaseOf(before.entries, res, o.observedAt), parts, configured, rules);
    }
  }

  lemma CandidateShows(before: Round, after: Round, res: IngestResult, o: Observation,
                       configured: map<string, seq<string>>, rules: Rules)
    requires Accounted(before.entries, after.entries, res) && res.candidate.Some?
    requires ResultGathered(before, res, o, configured, rules)
    ensures var t := res.candidate.value.id;
            t in after.entries && t !in res.evictedIds && ShowsObservation(after.entries[t], o, rules)
  {
    GatheredShows(res.candidate.value, o, BaseOf(before.entries, res, o.observedAt),
                  PartsOf(before.entries, res, o.observedAt), configured, rules);
    hide Gathered, ShowsObservation;
  }

  lemma StepRetains(before: Round, after: Round, o: Observation, newId: Option<string>,
                    configured: map<string, seq<string>>, env: Env)
    requires StepDone(before, after, o, newId, env)
    requires ResultGathered(before, LastResult(after), o, configured, env.rules)
    ensures Retains(before, after, o, env.rules)
  {
    hide Identified, Counted, Justified, Accounted, Kept, ResultGathered, Shows, ShowsObservation, Heir;
    var res := LastResult(after);
    assert Accounted(before.entries, after.entries, res) && Kept(before.entries, after.entries, res);
    StepTouches(before, after, o, newId, env);
    hide StepDone;
    if res.candidate.Some? {
      CandidateShows(before, after, res, o, configured, env.rules);
    }
    forall id | id in before.entries && id !in res.evictedIds
      ensures Heir(res, id) in after.entries &&
              Shows(after.entries[Heir(res, id)], before.entries[id], env.rules)
    {
      HeirShows(before, after, res, o, id, configured, env.rules);
    }
  }

  lemma OneRetains(r: Round, o: Observation, newId: Option<string>, configured: map<string, seq<string>>, env: Env)
    requires env.maxEntries > 0 && ConfiguredOk(configured, env.rules) && WithinLimit(r.entries, configured, env)
    requires ObservationOk(o, env.rules) && FreshId(newId, r.entries)
    ensures var out := IngestStep(r, o, newId, configured, env);
            out.Some? ==> Retains(r, out.value, o, env.rules)
  {
    hide IngestStep, ConfiguredOk, EntriesOk, ObservationOk, FreshId, Gathered;
    OneObservation(r, o, newId, configured, env);
    IngestGathers(r, o, newId, configured, env);
    var out := IngestStep(r, o, newId, configured, env);
    if out.Some? {
      assert out.value.results != [] by {
        StepResults(r, out.value, o, newId, env);
      }
      hide StepDone;
      StepRetains(r, out.value, o, newId, configured, env);
    }
  }

  // ---------------------------------------------------------------------------------
  // A round.

  /** What an observation of the round left: an entry of the round's own that shows it. */
  predicate Remembered(r: Round, o: Observation, rules: Rules) {
    exists id :: id in r.entries && id in r.touched && ShowsObservation(r.entries[id], o, rules)
  }

  predicate EvictedBy(results: seq<IngestResult>, id: string) {
    exists k :: 0 <= k < |results| && id in results[k].evictedIds
  }

  /** What became of an entry: evicted, or there, or folded into one of the round's own. */
  ghost predicate Survives(r: Round, id: string, c: Candidate, rules: Rules) {
    || EvictedBy(r.results, id)
    || exists heir :: heir in r.entries && (heir == id || heir in r.touched) && Shows(r.entries[heir], c, rules)
  }

  lemma StepRemembers(before: Round, after: Round, o: Observation, earlier: Observation, rules: Rules)
    requires Transitive(rules.fold) && Retains(before, after, o, rules) && Remembered(before, earlier, rules)
    ensures Remembered(after, earlier, rules)
  {
    hide Shows, ShowsObservation, Transitive;
    var id :| id in before.entries && id in before.touched && ShowsObservation(before.entries[id], earlier, rules);
    var heir := Heir(LastResult(after), id);
    ObservationOnward(after.entries[heir], before.entries[id], earlier, rules);
    assert heir in after.touched;
  }

  lemma StepKeeps(before: Round, after: Round, o: Observation, id: string, c: Candidate, rules: Rules)
    requires Transitive(rules.fold) && Retains(before, after, o, rules) && Survives(before, id, c, rules)
    ensures Survives(after, id, c, rules)
  {
    hide Shows, ShowsObservation, Transitive;
    var res := LastResult(after);
    if EvictedBy(before.results, id) {
      var k :| 0 <= k < |before.results| && id in before.results[k].evictedIds;
      assert id in after.results[k].evictedIds;
    } else {
      var h :| h in before.entries && (h == id || h in before.touched) && Shows(before.entries[h], c, rules);
      if h in res.evictedIds {
        assert id in after.results[|before.results|].evictedIds;
      } else {
        ShowsOnward(after.entries[Heir(res, h)], before.entries[h], c, rules);
      }
    }
  }

  lemma StepRemembersOwn(before: Round, after: Round, o: Observation, rules: Rules)
    requires Retains(before, after, o, rules) && LastResult(after).candidate.Some?
    ensures Remembered(after, o, rules)
  {
    hide Shows, ShowsObservation;
    assert LastResult(after).candidate.value.id in after.entries;
  }

  lemma PrefixRetains(r: Round, os: seq<Observation>, ids: seq<Option<string>>, n: nat, known: set<string>,
                      configured: map<string, seq<string>>, env: Env)
    requires BatchReady(r, os, ids, known, configured, env) && 0 < n <= |os|
    requires IngestAll(r, os, ids, n, configured, env).Some?
    ensures IngestAll(r, os, ids, n - 1, configured, env).Some?
    ensures Retains(IngestAll(r, os, ids, n - 1, configured, env).value,
                    IngestAll(r, os, ids, n, configured, env).value, os[n - 1], env.rules)
  {
    hide IngestStep, ConfiguredOk, ObservationOk, FreshIds, FreshId, Used, WithinLimit, Retains;
    PrefixOk(r, os, ids, n - 1, known, configured, env);
    OneRetains(IngestAll(r, os, ids, n - 1, configured, env).value, os[n - 1], ids[n - 1], configured, env);
  }

  /** Nothing observed is lost: at the end of a round every observation that was not dropped is
      shown by one of its entries, and every earlier entry is still shown or was evicted. */
  lemma {:induction false} RoundRetains(r: Round, os: seq<Observation>, ids: seq<Option<string>>, n: nat,
                                        known: set<string>, configured: map<string, seq<string>>, env: Env)
    requires BatchReady(r, os, ids, known, configured, env) && n <= |os| && Transitive(env.rules.fold)
    ensures var out := IngestAll(r, os, ids, n, configured, env);
            out.Some? ==>
              && |out.value.results| == n
              && (forall k :: 0 <= k < n && out.value.results[k].candidate.Some? ==>
                    Remembered(out.value, os[k], env.rules))
              && (forall id :: id in r.entries ==> Survives(out.value, id, r.entries[id], env.rules))
  {
    hide IngestStep, ConfiguredOk, ObservationOk, WithinLimit, FreshIds, Remembered, Survives, Retains, Transitive;
    RoundConserves(r, os, ids, n, known, configured, env);
    if n == 0 {
      NothingLost(r, env.rules);
    } else if IngestAll(r, os, ids, n, configured, env).Some? {
      RoundRetains(r, os, ids, n - 1, known, configured, env);
      PrefixRetains(r, os, ids, n, known, configured, env);
      var before := IngestAll(r, os, ids, n - 1, configured, env).value;
      var after := IngestAll(r, os, ids, n, configured, env).value;
      hide IngestAll, BatchReady;
      ResultsGrow(before, after, os[n - 1], env.rules);
      forall k | 0 <= k < n && after.results[k].candidate.Some?
        ensures Remembered(after, os[k], env.rules)
      {
        if k < n - 1 {
          StepRemembers(before, after, os[n - 1], os[k], env.rules);
        } else {
          StepRemembersOwn(before, after, os[n - 1], env.rules);
        }
      }
      forall id | id in r.entries
        ensures Survives(after, id, r.entries[id], env.rules)
      {
        StepKeeps(before, after, os[n - 1], id, r.entries[id], env.rules);
      }
    }
  }

  lemma ResultsGrow(before: Round, after: Round, o: Observation, rules: Rules)
    requires Retains(before, after, o, rules)
    ensures after.results != [] && after.results == before.results + [LastResult(after)]
  {}

  lemma NothingLost(r: Round, rules: Rules)
    ensures forall id :: id in r.entries ==> Survives(r, id, r.entries[id], rules)
  {
    forall id | id in r.entries
      ensures Survives(r, id, r.entries[id], rules)
    {
      ShowsItself(r.entries[id], rules);
    }
    hide Shows;
  }

  // ---------------------------------------------------------------------------------
  // Expiry.

  /** An entry expires exactly when expiry is on, nobody ignores it, and more than the
      time-to-live passed since it was last seen; the longest duration stands for no limit. */
  lemma ExpiredIffUnseen(s: Index, now: int, ttl: int, id: string)
    ensures id in ExpireChange(s, now, ttl).next.entries <==>
            id in s.entries &&
            (ttl < 0 || ttl >= 9_223_372_036_854_775_807 || s.entries[id].state == Ignored ||
             now <= s.entries[id].lastSeen + ttl)
    ensures id in ExpireChange(s, now, ttl).next.entries ==> ExpireChange(s, now, ttl).next.entries[id] == s.entries[id]
  {
    hide Departures;
  }

  /** After a whole discovery round, each observation that was not dropped is shown by an entry
      that cannot expire before the time-to-live has passed since the observation. */
  lemma SeenStaysFresh(s: Index, raw: seq<Observation>, ids: seq<Option<string>>, now: int, env: Env, k: nat,
                       later: int)
    requires env.Valid() && now != 0 && Inv(s, env) && |ids| == |raw| && FreshIds(ids, s.entries.Keys)
    requires Transitive(env.rules.fold) && k < |raw| && IngestChange(s, raw, ids, now, env).Some?
    ensures var r := IngestChange(s, raw, ids, now, env).value;
            && |r.results| == |raw|
            && (r.results[k].candidate.Some? ==>
                  var o := NormalizeAll(raw, now, env.rules)[k];
                  exists id :: id in r.entries && ShowsObservation(r.entries[id], o, env.rules) &&
                               (later <= o.observedAt + env.ttl ==> id !in Expired(r.entries, later, env.ttl)))
  {
    hide Lawful, ConfiguredOk, EntriesOk, FreshIds, AllNormalize, IngestAll, BatchReady, Transitive;
    hide ShowsObservation, Survives;
    var start, os := StartRound(s, now, env.ttl), NormalizeAll(raw, now, env.rules);
    var r := IngestChange(s, raw, ids, now, env).value;
    NormalizedBatchIsOk(raw, now, env.rules);
    RoundStarts(s, os, ids, s.entries.Keys, now, env);
    hide NormalizeAll;
    RoundRetains(start, os, ids, |raw|, s.entries.Keys, s.configured, env);
    if r.results[k].candidate.Some? {
      var id :| id in r.entries && id in r.touched && ShowsObservation(r.entries[id], os[k], env.rules);
      if later <= os[k].observedAt + env.ttl {
        ShownIsFresh(r.entries, id, os[k], env, later);
      }
    }
  }

  /** And every entry from before the round expired, was evicted, or is still shown by itself or
      by an entry the round produced. */
  lemma RoundLosesNothing(s: Index, raw: seq<Observation>, ids: seq<Option<string>>, now: int, env: Env, id: string)
    requires env.Valid() && now != 0 && Inv(s, env) && |ids| == |raw| && FreshIds(ids, s.entries.Keys)
    requires Transitive(env.rules.fold) && id in s.entries && IngestChange(s, raw, ids, now, env).Some?
    ensures id in Expired(s.entries, now, env.ttl) ||
            Survives(IngestChange(s, raw, ids, now, env).value, id, s.entries[id], env.rules)
  {
    hide Lawful, ConfiguredOk, EntriesOk, FreshIds, AllNormalize, IngestAll, BatchReady, Transitive;
    hide Remembered, Survives, Expired;
    var start, os := StartRound(s, now, env.ttl), NormalizeAll(raw, now, env.rules);
    NormalizedBatchIsOk(raw, now, env.rules);
    RoundStarts(s, os, ids, s.entries.Keys, now, env);
    RoundRetains(start, os, ids, |raw|, s.entries.Keys, s.configured, env);
    hide NormalizeAll;
    if id !in Expired(s.entries, now, env.ttl) {
      assert id in start.entries && start.entries[id] == s.entries[id];
    }
  }

  lemma ShownIsFresh(entries: map<string, Candidate>, id: string, o: Observation, env: Env, later: int)
    requires id in entries && ShowsObservation(entries[id], o, env.rules) && later <= o.observedAt + env.ttl
    ensures id !in Expired(entries, later, env.ttl)
  {}
}
