/** A whole discovery round: conservation of entries, permanence of Ignore, write-once
    identities and gap-free events over every batch of observations. */
module InboxBatches {
  import opened Shared
  import opened InboxData
  import opened InboxSteps
  import opened InboxInvariant
  import opened InboxIngest

  /** Identifiers are drawn at random; they are valid, new, and differ from one another. */
  ghost predicate FreshIds(ids: seq<Option<string>>, known: set<string>) {
    && (forall k :: 0 <= k < |ids| && ids[k].Some? ==> ValidId(ids[k].value) && ids[k].value !in known)
    && (forall j, k :: 0 <= j < k < |ids| && ids[j].Some? ==> ids[j] != ids[k])
  }

  function Used(ids: seq<Option<string>>, n: nat): set<string>
    requires n <= |ids|
  {
    set k | 0 <= k < n && ids[k].Some? :: ids[k].value
  }

  lemma FreshNext(ids: seq<Option<string>>, n: nat, known: set<string>)
    requires FreshIds(ids, known) && n < |ids|
    ensures ids[n].Some? ==> ValidId(ids[n].value) && ids[n].value !in known + Used(ids, n)
    ensures Used(ids, n + 1) == Used(ids, n) + (if ids[n].Some? then {ids[n].value} else {})
  {
    hide ValidId;
  }

  /** What one observation of a batch did. */
  ghost predicate StepDone(before: Round, after: Round, o: Observation, newId: Option<string>, env: Env) {
    && after.results != [] && after.results == before.results + [LastResult(after)]
    && Accounted(before.entries, after.entries, LastResult(after))
    && Kept(before.entries, after.entries, LastResult(after))
    && Identified(after.entries, o, LastResult(after), env.rules)
    && Counted(before, after, LastResult(after))
    && Justified(before, LastResult(after), newId, env)
  }

  /** New entries take the new identifier; only a full inbox evicts, and then the victim; a
      drop means that nothing could be evicted. */
  ghost predicate Justified(before: Round, res: IngestResult, newId: Option<string>, env: Env) {
    && (res.created ==> res.candidate.Some? && newId == Some(res.candidate.value.id))
    && (res.dropped.Some? ==>
          |before.entries| >= env.maxEntries && forall id :: !Evictable(before.entries, before.touched, id))
    && (res.evictedIds != [] ==>
          |before.entries| >= env.maxEntries && IsVictim(before.entries, before.touched, res.evictedIds[0]))
  }

  predicate WithinLimit(entries: map<string, Candidate>, configured: map<string, seq<string>>, env: Env) {
    EntriesOk(entries, configured, env.rules) && |entries| <= env.maxEntries
  }

  lemma OneObservation(r: Round, o: Observation, newId: Option<string>, configured: map<string, seq<string>>, env: Env)
    requires env.maxEntries > 0 && ConfiguredOk(configured, env.rules) && WithinLimit(r.entries, configured, env)
    requires ObservationOk(o, env.rules) && FreshId(newId, r.entries)
    ensures var out := IngestStep(r, o, newId, configured, env);
            out.Some? ==> StepDone(r, out.value, o, newId, env) && WithinLimit(out.value.entries, configured, env)
  {
    hide IngestStep, ConfiguredOk, EntriesOk, ObservationOk, FreshId, Evictable, IsVictim, Accounted, Kept, Identified;
    hide Counted;
    IngestKeepsOk(r, o, newId, configured, env);
    IngestAccounts(r, o, newId, configured, env);
    IngestKeeps(r, o, newId, configured, env);
    IngestIdentifies(r, o, newId, configured, env);
    IngestCounts(r, o, newId, configured, env);
    var out := IngestStep(r, o, newId, configured, env);
    if out.Some? {
      assert out.value.results == r.results + [LastResult(out.value)];
    }
  }

  lemma KeysAfter(before: Round, after: Round, o: Observation, newId: Option<string>, env: Env)
    requires StepDone(before, after, o, newId, env)
    ensures after.entries.Keys <= before.entries.Keys + (if newId.Some? then {newId.value} else {})
  {
    hide Kept, Identified, Counted, Evictable, IsVictim;
  }

  ghost predicate BatchReady(r: Round, os: seq<Observation>, ids: seq<Option<string>>, known: set<string>,
                             configured: map<string, seq<string>>, env: Env) {
    && env.maxEntries > 0 && ConfiguredOk(configured, env.rules)
    && WithinLimit(r.entries, configured, env) && r.entries.Keys <= known
    && r.results == [] && |os| == |ids| && FreshIds(ids, known)
    && forall k :: 0 <= k < |os| ==> ObservationOk(os[k], env.rules)
  }

  /** The state between two observations of a batch. */
  lemma {:induction false} PrefixOk(r: Round, os: seq<Observation>, ids: seq<Option<string>>, n: nat,
                                    known: set<string>,
                                    configured: map<string, seq<string>>, env: Env)
    requires BatchReady(r, os, ids, known, configured, env) && n <= |os|
    ensures var out := IngestAll(r, os, ids, n, configured, env);
            out.Some? ==>
              && WithinLimit(out.value.entries, configured, env)
              && out.value.entries.Keys <= known + Used(ids, n)
              && (n < |ids| ==> FreshId(ids[n], out.value.entries))
  {
    hide IngestStep, ConfiguredOk, ObservationOk, FreshIds, Used, WithinLimit, StepDone, ValidId;
    if n < |ids| {
      FreshNext(ids, n, known);
    }
    if n > 0 {
      PrefixOk(r, os, ids, n - 1, known, configured, env);
      var before := IngestAll(r, os, ids, n - 1, configured, env);
      if before.Some? && IngestAll(r, os, ids, n, configured, env).Some? {
        OneObservation(before.value, os[n - 1], ids[n - 1], configured, env);
        FreshNext(ids, n - 1, known);
        KeysAfter(before.value, IngestAll(r, os, ids, n, configured, env).value, os[n - 1], ids[n - 1], env);
      }
    }
  }

  lemma StepFacts(r: Round, os: seq<Observation>, ids: seq<Option<string>>, n: nat, known: set<string>,
                  configured: map<string, seq<string>>, env: Env)
    requires BatchReady(r, os, ids, known, configured, env) && 0 < n <= |os|
    requires IngestAll(r, os, ids, n, configured, env).Some?
    ensures IngestAll(r, os, ids, n - 1, configured, env).Some?
    ensures StepDone(IngestAll(r, os, ids, n - 1, configured, env).value,
                     IngestAll(r, os, ids, n, configured, env).value, os[n - 1], ids[n - 1], env)
  {
    hide IngestStep, ConfiguredOk, ObservationOk, FreshIds, FreshId, Used, WithinLimit, StepDone;
    PrefixOk(r, os, ids, n - 1, known, configured, env);
    OneObservation(IngestAll(r, os, ids, n - 1, configured, env).value, os[n - 1], ids[n - 1], configured, env);
  }

  // ---------------------------------------------------------------------------------
  // Conservation.

  function CreatedCount(results: seq<IngestResult>): nat {
    if results == [] then 0
    else CreatedCount(results[..|results| - 1]) + (if results[|results| - 1].created then 1 else 0)
  }

  function EvictedCount(results: seq<IngestResult>): nat {
    if results == [] then 0 else EvictedCount(results[..|results| - 1]) + |results[|results| - 1].evictedIds|
  }

  function MergedCount(results: seq<IngestResult>): nat {
    if results == [] then 0 else MergedCount(results[..|results| - 1]) + |results[|results| - 1].mergedIds|
  }

  function DroppedCount(results: seq<IngestResult>): nat {
    if results == [] then 0
    else DroppedCount(results[..|results| - 1]) + (if results[|results| - 1].dropped.Some? then 1 else 0)
  }

  /** The books balance after a prefix of a round. */
  predicate Balanced(r: Round, r': Round) {
    && |r'.entries| == |r.entries| + CreatedCount(r'.results) - EvictedCount(r'.results) - MergedCount(r'.results)
    && r'.evicted == r.evicted + EvictedCount(r'.results)
    && r'.dropped == r.dropped + DroppedCount(r'.results)
    && Published(r, r')
  }

  lemma StepResults(before: Round, after: Round, o: Observation, newId: Option<string>, env: Env)
    requires StepDone(before, after, o, newId, env)
    ensures after.results != [] && after.results == before.results + [LastResult(after)]
  {
    hide Accounted, Kept, Identified, Counted, Justified;
  }

  lemma StepBalances(r: Round, before: Round, after: Round, o: Observation, newId: Option<string>, env: Env)
    requires StepDone(before, after, o, newId, env) && Balanced(r, before)
    ensures Balanced(r, after)
  {
    hide Kept, Identified, Justified, Published;
    assert after.results[..|after.results| - 1] == before.results;
    SizeAfter(before.entries, after.entries, LastResult(after));
    PublishedOnward(r, before, after);
    hide Accounted;
  }

  lemma {:induction false} RoundConserves(r: Round, os: seq<Observation>, ids: seq<Option<string>>, n: nat,
                                          known: set<string>,
                                          configured: map<string, seq<string>>, env: Env)
    requires BatchReady(r, os, ids, known, configured, env) && n <= |os|
    ensures var out := IngestAll(r, os, ids, n, configured, env);
            out.Some? ==> |out.value.results| == n && Balanced(r, out.value)
  {
    hide IngestStep, ConfiguredOk, ObservationOk, WithinLimit, FreshIds, StepDone;
    if n > 0 && IngestAll(r, os, ids, n, configured, env).Some? {
      RoundConserves(r, os, ids, n - 1, known, configured, env);
      StepFacts(r, os, ids, n, known, configured, env);
      var before := IngestAll(r, os, ids, n - 1, configured, env).value;
      var after := IngestAll(r, os, ids, n, configured, env).value;
      assert after.results == before.results + [LastResult(after)] by {
        StepResults(before, after, os[n - 1], ids[n - 1], env);
      }
      hide BatchReady, IngestAll, Balanced;
      StepBalances(r, before, after, os[n - 1], ids[n - 1], env);
    } else {
      PublishedOnward(r, r, r);
    }
  }

  // ---------------------------------------------------------------------------------
  // Ignore, identity, and the round's own candidates.

  /** An ignored entry is still there and ignored, or was folded into a surviving ignored
      entry with a key. */
  ghost predicate IgnoreHolds(id: string, entries: map<string, Candidate>, results: seq<IngestResult>) {
    || (id in entries && entries[id].state == Ignored)
    || exists k :: 0 <= k < |results| && FoldedInto(id, results[k], entries)
  }

  predicate FoldedInto(id: string, res: IngestResult, entries: map<string, Candidate>) {
    id in res.mergedIds && res.candidate.Some? &&
    (var t := res.candidate.value.id; t in entries && entries[t].state == Ignored && entries[t].fingerprint != "")
  }

  /** An ignored entry with a key outlives every observation. */
  lemma IgnoredKeyStays(before: map<string, Candidate>, after: map<string, Candidate>, res: IngestResult, id: string)
    requires Accounted(before, after, res) && Kept(before, after, res)
    requires id in before && before[id].state == Ignored && before[id].fingerprint != ""
    ensures id in after && after[id].state == Ignored && after[id].fingerprint == before[id].fingerprint
  {}

  lemma IgnoreHoldsStep(id: string, before: Round, after: Round, o: Observation, newId: Option<string>, env: Env)
    requires StepDone(before, after, o, newId, env) && IgnoreHolds(id, before.entries, before.results)
    ensures IgnoreHolds(id, after.entries, after.results)
  {
    var res := LastResult(after);
    hide Identified, Counted;
    if id in before.entries && before.entries[id].state == Ignored {
      if id !in after.entries {
        assert id in res.mergedIds;
        assert FoldedInto(id, after.results[|before.results|], after.entries);
      }
    } else {
      var k :| 0 <= k < |before.results| && FoldedInto(id, before.results[k], before.entries);
      IgnoredKeyStays(before.entries, after.entries, res, before.results[k].candidate.value.id);
      assert FoldedInto(id, after.results[k], after.entries);
    }
  }

  /** An operator's Ignore survives any number of observations. */
  lemma {:induction false} RoundKeepsIgnored(r: Round, os: seq<Observation>, ids: seq<Option<string>>, n: nat,
                                             known: set<string>,
                                             configured: map<string, seq<string>>, env: Env, id: string)
    requires BatchReady(r, os, ids, known, configured, env) && n <= |os|
    requires id in r.entries && r.entries[id].state == Ignored
    ensures var out := IngestAll(r, os, ids, n, configured, env);
            out.Some? ==> IgnoreHolds(id, out.value.entries, out.value.results)
  {
    hide IngestStep, ConfiguredOk, ObservationOk, WithinLimit, FreshIds, StepDone;
    if n > 0 && IngestAll(r, os, ids, n, configured, env).Some? {
      StepFacts(r, os, ids, n, known, configured, env);
      RoundKeepsIgnored(r, os, ids, n - 1, known, configured, env, id);
      hide IngestAll, BatchReady, StepDone, IgnoreHolds;
      IgnoreHoldsStep(id, IngestAll(r, os, ids, n - 1, configured, env).value,
                      IngestAll(r, os, ids, n, configured, env).value, os[n - 1], ids[n - 1], env);
    }
  }

  /** Keys are written once. */
  predicate KeysKept(before: map<string, Candidate>, after: map<string, Candidate>) {
    forall id :: id in before && id in after && before[id].fingerprint != "" ==>
                   after[id].fingerprint == before[id].fingerprint
  }

  lemma {:induction false} RoundKeepsKeys(r: Round, os: seq<Observation>, ids: seq<Option<string>>, n: nat,
                                          known: set<string>,
                                          configured: map<string, seq<string>>, env: Env)
    requires BatchReady(r, os, ids, known, configured, env) && n <= |os|
    ensures var out := IngestAll(r, os, ids, n, configured, env);
            out.Some? ==> KeysKept(r.entries, out.value.entries)
  {
    hide IngestStep, ConfiguredOk, ObservationOk, WithinLimit, FreshIds, StepDone;
    if n > 0 && IngestAll(r, os, ids, n, configured, env).Some? {
      StepFacts(r, os, ids, n, known, configured, env);
      RoundKeepsKeys(r, os, ids, n - 1, known, configured, env);
      FreshNext(ids, n - 1, known);
      hide IngestAll;
      StepKeepsKeys(r.entries, IngestAll(r, os, ids, n - 1, configured, env).value,
                    IngestAll(r, os, ids, n, configured, env).value, os[n - 1], ids[n - 1], env);
    }
  }

  lemma StepKeepsKeys(start: map<string, Candidate>, before: Round, after: Round, o: Observation, newId: Option<string>,
                      env: Env)
    requires StepDone(before, after, o, newId, env) && KeysKept(start, before.entries)
    requires (newId.Some? ==> newId.value !in start)
    ensures KeysKept(start, after.entries)
  {
    KeysAfter(before, after, o, newId, env);
    hide Identified, Counted, Justified, Accounted;
  }

  /** The round remembers what it produced, and evicts none of it. */
  predicate Spared(r: Round) {
    && (forall k :: 0 <= k < |r.results| && r.results[k].candidate.Some? ==>
          r.results[k].candidate.value.id in r.touched)
    && (forall j, k :: 0 <= j < k < |r.results| && r.results[j].candidate.Some? ==>
          r.results[j].candidate.value.id !in r.results[k].evictedIds)
  }

  lemma StepTouches(before: Round, after: Round, o: Observation, newId: Option<string>, env: Env)
    requires StepDone(before, after, o, newId, env)
    ensures var res := LastResult(after);
            && after.results == before.results + [res] && before.touched <= after.touched
            && (res.candidate.Some? ==> res.candidate.value.id in after.touched)
            && (forall id :: id in before.touched ==> id !in res.evictedIds)
  {
    hide Identified, Kept, Evictable, IsVictim, Pinned, Published;
    var res := LastResult(after);
    assert |res.evictedIds| <= 1 by {
      hide Counted;
    }
    hide Accounted;
    if res.evictedIds != [] {
      VictimPresent(before.entries, before.touched, res.evictedIds[0]);
    }
  }

  lemma StepSpares(before: Round, after: Round)
    requires Spared(before) && after.results != [] && after.results == before.results + [LastResult(after)]
    requires before.touched <= after.touched
    requires LastResult(after).candidate.Some? ==> LastResult(after).candidate.value.id in after.touched
    requires forall id :: id in before.touched ==> id !in LastResult(after).evictedIds
    ensures Spared(after)
  {}

  lemma {:induction false} RoundSparesItsOwn(r: Round, os: seq<Observation>, ids: seq<Option<string>>, n: nat,
                                             known: set<string>,
                                             configured: map<string, seq<string>>, env: Env)
    requires BatchReady(r, os, ids, known, configured, env) && n <= |os|
    ensures var out := IngestAll(r, os, ids, n, configured, env);
            out.Some? ==> Spared(out.value)
  {
    hide IngestStep, ConfiguredOk, ObservationOk, WithinLimit, FreshIds, StepDone;
    if n > 0 && IngestAll(r, os, ids, n, configured, env).Some? {
      StepFacts(r, os, ids, n, known, configured, env);
      RoundSparesItsOwn(r, os, ids, n - 1, known, configured, env);
      var before := IngestAll(r, os, ids, n - 1, configured, env).value;
      var after := IngestAll(r, os, ids, n, configured, env).value;
      StepTouches(before, after, os[n - 1], ids[n - 1], env);
      assert after.results != [];
      hide IngestAll, BatchReady, StepDone, Spared;
      StepSpares(before, after);
    }
  }

  lemma {:induction false} RoundKeepsUndotted(r: Round, os: seq<Observation>, ids: seq<Option<string>>, n: nat,
                                              known: set<string>,
                                              configured: map<string, seq<string>>, env: Env)
    requires BatchReady(r, os, ids, known, configured, env) && n <= |os|
    requires AllUndotted(r.entries) && forall k :: 0 <= k < |os| ==> !EndsInDot(os[k].hostname)
    ensures var out := IngestAll(r, os, ids, n, configured, env);
            out.Some? ==> AllUndotted(out.value.entries)
  {
    hide IngestStep, ConfiguredOk, EntriesOk, ObservationOk, FreshIds, StepDone;
    if n > 0 && IngestAll(r, os, ids, n, configured, env).Some? {
      PrefixOk(r, os, ids, n - 1, known, configured, env);
      RoundKeepsUndotted(r, os, ids, n - 1, known, configured, env);
      IngestKeepsUndotted(IngestAll(r, os, ids, n - 1, configured, env).value, os[n - 1], ids[n - 1], configured, env);
      hide FreshId, AllUndotted;
    }
  }
}
