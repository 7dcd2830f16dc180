/** The promises of the inbox: conservation and permanence of Ignore for every batch;
    write-once identities, complete event cursors and reopening for every run. */
module InboxTheorems {
  import opened Shared
  import opened TextOrder
  import opened InboxData
  import opened InboxSteps
  import opened InboxInvariant
  import opened InboxIngest
  import opened InboxBatches
  import opened InboxOperations
  import opened InboxReopen
  import opened InboxRuns

  // ---------------------------------------------------------------------------------
  // Batches.

  /** Conservation. After a discovery round the entries are those before it, plus the created
      ones, less the expired, evicted and merged ones; the counters agree, the limit holds, and
      no later observation evicts what an earlier one of the same round produced. */
  lemma RoundIsConserved(s: Index, raw: seq<Observation>, ids: seq<Option<string>>, now: int, env: Env)
    requires env.Valid() && now != 0 && Inv(s, env) && |ids| == |raw| && FreshIds(ids, s.entries.Keys)
    ensures var out := IngestChange(s, raw, ids, now, env);
            out.Some? ==>
              var results := out.value.results;
              && |results| == |raw| && |out.value.entries| <= env.maxEntries
              && |out.value.entries| ==
                 |s.entries| + CreatedCount(results) - |Expired(s.entries, now, env.ttl)|
                 - EvictedCount(results) - MergedCount(results)
              && out.value.evicted == s.evicted + EvictedCount(results)
              && out.value.dropped == s.dropped + DroppedCount(results)
              && Spared(out.value)
  {
    hide Lawful, ConfiguredOk, EntriesOk, FreshIds, AllNormalize, Expired, IngestAll, BatchReady, Spared;
    if IngestChange(s, raw, ids, now, env).Some? {
      var start := StartRound(s, now, env.ttl);
      var os := NormalizeAll(raw, now, env.rules);
      NormalizedBatchIsOk(raw, now, env.rules);
      ExpiryKeeps(s.entries, now, env.ttl, s.configured, env);
      RoundStarts(s, os, ids, s.entries.Keys, now, env);
      RoundConserves(start, os, ids, |raw|, s.entries.Keys, s.configured, env);
      RoundSparesItsOwn(start, os, ids, |raw|, s.entries.Keys, s.configured, env);
      PrefixOk(start, os, ids, |raw|, s.entries.Keys, s.configured, env);
      hide Published, NormalizeAll;
    }
  }

  /** An operator's Ignore survives every discovery round: the entry is still there and
      ignored, or was folded into a surviving entry that is ignored. */
  lemma IgnoreSurvives(s: Index, raw: seq<Observation>, ids: seq<Option<string>>, now: int, env: Env, id: string)
    requires env.Valid() && now != 0 && Inv(s, env) && |ids| == |raw| && FreshIds(ids, s.entries.Keys)
    requires id in s.entries && s.entries[id].state == Ignored
    ensures var out := IngestChange(s, raw, ids, now, env);
            out.Some? ==> IgnoreHolds(id, out.value.entries, out.value.results)
  {
    hide Lawful, ConfiguredOk, EntriesOk, FreshIds, AllNormalize, IngestAll, BatchReady, IgnoreHolds;
    if IngestChange(s, raw, ids, now, env).Some? {
      var start := StartRound(s, now, env.ttl);
      var os := NormalizeAll(raw, now, env.rules);
      NormalizedBatchIsOk(raw, now, env.rules);
      RoundStarts(s, os, ids, s.entries.Keys, now, env);
      assert id in start.entries && start.entries[id] == s.entries[id];
      RoundKeepsIgnored(start, os, ids, |raw|, s.entries.Keys, s.configured, env, id);
    }
  }

  // ---------------------------------------------------------------------------------
  // Event cursors.

  lemma {:induction false} AfterIsSuffix(events: seq<Event>, n: nat, base: nat, cursor: nat)
    requires n <= |events| && Follows(events, base)
    ensures After(events[..n], cursor) == if cursor <= base then events[..n]
                                          else if cursor - base <= n then events[cursor - base..n] else []
  {
    if n > 0 {
      AfterIsSuffix(events, n - 1, base, cursor);
      assert events[..n][..n - 1] == events[..n - 1];
      assert events[..n] == events[..n - 1] + [events[n - 1]];
      assert base < cursor && cursor - base <= n - 1 ==>
               events[cursor - base..n] == events[cursor - base..n - 1] + [events[n - 1]];
    } else {
      assert events[..0] == [];
    }
  }

  /** Reading after a cursor either gives exactly the events cursor+1 to the latest one, in
      order, or asks for a reset; and it asks exactly when the next event is not retained. */
  lemma EventsSinceIsExact(s: Index, cursor: nat)
    requires Gapless(s.events, s.sequence)
    ensures var batch := EventsSince(s, cursor);
            && batch.latestSequence == s.sequence
            && (batch.resetRequired <==> cursor + |s.events| < s.sequence)
            && (!batch.resetRequired ==>
                  && |batch.events| == (if cursor < s.sequence then s.sequence - cursor else 0)
                  && batch.events == s.events[|s.events| - |batch.events|..]
                  && forall i :: 0 <= i < |batch.events| ==> batch.events[i].sequence == cursor + 1 + i)
  {
    AfterIsSuffix(s.events, |s.events|, s.sequence - |s.events|, cursor);
    assert s.events[..|s.events|] == s.events;
    hide After;
  }

  /** Over every run: what a cursor gets is the end of everything this process published, and
      a reset is asked for only when the cursor lies before this process or before the bounded
      window. */
  lemma CursorsAreComplete(states: seq<Life>, steps: seq<Step>, env: Env, n: nat, cursor: nat)
    requires env.Valid() && Run(states, steps, env) && n < |states|
    ensures var w := states[n];
            var batch := EventsSince(w.index, cursor);
            && (batch.resetRequired <==>
                  cursor + |w.published| < w.index.sequence || cursor + env.maxEvents < w.index.sequence)
            && (!batch.resetRequired ==>
                  |batch.events| <= |w.published| && batch.events == w.published[|w.published| - |batch.events|..])
            && (!batch.resetRequired && cursor <= w.index.sequence ==> |batch.events| == w.index.sequence - cursor)
  {
    var w := states[n];
    assert Inv(w.index, env) && Told(w, env) by {
      hide Lawful, Run, Inv, Told, Filed;
      RunKeepsOk(states, steps, env, n);
    }
    hide Run, Lawful, ContentOk;
    EventsSinceIsExact(w.index, cursor);
    hide EventsSince;
  }

  /** Event numbers never fall, even across crashes and restarts of a persistent inbox. */
  lemma {:induction false} SequenceNeverFalls(states: seq<Life>, steps: seq<Step>, env: Env, i: nat, j: nat)
    requires env.Valid() && env.persistent && Run(states, steps, env) && i <= j < |states|
    ensures states[i].index.sequence <= states[j].index.sequence
    decreases j
  {
    hide Lawful, LifeOk, Next, Possible;
    if i < j {
      SequenceNeverFalls(states, steps, env, i, j - 1);
      RunKeepsOk(states, steps, env, j - 1);
      NextNumbersOn(states[j - 1], steps[j - 1], env);
    }
  }

  lemma NextNumbersOn(w: Life, a: Step, env: Env)
    requires env.Valid() && env.persistent && LifeOk(w, env) && Possible(w, a, env)
    ensures w.index.sequence <= Next(w, a, env).index.sequence
  {
    hide Lawful, LifeOk, Faithful, ChangeOf, ChangeOk, Attempted, Reopen, FreshIds, Visits;
    ChangeIsOk(w, a, env);
    if a.Restart? {
      RestartShape(w, env);
      FileIsNotBehind(w, env);
    } else if ChangeOf(w, a, env).Some? {
      var change := ChangeOf(w, a, env).value;
      AttemptShape(w, change, a.save, w.known + NewIds(a), env);
      ChangeNumbersOn(w.index, change, env);
    }
  }

  lemma FileIsNotBehind(w: Life, env: Env)
    requires LifeOk(w, env) && env.persistent
    ensures w.index.sequence <= if w.stored.Some? then w.stored.value.sequence else 0
  {
    hide Inv, Told, ContentOk, KeysKept, DiskOf;
  }

  lemma ChangeNumbersOn(s: Index, change: Change, env: Env)
    ensures ChangeOk(s, change, env) ==> s.sequence <= change.next.sequence
  {
    hide ContentOk, Follows;
  }

  // ---------------------------------------------------------------------------------
  // Identity.

  /** Neither memory nor the file contradicts the given identities. */
  ghost predicate Respects(w: Life, entries: map<string, Candidate>) {
    && entries.Keys <= w.known && KeysKept(entries, w.index.entries)
    && (w.stored.Some? ==> KeysKept(entries, w.stored.value.entries))
  }

  lemma KeysChain(entries: map<string, Candidate>, before: map<string, Candidate>, after: map<string, Candidate>,
                  known: set<string>, drawn: set<string>)
    requires Faithful(before, after, known, drawn) && KeysKept(entries, before) && entries.Keys <= known
    ensures KeysKept(entries, after)
  {}

  lemma NextRespects(w: Life, a: Step, env: Env, entries: map<string, Candidate>)
    requires env.Valid() && LifeOk(w, env) && Possible(w, a, env) && Respects(w, entries)
    ensures Respects(Next(w, a, env), entries)
  {
    hide Lawful, LifeOk, Faithful, ChangeOf, ChangeOk, Attempted, Reopen, FreshIds, Visits, KeysKept;
    ChangeIsOk(w, a, env);
    if a.Restart? {
      RestartShape(w, env);
      NoEntriesKept(entries);
    } else if ChangeOf(w, a, env).Some? {
      var change := ChangeOf(w, a, env).value;
      AttemptShape(w, change, a.save, w.known + NewIds(a), env);
      KeysChain(entries, w.index.entries, change.next.entries, w.known, NewIds(a));
    }
  }

  lemma NoEntriesKept(entries: map<string, Candidate>)
    ensures KeysKept(entries, map[])
  {}

  lemma {:induction false} RunRespects(states: seq<Life>, steps: seq<Step>, env: Env, i: nat, j: nat)
    requires env.Valid() && Run(states, steps, env) && i <= j < |states|
    ensures Respects(states[j], states[i].index.entries)
    decreases j
  {
    hide Lawful, Next, Possible;
    RunKeepsOk(states, steps, env, i);
    hide Inv, Told;
    if i < j {
      hide Respects, LifeOk;
      RunRespects(states, steps, env, i, j - 1);
      RunKeepsOk(states, steps, env, j - 1);
      NextRespects(states[j - 1], steps[j - 1], env, states[i].index.entries);
    }
  }

  /** Identity. Over every run a candidate's key is written once and never changes, and no
      two candidates share one. */
  lemma IdentityIsWriteOnceAndUnique(states: seq<Life>, steps: seq<Step>, env: Env, i: nat, j: nat)
    requires env.Valid() && Run(states, steps, env) && i <= j < |states|
    ensures var before, after := states[i].index.entries, states[j].index.entries;
            && (forall id :: id in before && id in after && before[id].fingerprint != "" ==>
                  after[id].fingerprint == before[id].fingerprint)
            && (forall a, b :: a in after && b in after && a != b && after[a].fingerprint != "" ==>
                  after[a].fingerprint != after[b].fingerprint)
  {
    RunRespects(states, steps, env, i, j);
    assert Distinct(states[j].index.entries) by {
      RunKeepsOk(states, steps, env, j);
    }
    hide Run, Lawful;
  }

  // ---------------------------------------------------------------------------------
  // Reopening.

  predicate UndottedStep(a: Step) {
    a.Ingest? ==> forall k :: 0 <= k < |a.raw| ==> !DottedInput(a.raw[k])
  }

  ghost predicate LifeUndotted(w: Life) {
    AllUndotted(w.index.entries) && (w.stored.Some? ==> AllUndotted(w.stored.value.entries))
  }

  lemma IngestIsUndotted(s: Index, raw: seq<Observation>, ids: seq<Option<string>>, now: int, env: Env)
    requires env.Valid() && now != 0 && Inv(s, env) && |ids| == |raw| && FreshIds(ids, s.entries.Keys)
    requires AllUndotted(s.entries) && forall k :: 0 <= k < |raw| ==> !DottedInput(raw[k])
    ensures var out := IngestChange(s, raw, ids, now, env);
            out.Some? ==> AllUndotted(out.value.entries)
  {
    hide Lawful, ConfiguredOk, EntriesOk, FreshIds, IngestAll, BatchReady, DottedInput, NormalizeObservation, EndsInDot;
    if IngestChange(s, raw, ids, now, env).Some? {
      var start := StartRound(s, now, env.ttl);
      var os := NormalizeAll(raw, now, env.rules);
      NormalizedBatchIsOk(raw, now, env.rules);
      RoundStarts(s, os, ids, s.entries.Keys, now, env);
      forall k | 0 <= k < |os|
        ensures !EndsInDot(os[k].hostname)
      {
        DottedInputs(raw[k], now, env.rules);
      }
      RoundKeepsUndotted(start, os, ids, |raw|, s.entries.Keys, s.configured, env);
    }
  }

  lemma ReviewKeepsUndotted(entries: map<string, Candidate>, id: string, d: Decision, now: int)
    requires AllUndotted(entries) && id in entries && entries[id].id == id && Decide(entries[id], d, now).Some?
    ensures AllUndotted(entries[id := Decide(entries[id], d, now).value])
  {
    hide EndsInDot;
  }

  lemma ReconfigurationKeepsUndotted(entries: map<string, Candidate>, next: map<string, seq<string>>)
    requires AllUndotted(entries)
    ensures AllUndotted(ReconfiguredAll(entries, next))
  {
    hide EndsInDot, NamesFor;
  }

  lemma ExpiryKeepsUndotted(entries: map<string, Candidate>, gone: set<string>)
    requires AllUndotted(entries)
    ensures AllUndotted(entries - gone)
  {
    hide Undotted;
  }

  /** Decisions, reconfigurations and expiry bring in no host names. */
  lemma QuietChangeIsUndotted(w: Life, a: Step, env: Env)
    requires LifeOk(w, env) && Possible(w, a, env) && !a.Ingest? && AllUndotted(w.index.entries)
    ensures var out := ChangeOf(w, a, env);
            out.Some? ==> AllUndotted(out.value.next.entries)
  {
    hide Inv, Told, Filed, AllUndotted, Decide, Described, ReconfiguredAll, ConfigurationEvents, Expired, Departures;
    hide Ascending, Reopen, Visits;
    match a
    case Review(id, d, now, save) =>
      KeyedByThemselves(w.index, env);
      if ReviewChange(w.index, id, d, now).Some? {
        ReviewKeepsUndotted(w.index.entries, id, d, now);
      }
    case Configure(items, order, now, save) =>
      if Described(items, env.rules).Some? {
        ReconfigurationKeepsUndotted(w.index.entries, Described(items, env.rules).value);
      }
    case Expire(now, save) => ExpiryKeepsUndotted(w.index.entries, Expired(w.index.entries, now, env.ttl));
    case _ =>
  }

  lemma ChangeIsUndotted(w: Life, a: Step, env: Env)
    requires env.Valid() && LifeOk(w, env) && Possible(w, a, env) && UndottedStep(a) && AllUndotted(w.index.entries)
    ensures var out := ChangeOf(w, a, env);
            out.Some? ==> AllUndotted(out.value.next.entries)
  {
    hide Lawful, LifeOk, AllUndotted, FreshIds, IngestChange, DottedInput, Reopen;
    if a.Ingest? {
      DrawnIsNew(a.ids, w.known);
      LifeIsInv(w, env);
      IngestIsUndotted(w.index, a.raw, a.ids, a.now, env);
    } else {
      QuietChangeIsUndotted(w, a, env);
    }
  }

  lemma LifeIsInv(w: Life, env: Env)
    requires LifeOk(w, env)
    ensures Inv(w.index, env) && w.index.entries.Keys <= w.known
  {
    hide Inv, Told, Filed;
  }

  lemma NextIsUndotted(w: Life, a: Step, env: Env)
    requires env.Valid() && LifeOk(w, env) && Possible(w, a, env) && UndottedStep(a) && LifeUndotted(w)
    ensures LifeUndotted(Next(w, a, env))
  {
    hide Lawful, LifeOk, ChangeOf, Attempted, Reopen, FreshIds, Visits, UndottedStep;
    ChangeIsUndotted(w, a, env);
    if a.Restart? {
      RestartShape(w, env);
    } else if ChangeOf(w, a, env).Some? {
      AttemptShape(w, ChangeOf(w, a, env).value, a.save, w.known + NewIds(a), env);
    }
  }

  lemma {:induction false} RunIsUndotted(states: seq<Life>, steps: seq<Step>, env: Env, n: nat)
    requires env.Valid() && Run(states, steps, env) && n < |states| &&
             forall k :: 0 <= k < |steps| ==> UndottedStep(steps[k])
    ensures LifeUndotted(states[n])
  {
    hide Lawful, LifeOk, Next, Possible, UndottedStep;
    if n > 0 {
      hide LifeUndotted;
      RunIsUndotted(states, steps, env, n - 1);
      RunKeepsOk(states, steps, env, n - 1);
      NextIsUndotted(states[n - 1], steps[n - 1], env);
    }
  }

  /** Reopening. In every run, at every point, a file written from entries without dotted
      names can be reopened, and one written from entries with one cannot. When no observation
      of the run has a name that stays dotted, the inbox can therefore always be restarted. */
  lemma RunCanRestart(states: seq<Life>, steps: seq<Step>, env: Env, n: nat)
    requires env.Valid() && Run(states, steps, env) && n < |states|
    ensures states[n].stored.Some? ==>
              (Possible(states[n], Restart, env) <==> AllUndotted(states[n].stored.value.entries))
    ensures (forall k :: 0 <= k < |steps| ==> UndottedStep(steps[k])) ==> Possible(states[n], Restart, env)
  {
    var w := states[n];
    hide Lawful, UndottedStep, Told, Inv, ContentOk, DiskOf, KeysKept, AllUndotted;
    RunKeepsOk(states, steps, env, n);
    if forall k :: 0 <= k < |steps| ==> UndottedStep(steps[k]) {
      RunIsUndotted(states, steps, env, n);
    }
    hide Run;
    if w.stored.Some? {
      hide Reopen;
      ReopenIffUndotted(w.stored.value, env);
    }
  }
}
