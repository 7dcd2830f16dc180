/** The inbox object: its fields are changed in place, statement by statement as the source
    does, and every method is proved to take exactly the specified step. */
module Inbox {
  import opened Shared
  import opened TextOrder
  import opened InboxData
  import opened InboxSteps
  import opened InboxInvariant
  import opened InboxIngest
  import opened InboxBatches
  import opened InboxOperations
  import opened InboxEntries

  class CandidateInbox {
    const env: Env
    var entries: map<string, Candidate>
    var configured: map<string, seq<string>>
    var sequence: nat
    var dropped: nat
    var evicted: nat
    var events: seq<Event>
    var file: Option<Disk>

    function View(): Index
      reads this
    {
      Index(entries, configured, sequence, dropped, evicted, events, file)
    }

    /** The fields as a batch in progress sees them. */
    function InRound(pending: seq<Event>, touched: set<string>, results: seq<IngestResult>): Round
      reads this
    {
      Round(entries, sequence, dropped, evicted, pending, touched, results)
    }

    constructor (options: Env)
      ensures View() == EMPTY_INDEX && env == WithDefaults(options)
    {
      env := WithDefaults(options);
      entries, configured, events := map[], map[], [];
      sequence, dropped, evicted, file := 0, 0, 0, None;
    }

    method MakeEvent(at: int, kind: EventKind, candidate: Option<Candidate>, id: string, merged: seq<string>)
      returns (event: Event)
      modifies this`sequence
      ensures sequence == old(sequence) + 1
      ensures event == Event(sequence, at, kind, candidate, id, merged)
    {
      sequence := sequence + 1;
      event := Event(sequence, at, kind, candidate, id, merged);
    }

    method AppendEvents(more: seq<Event>)
      requires env.maxEvents > 0
      modifies this`events
      ensures events == Latest(old(events) + more, env.maxEvents)
    {
      events := events + more;
      if |events| > env.maxEvents {
        events := events[|events| - env.maxEvents..];
      }
    }

    /** Writes the whole inbox, sorted; the write may fail before or after it took effect. */
    method Save(save: SaveOutcome) returns (ok: bool)
      modifies this`file
      ensures ok == Succeeds(save, env)
      ensures file == if env.persistent && save != FailedKeptOld then Some(DiskOf(old(View()))) else old(file)
    {
      if !env.persistent {
        return true;
      }
      var items := ListConfigured(configured);
      var candidates := ListCandidates(entries);
      if save != FailedKeptOld {
        file := Some(Disk(sequence, items, candidates));
      }
      ok := save == Saved;
    }

    /** The end of an operation whose changes are already in the fields: save, then publish.
        When the save fails the caller restores its fields. */
    method SaveAndPublish(pending: seq<Event>, save: SaveOutcome, ghost before: Index) returns (ok: bool)
      requires env.maxEvents > 0 && before.events == events && before.file == file
      modifies this`events, this`file
      ensures var after := Commit(before, Change(old(View()), pending), save, env);
              && ok == Succeeds(save, env)
              && View() == (if ok then after else old(View()).(file := after.file))
              && (!ok ==> after == before.(file := after.file))
    {
      hide DiskOf, Latest;
      ok := Save(save);
      if ok {
        AppendEvents(pending);
      }
    }

    /** Settles an observation at a candidate: key, text, names, aliases, event. */
    method SettleAt(c: Candidate, o: Observation, ghost all: set<string>, matches: seq<string>, created: bool,
                    evictedIds: seq<string>, ghost r: Round)
      returns (res: IngestResult, event: Event)
      requires matches == Ascending(all) && r == InRound(r.pending, r.touched, r.results)
      modifies this`entries, this`sequence
      ensures Settle(r, c, o, all, created, evictedIds, configured, env.rules) ==
              InRound(r.pending + [event], r.touched + {c.id}, r.results + [res])
    {
      var candidate := AbsorbInto(c, o, configured, env.rules);
      hide Absorb, FoldIn, Ascending;
      var left := entries;
      var merged: seq<string> := [];
      ghost var aliases := Aliases(entries, all, candidate);
      NoneAscend();
      if candidate.fingerprint != "" {
        candidate, merged, left := FoldAliases(left, candidate, all, matches, env.rules);
      } else {
        NothingFolded(candidate, left, env.rules);
      }
      assert left == entries - aliases;
      var kind := WasUpdated;
      if created {
        kind := WasDiscovered;
      } else if |merged| > 0 {
        kind := WasMerged;
      }
      entries := left[c.id := candidate];
      event := MakeEvent(o.observedAt, kind, Some(candidate), candidate.id, merged);
      res := IngestResult(Some(candidate), created, None, evictedIds, merged);
    }

    /** Evicts until there is room. The limit holds between operations, so this evicts at
        most once, and a drop never loses the event of an eviction. */
    method MakeRoom(at: int, touched: set<string>, ghost r: Round)
      returns (roomy: bool, evictedIds: seq<string>, more: seq<Event>)
      requires env.maxEntries > 0 && |entries| <= env.maxEntries && forall id :: id in entries ==> entries[id].id == id
      requires r == InRound(r.pending, touched, r.results)
      modifies this`entries, this`sequence, this`evicted
      ensures roomy <==> |r.entries| < env.maxEntries || Victim(r.entries, touched).Some?
      ensures !roomy || |r.entries| < env.maxEntries ==>
                evictedIds == [] && more == [] && r == InRound(r.pending, touched, r.results)
      ensures roomy && |r.entries| >= env.maxEntries ==>
                && evictedIds == [Victim(r.entries, touched).value]
                && Evicted(r, evictedIds[0], at) == InRound(r.pending + more, touched, r.results)
    {
      evictedIds, more := [], [];
      VictimFacts(r.entries, touched);
      while |entries| >= env.maxEntries
        invariant evictedIds == [] || |entries| < env.maxEntries
        invariant evictedIds == [] ==> more == [] && r == InRound(r.pending, touched, r.results)
        invariant evictedIds != [] ==>
                    && |r.entries| >= env.maxEntries && Victim(r.entries, touched).Some?
                    && evictedIds == [Victim(r.entries, touched).value]
                    && Evicted(r, evictedIds[0], at) == InRound(r.pending + more, touched, r.results)
        decreases |entries|
      {
        var victim := EvictionTarget(entries, touched);
        if victim.None? {
          return false, [], [];
        }
        VictimPresent(entries, touched, victim.value);
        entries := entries - {victim.value};
        assert entries.Keys == r.entries.Keys - {victim.value} && |entries| == |entries.Keys| &&
               |r.entries| == |r.entries.Keys|;
        evicted := evicted + 1;
        evictedIds := evictedIds + [victim.value];
        var event := MakeEvent(at, WasEvicted, None, victim.value, []);
        more := more + [event];
      }
      roomy := true;
    }

    /** No entry was chosen: a new one is created, if there is room for it. */
    method CreateEntry(o: Observation, newId: Option<string>, ghost all: set<string>, matches: seq<string>,
                       touched: set<string>, ghost r: Round)
      returns (ok: bool, res: IngestResult, more: seq<Event>, touching: set<string>)
      requires env.maxEntries > 0 && |entries| <= env.maxEntries && forall id :: id in entries ==> entries[id].id == id
      requires r == InRound(r.pending, touched, r.results)
      requires all == Matches(entries, o, env.rules) && matches == Ascending(all) && Chosen(entries, o, env.rules).None?
      modifies this`entries, this`sequence, this`dropped, this`evicted
      ensures var out := IngestStep(r, o, newId, configured, env);
              ok == out.Some? && (ok ==> out.value == InRound(r.pending + more, touching, r.results + [res]))
    {
      hide Matches, Chosen, Ascending, Settle, Victim;
      res, touching := IngestResult(None, false, None, [], []), touched;
      var roomy, evictedIds;
      roomy, evictedIds, more := MakeRoom(o.observedAt, touched, r);
      if !roomy {
        dropped := dropped + 1;
        var event := MakeEvent(o.observedAt, WasDropped, None, "", []);
        return true, IngestResult(None, false, Some(o), [], []), [event], touched;
      }
      if newId.None? {
        return false, res, more, touching;
      }
      ghost var base := InRound(r.pending + more, touched, r.results);
      if evictedIds == [] {
        assert base == r;
        NewStep(r, o, newId, configured, env);
      } else {
        EvictingStep(r, o, newId, configured, env);
      }
      hide IngestStep;
      var c := NewCandidate(newId.value, o.observedAt);
      var event;
      res, event := SettleAt(c, o, all, matches, true, evictedIds, base);
      more := more + [event];
      touching := touched + {c.id};
      ok := true;
    }

    /** One normalised observation of a batch in progress. */
    method IngestLocked(o: Observation, newId: Option<string>, touched: set<string>, ghost r: Round)
      returns (ok: bool, res: IngestResult, more: seq<Event>, touching: set<string>)
      requires env.maxEntries > 0 && |entries| <= env.maxEntries && forall id :: id in entries ==> entries[id].id == id
      requires r == InRound(r.pending, touched, r.results)
      modifies this`entries, this`sequence, this`dropped, this`evicted
      ensures var out := IngestStep(r, o, newId, configured, env);
              ok == out.Some? && (ok ==> out.value == InRound(r.pending + more, touching, r.results + [res]))
    {
      ghost var all := Matches(entries, o, env.rules);
      var matches := MatchingIds(entries, o, env.rules);
      var chosen := ChooseMatch(entries, o, matches, env.rules);
      ChosenIsEntry(entries, o, env.rules);
      if chosen.Some? {
        KnownStep(r, o, newId, configured, env);
        hide Matches, Chosen, Ascending, Settle, IngestStep;
        var event;
        res, event := SettleAt(entries[chosen.value], o, all, matches, false, [], r);
        return true, res, [event], touched + {chosen.value};
      }
      hide IngestStep;
      ok, res, more, touching := CreateEntry(o, newId, all, matches, touched, r);
    }

    method ExpireLocked(now: int) returns (ids: seq<string>, pending: seq<Event>)
      modifies this`entries, this`sequence
      ensures var gone := Expired(old(entries), now, env.ttl);
              && ids == Ascending(gone) && entries == old(entries) - gone && sequence == old(sequence) + |gone|
              && pending == Departures(ids, old(sequence), now)
    {
      ids := Overdue(entries, now, env.ttl);
      ListedAsSet(Expired(entries, now, env.ttl));
      ghost var gone := Expired(entries, now, env.ttl);
      assert (set id | id in ids) == gone;
      hide Ascending, Expired;
      entries := entries - (set id | id in ids);
      pending := [];
      for i := 0 to |ids|
        invariant sequence == old(sequence) + i && |pending| == i
        invariant pending == Departures(ids, old(sequence), now)[..i]
        invariant entries == old(entries) - gone
      {
        var event := MakeEvent(now, WasExpired, None, ids[i], []);
        pending := pending + [event];
      }
    }

    method BeginRound(now: int) returns (pending: seq<Event>)
      modifies this`entries, this`sequence
      ensures StartRound(old(View()), now, env.ttl) == InRound(pending, {}, [])
    {
      var expired;
      ListedAsSet(Expired(entries, now, env.ttl));
      hide Departures, Expired, Ascending;
      expired, pending := ExpireLocked(now);
    }

    /** Expires, then folds the observations in one by one, stopping at the first failure. */
    method FoldRound(os: seq<Observation>, ids: seq<Option<string>>, now: int)
      returns (ok: bool, results: seq<IngestResult>, pending: seq<Event>)
      requires |os| == |ids| && BatchReady(StartRound(View(), now, env.ttl), os, ids, entries.Keys, configured, env)
      modifies this`entries, this`sequence, this`dropped, this`evicted
      ensures var out := IngestAll(StartRound(old(View()), now, env.ttl), os, ids, |os|, configured, env);
              && ok == out.Some?
              && (ok ==> out.value == InRound(pending, out.value.touched, results))
    {
      hide StartRound, IngestStep, BatchReady;
      ghost var start := StartRound(View(), now, env.ttl);
      ghost var known := entries.Keys;
      pending := BeginRound(now);
      var touched: set<string> := {};
      results := [];
      for i := 0 to |os|
        invariant IngestAll(start, os, ids, i, configured, env) == Some(InRound(pending, touched, results))
      {
        BatchStepReady(start, os, ids, i, known, configured, env);
        var res, more;
        ghost var r := InRound(pending, touched, results);
        ok, res, more, touched := IngestLocked(os[i], ids[i], touched, r);
        if !ok {
          NoneStays(start, os, ids, i + 1, configured, env);
          return false, [], [];
        }
        results, pending := results + [res], pending + more;
      }
      ok := true;
    }

    /** A discovery round: all observations are normalised first, then folded in, then saved;
        any failure restores every field. */
    method IngestMany(raw: seq<Observation>, ids: seq<Option<string>>, now: int, save: SaveOutcome)
      returns (ok: bool, results: seq<IngestResult>)
      requires env.Valid() && Inv(View(), env) && now != 0 && |ids| == |raw| && FreshIds(ids, entries.Keys)
      modifies this`entries, this`sequence, this`dropped, this`evicted, this`events, this`file
      ensures raw == [] ==> ok && results == [] && View() == old(View())
      ensures raw != [] ==>
                var out := IngestChange(old(View()), raw, ids, now, env);
                && ok == (out.Some? && Succeeds(save, env)) && (ok ==> results == out.value.results)
                && View() == (if out.None? then old(View())
                              else Commit(old(View()), RoundChange(old(View()), out.value), save, env))
    {
      hide Lawful, Inv, AllNormalize, IngestAll, StartRound, FreshIds, BatchReady, NormalizeObservation, Commit;
      if |raw| == 0 {
        return true, [];
      }
      var normalized := NormalizeBatch(raw, now, env.rules);
      if normalized.None? {
        return false, [];
      }
      ghost var s := View();
      var beforeEntries, beforeSequence, beforeDropped, beforeEvicted := entries, sequence, dropped, evicted;
      NormalizedBatchIsOk(raw, now, env.rules);
      StartsWithFewer(s, now, env.ttl);
      RoundStarts(s, normalized.value, ids, entries.Keys, now, env);
      var pending;
      ok, results, pending := FoldRound(normalized.value, ids, now);
      if ok {
        ok := SaveAndPublish(pending, save, s);
      }
      if !ok {
        entries, sequence, dropped, evicted := beforeEntries, beforeSequence, beforeDropped, beforeEvicted;
        return false, [];
      }
    }

    /** The common part of the operator's decisions. */
    method Transition(id: string, d: Decision, now: int, save: SaveOutcome) returns (ok: bool, view: Option<Candidate>)
      requires env.maxEvents > 0 && forall k :: k in entries ==> entries[k].id == k
      modifies this`entries, this`sequence, this`events, this`file
      ensures var change := ReviewChange(old(View()), id, d, now);
              && ok == (change.Some? && Succeeds(save, env))
              && View() == (if change.None? then old(View()) else Commit(old(View()), change.value, save, env))
              && (ok ==> id in entries && view == Some(entries[id]))
    {
      hide Commit;
      view := None;
      if id !in entries {
        return false, None;
      }
      ghost var s := View();
      var before, beforeSequence := entries[id], sequence;
      var decided := Decide(before, d, now);
      if decided.None? {
        return false, None;
      }
      entries := entries[id := decided.value];
      var event := MakeEvent(now, EventOf(d), Some(decided.value), decided.value.id, []);
      ok := SaveAndPublish([event], save, s);
      if !ok {
        entries, sequence := entries[id := before], beforeSequence;
        assert entries == s.entries;
        return false, None;
      }
      view := Some(entries[id]);
    }

    /** Records that the operator verified the displayed fingerprint. A success leaves a
        verified entry with the same key, which no round can evict. */
    method MarkVerified(id: string, now: int, save: SaveOutcome) returns (ok: bool, view: Option<Candidate>)
      requires env.maxEvents > 0 && forall k :: k in entries ==> entries[k].id == k
      modifies this`entries, this`sequence, this`events, this`file
      ensures ok ==>
                && id in entries && entries[id].state == Verified && Pinned(entries[id]) && view == Some(entries[id])
                && id in old(entries) && entries[id].fingerprint == old(entries)[id].fingerprint != ""
      ensures !ok ==> entries == old(entries) && sequence == old(sequence) && events == old(events)
      ensures forall k :: k in old(entries) && k != id ==> k in entries && entries[k] == old(entries)[k]
    {
      hide DiskOf, Latest;
      ok, view := Transition(id, Verify, now, save);
    }

    /** Suppresses a candidate until it is restored: it neither expires nor is evicted. */
    method IgnoreCandidate(id: string, now: int, save: SaveOutcome) returns (ok: bool, view: Option<Candidate>)
      requires env.maxEvents > 0 && forall k :: k in entries ==> entries[k].id == k
      modifies this`entries, this`sequence, this`events, this`file
      ensures ok ==>
                && id in entries && entries[id].state == Ignored && Pinned(entries[id]) && view == Some(entries[id])
                && forall later, ttl :: !Stale(entries[id], later, ttl)
      ensures ok == (id in old(entries) && Succeeds(save, env))
      ensures !ok ==> entries == old(entries) && sequence == old(sequence) && events == old(events)
      ensures forall k :: k in old(entries) && k != id ==> k in entries && entries[k] == old(entries)[k]
    {
      hide DiskOf, Latest;
      ok, view := Transition(id, Ignore, now, save);
    }

    /** Undoes an Ignore: the entry is again what its key, the configuration and the earlier
        verification make of it. */
    method RestoreCandidate(id: string, now: int, save: SaveOutcome) returns (ok: bool, view: Option<Candidate>)
      requires env.maxEvents > 0 && forall k :: k in entries ==> entries[k].id == k
      modifies this`entries, this`sequence, this`events, this`file
      ensures ok ==>
                && id in old(entries) && old(entries)[id].state == Ignored && id in entries && view == Some(entries[id])
                && entries[id].state != Ignored && entries[id].ignoredAt == None
                && entries[id] == old(entries)[id].(state := entries[id].state, ignoredAt := None)
      ensures ok == (id in old(entries) && old(entries)[id].state == Ignored && Succeeds(save, env))
      ensures !ok ==> entries == old(entries) && sequence == old(sequence) && events == old(events)
    {
      hide DiskOf, Latest;
      ok, view := Transition(id, Restore, now, save);
    }

    /** Replaces the configured fingerprints. When no entry and no name changes nothing is
        written, and the state is as it was. */
    method ReplaceConfiguredFingerprints(items: seq<Configured>, now: int, save: SaveOutcome)
      returns (ok: bool, ghost order: seq<string>)
      requires env.Valid() && Inv(View(), env)
      modifies this`entries, this`configured, this`sequence, this`events, this`file
      ensures Described(items, env.rules).None? ==> !ok && View() == old(View())
      ensures Described(items, env.rules).Some? ==>
                var change := ConfigureChange(old(View()), Described(items, env.rules).value, order, now);
                && Visits(order, old(entries))
                && (if change.pending == [] && change.next.configured == old(configured)
                    then ok && View() == old(View())
                    else ok == Succeeds(save, env) && View() == Commit(old(View()), change, save, env))
    {
      hide Lawful, Inv, Unsorted, SortValues, Commit, ReconfiguredAll, ConfigurationEvents, Visits;
      order := [];
      var next := ReadConfiguration(items, true, env.rules);
      if next.None? {
        return false, [];
      }
      ghost var s := View();
      var beforeEntries, beforeConfigured, beforeSequence := entries, configured, sequence;
      configured := next.value;
      var pending;
      entries, pending, order := Reconfigure(entries, next.value, sequence, now);
      sequence := sequence + |pending|;
      ConfigureIsOk(s, items, order, now, env);
      if |pending| == 0 && beforeConfigured == next.value {
        return true, order;
      }
      ok := SaveAndPublish(pending, save, s);
      if !ok {
        entries, configured, sequence := beforeEntries, beforeConfigured, beforeSequence;
        return false, order;
      }
    }

    /** Removes what has not been seen for too long; ignored entries stay. */
    method Expire(now: int, save: SaveOutcome) returns (ok: bool, ids: seq<string>)
      requires env.maxEvents > 0
      modifies this`entries, this`sequence, this`events, this`file
      ensures Expired(old(entries), now, env.ttl) == {} ==> ok && ids == [] && View() == old(View())
      ensures Expired(old(entries), now, env.ttl) != {} ==>
                && ok == Succeeds(save, env) && (ok ==> ids == Ascending(Expired(old(entries), now, env.ttl)))
                && View() == Commit(old(View()), ExpireChange(old(View()), now, env.ttl), save, env)
    {
      ListedAsSet(Expired(entries, now, env.ttl));
      hide Commit, Expired, Ascending, Departures;
      ghost var s := View();
      var beforeEntries, beforeSequence := entries, sequence;
      var pending;
      ids, pending := ExpireLocked(now);
      if |ids| == 0 {
        assert entries == beforeEntries;
        return true, [];
      }
      ok := SaveAndPublish(pending, save, s);
      if !ok {
        entries, sequence := beforeEntries, beforeSequence;
        return false, [];
      }
    }

    /** The retained events after a cursor, or a request to start over. */
    method ReadEvents(cursor: nat) returns (batch: EventBatch)
      ensures batch == EventsSince(View(), cursor)
    {
      if cursor >= sequence {
        return EventBatch(sequence, false, []);
      }
      if |events| == 0 || cursor + 1 < events[0].sequence {
        return EventBatch(sequence, true, []);
      }
      var out: seq<Event> := [];
      for i := 0 to |events|
        invariant out == After(events[..i], cursor)
      {
        assert events[..i + 1][..i] == events[..i];
        if events[i].sequence > cursor {
          out := out + [events[i]];
        }
      }
      assert events[..|events|] == events;
      batch := EventBatch(sequence, false, out);
    }
  }

  /** Loads an inbox from its file; none when the file does not pass the checks. */
  method Open(disk: Option<Disk>, options: Env) returns (inbox: CandidateInbox?)
    ensures inbox == null <==> Reopen(disk, WithDefaults(options)).None?
    ensures inbox != null ==>
              fresh(inbox) && inbox.env == WithDefaults(options) &&
              inbox.View() == Reopen(disk, WithDefaults(options)).value
  {
    hide Unsorted, SortValues, Admitted;
    var b := new CandidateInbox(options);
    if disk.None? {
      return b;
    }
    var configured := ReadConfiguration(disk.value.configured, false, b.env.rules);
    if configured.None? {
      return null;
    }
    var entries := AdmitAll(disk.value.candidates, configured.value, b.env.rules);
    if entries.None? || |entries.value| > b.env.maxEntries {
      return null;
    }
    b.sequence, b.configured, b.entries, b.file := disk.value.sequence, configured.value, entries.value, disk;
    inbox := b;
  }

  lemma StartsWithFewer(s: Index, now: int, ttl: int)
    ensures StartRound(s, now, ttl).entries.Keys <= s.entries.Keys
  {}

  /** What one more observation of a batch may rely on. */
  lemma BatchStepReady(r: Round, os: seq<Observation>, ids: seq<Option<string>>, n: nat, known: set<string>,
                       configured: map<string, seq<string>>, env: Env)
    requires BatchReady(r, os, ids, known, configured, env) && n < |os|
    ensures env.maxEntries > 0
    ensures var out := IngestAll(r, os, ids, n, configured, env);
            out.Some? ==>
              && |out.value.entries| <= env.maxEntries
              && forall id :: id in out.value.entries ==> out.value.entries[id].id == id
  {
    PrefixOk(r, os, ids, n, known, configured, env);
    hide IngestAll, ConfiguredOk, FreshIds, EntryOk, Distinct, Used;
  }

  lemma {:induction false} NoneStays(r: Round, os: seq<Observation>, ids: seq<Option<string>>, n: nat,
                                     configured: map<string, seq<string>>, env: Env)
    requires n <= |os| == |ids| && IngestAll(r, os, ids, n, configured, env).None?
    ensures IngestAll(r, os, ids, |os|, configured, env).None?
    decreases |os| - n
  {
    hide IngestStep;
    if n < |os| {
      NoneStays(r, os, ids, n + 1, configured, env);
    }
  }

  method NormalizeBatch(raw: seq<Observation>, now: int, rules: Rules) returns (normalized: Option<seq<Observation>>)
    ensures normalized == if AllNormalize(raw, now, rules) then Some(NormalizeAll(raw, now, rules)) else None
  {
    hide NormalizeObservation;
    var done: seq<Observation> := [];
    for i := 0 to |raw|
      invariant |done| == i
      invariant forall k :: 0 <= k < i ==> NormalizeObservation(raw[k], now, rules) == Some(done[k])
    {
      var o := NormalizeObservation(raw[i], now, rules);
      if o.None? {
        return None;
      }
      done := done + [o.value];
    }
    assert done == NormalizeAll(raw, now, rules);
    normalized := Some(done);
  }

  lemma ChosenIsEntry(entries: map<string, Candidate>, o: Observation, rules: Rules)
    ensures var chosen := Chosen(entries, o, rules);
            chosen.Some? ==> chosen.value in entries
  {
    var all := Matches(entries, o, rules);
    MatchesAreEntries(entries, o, rules);
    LeastIsMember(all);
    LeastIsMember(Keyed(entries, all, ""));
    LeastIsMember(Keyed(entries, all, o.fingerprint));
    hide Least, Matches;
  }

  lemma NoneAscend()
    ensures Ascending({}) == []
  {
    AscendingFacts({});
  }

  lemma NothingFolded(c: Candidate, entries: map<string, Candidate>, rules: Rules)
    ensures FoldIn(c, [], entries, rules) == c
  {}
}
