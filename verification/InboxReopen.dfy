/** Saving and reopening: the round trip of the inbox, and exactly when it holds. */
module InboxReopen {
  import opened Shared
  import opened PlainText
  import opened TextOrder
  import opened InboxData
  import opened InboxSteps
  import opened InboxInvariant
  import opened InboxIngest
  import opened InboxOperations

  /** The part of a map whose keys come first in a list. */
  function Part<V>(m: map<string, V>, keys: seq<string>, n: nat): map<string, V>
    requires n <= |keys|
  {
    map k | k in m && k in keys[..n] :: m[k]
  }

  lemma PartGrows<V>(m: map<string, V>, keys: seq<string>, n: nat)
    requires n < |keys| && NoRepeats(keys) && keys[n] in m
    ensures keys[n] !in Part(m, keys, n)
    ensures Part(m, keys, n + 1) == Part(m, keys, n)[keys[n] := m[keys[n]]]
  {
    assert keys[..n + 1] == keys[..n] + [keys[n]];
  }

  lemma NamesReadBack(names: seq<string>, rules: Rules)
    requires NamesOk(names, rules)
    ensures NamesNormalize(names, rules) && AddAll([], NormalizedNames(names, rules), EXACT) == names
    ensures SortTexts(names) == names
  {
    forall i | 0 <= i < |names|
      ensures NormalizePlain(names[i], 128, rules) == Some(names[i])
    {
      assert Plain(names[i], 128, rules);
    }
    assert NormalizedNames(names, rules) == names;
    assert [] + names == names;
    AddAllExact([], names);
    SortedStays(names);
  }

  lemma ListedConfiguration(configured: map<string, seq<string>>, n: nat)
    requires n < |ConfiguredList(configured)|
    ensures var keys := Ascending(configured.Keys);
            && |keys| == |ConfiguredList(configured)| && keys[n] in configured
            && ConfiguredList(configured)[n] == Configured(keys[n], configured[keys[n]])
            && keys[n] !in Part(configured, keys, n)
            && Part(configured, keys, n + 1) == Part(configured, keys, n)[keys[n] := configured[keys[n]]]
  {
    var keys := Ascending(configured.Keys);
    AscendingFacts(configured.Keys);
    assert keys[n] in keys;
    PartGrows(configured, keys, n);
  }

  lemma ItemReadsBack(before: map<string, seq<string>>, key: string, names: seq<string>, rules: Rules)
    requires key !in before && rules.fingerprint(key) == Some(key) && NamesOk(names, rules)
    ensures WithItem(before, Configured(key, names), rules) == Some(before[key := names])
  {
    NamesReadBack(names, rules);
    hide NamesNormalize, NormalizedNames, AddAll, AllPlain, Sorted, NoRepeats;
  }

  lemma {:induction false} ConfigurationReadsBack(configured: map<string, seq<string>>, n: nat, rules: Rules)
    requires ConfiguredOk(configured, rules) && n <= |ConfiguredList(configured)|
    ensures |Ascending(configured.Keys)| == |ConfiguredList(configured)|
    ensures Unsorted(ConfiguredList(configured), n, rules) == Some(Part(configured, Ascending(configured.Keys), n))
  {
    hide NamesOk, WithItem, Ascending;
    if n > 0 {
      var keys := Ascending(configured.Keys);
      ConfigurationReadsBack(configured, n - 1, rules);
      ListedConfiguration(configured, n - 1);
      hide Part, ConfiguredList;
      ItemReadsBack(Part(configured, keys, n - 1), keys[n - 1], configured[keys[n - 1]], rules);
    }
  }

  lemma WholePart<V>(m: map<string, V>)
    ensures |Ascending(m.Keys)| == |m| && Part(m, Ascending(m.Keys), |Ascending(m.Keys)|) == m
  {
    var keys := Ascending(m.Keys);
    AscendingFacts(m.Keys);
    hide Ascending, Sorted, NoRepeats;
    assert keys[..|keys|] == keys;
    assert forall k :: k in m ==> k in keys;
    assert |m| == |m.Keys|;
  }

  lemma WholeConfigurationReadsBack(configured: map<string, seq<string>>, rules: Rules)
    requires ConfiguredOk(configured, rules)
    ensures var list := ConfiguredList(configured);
            Unsorted(list, |list|, rules).Some? && SortValues(Unsorted(list, |list|, rules).value) == configured
  {
    var list := ConfiguredList(configured);
    ConfigurationReadsBack(configured, |list|, rules);
    WholePart(configured);
    assert |list| == |Ascending(configured.Keys)|;
    hide Ascending, NamesOk, Unsorted, Part;
    forall k | k in configured
      ensures SortTexts(configured[k]) == configured[k]
    {
      NamesReadBack(configured[k], rules);
    }
    assert SortValues(configured) == configured;
  }

  /** A saved entry passes the checks of a reopened inbox exactly when it is undotted. */
  lemma EntryReadsBack(entries: map<string, Candidate>, before: map<string, Candidate>, id: string,
                       configured: map<string, seq<string>>, rules: Rules)
    requires EntriesOk(entries, configured, rules) && id in entries && id !in before
    requires forall k :: k in before ==> k in entries && before[k] == entries[k]
    ensures Admissible(entries[id], before, configured, rules) <==> Undotted(entries[id])
  {
    hide TextsOk, ValidId;
  }

  lemma ListedEntries(entries: map<string, Candidate>, n: nat)
    requires n < |CandidateList(entries)|
    ensures var keys := Ascending(entries.Keys);
            && |keys| == |CandidateList(entries)| && keys[n] in entries && CandidateList(entries)[n] == entries[keys[n]]
            && NoRepeats(keys) && keys[n] !in Part(entries, keys, n)
            && Part(entries, keys, n + 1) == Part(entries, keys, n)[keys[n] := entries[keys[n]]]
  {
    var keys := Ascending(entries.Keys);
    AscendingFacts(entries.Keys);
    assert keys[n] in keys;
    PartGrows(entries, keys, n);
  }

  /** The first `n` saved entries are admitted exactly when none of them is dotted. */
  lemma {:induction false} EntriesReadBack(entries: map<string, Candidate>, n: nat,
                                           configured: map<string, seq<string>>, rules: Rules)
    requires EntriesOk(entries, configured, rules) && n <= |CandidateList(entries)|
    ensures |Ascending(entries.Keys)| == |CandidateList(entries)|
    ensures var list, keys := CandidateList(entries), Ascending(entries.Keys);
            Admitted(list, n, configured, rules) ==
            if forall i :: 0 <= i < n ==> Undotted(list[i]) then Some(Part(entries, keys, n)) else None
  {
    hide Ascending, EntryOk, Undotted, NoRepeats, Sorted, Admissible;
    if n > 0 {
      var keys, list := Ascending(entries.Keys), CandidateList(entries);
      EntriesReadBack(entries, n - 1, configured, rules);
      ListedEntries(entries, n - 1);
      PartIsPart(entries, keys, n - 1);
      var before := Part(entries, keys, n - 1);
      EntryReadsBack(entries, before, keys[n - 1], configured, rules);
      KeyedById(entries, keys[n - 1], configured, rules);
      hide EntriesOk, Part, CandidateList;
    }
  }

  lemma KeyedById(entries: map<string, Candidate>, id: string, configured: map<string, seq<string>>, rules: Rules)
    requires EntriesOk(entries, configured, rules) && id in entries
    ensures entries[id].id == id
  {}

  lemma PartIsPart<V>(m: map<string, V>, keys: seq<string>, n: nat)
    requires n <= |keys|
    ensures forall k :: k in Part(m, keys, n) ==> k in m && Part(m, keys, n)[k] == m[k]
  {}

  lemma PlaceInList(entries: map<string, Candidate>, id: string) returns (i: nat)
    requires id in entries
    ensures i < |CandidateList(entries)| && CandidateList(entries)[i] == entries[id]
  {
    var keys := Ascending(entries.Keys);
    AscendingFacts(entries.Keys);
    hide Ascending, Sorted, NoRepeats;
    assert id in keys;
    i :| 0 <= i < |keys| && keys[i] == id;
  }

  lemma ListedUndotted(entries: map<string, Candidate>)
    ensures (forall i :: 0 <= i < |CandidateList(entries)| ==> Undotted(CandidateList(entries)[i])) <==>
              AllUndotted(entries)
  {
    var list := CandidateList(entries);
    hide CandidateList, Undotted;
    forall id | id in entries
      ensures exists i :: 0 <= i < |list| && list[i] == entries[id]
    {
      var i := PlaceInList(entries, id);
    }
    forall i | 0 <= i < |list|
      ensures exists id :: id in entries && list[i] == entries[id]
    {
      ListedEntries(entries, i);
    }
  }

  lemma WholeEntriesReadBack(entries: map<string, Candidate>, configured: map<string, seq<string>>, rules: Rules)
    requires EntriesOk(entries, configured, rules)
    ensures var list := CandidateList(entries);
            Admitted(list, |list|, configured, rules) == if AllUndotted(entries) then Some(entries) else None
  {
    var list := CandidateList(entries);
    EntriesReadBack(entries, |list|, configured, rules);
    ListedUndotted(entries);
    WholePart(entries);
    hide Ascending, EntriesOk, Undotted, Admitted, Part, CandidateList;
  }

  /** Round trip. What was saved is read back entry by entry, name by name, exactly when no
      stored host name ends in a dot; otherwise the inbox cannot be reopened at all. */
  lemma ReopenIffUndotted(s: Index, env: Env)
    requires ContentOk(s, env)
    ensures Reopen(Some(DiskOf(s)), env) ==
            if AllUndotted(s.entries) then Some(Index(s.entries, s.configured, s.sequence, 0, 0, [], Some(DiskOf(s))))
            else None
  {
    WholeConfigurationReadsBack(s.configured, env.rules);
    WholeEntriesReadBack(s.entries, s.configured, env.rules);
    hide Unsorted, SortValues, Admitted, ConfiguredList, CandidateList, AllUndotted, EntriesOk, ConfiguredOk;
  }

  /** So a saved operation survives a crash, without its events and counters. */
  lemma SavedSurvives(s: Index, change: Change, env: Env)
    requires env.maxEvents > 0 && env.persistent && Inv(s, env) && ChangeOk(s, change, env)
    ensures var s' := Commit(s, change, Saved, env);
            Reopen(s'.file, env) == if AllUndotted(s'.entries) then Some(s'.(events := [], dropped := 0, evicted := 0))
                                    else None
  {
    hide ContentOk;
    ReopenIffUndotted(change.next, env);
  }

  // ---------------------------------------------------------------------------------
  // Which observations store a dotted name.

  /** Only one trailing dot is removed, and only before the last trimming. */
  predicate DottedInput(o: Observation) {
    o.hostname != "" && EndsInDot(TrimSpace(TrimOneDot(TrimSpace(o.hostname))))
  }

  lemma DottedInputs(o: Observation, now: int, rules: Rules)
    ensures NormalizeObservation(o, now, rules).Some? ==>
              (EndsInDot(NormalizeObservation(o, now, rules).value.hostname) <==> DottedInput(o))
  {
    hide Utf8Length, TrimSpace;
  }

  /** One observation into an empty inbox: it can be reopened afterwards exactly when the
      stored name does not end in a dot. */
  lemma FirstObservationReopens(o: Observation, id: string, now: int, env: Env)
    requires env.Valid() && env.persistent && now != 0 && ValidId(id) && NormalizeObservation(o, now, env.rules).Some?
    ensures var out := IngestChange(EMPTY_INDEX, [o], [Some(id)], now, env);
            out.Some? &&
            var saved := Commit(EMPTY_INDEX, RoundChange(EMPTY_INDEX, out.value), Saved, env);
            (Reopen(saved.file, env).Some? <==> !DottedInput(o))
  {
    hide Lawful, NormalizeObservation, IngestChange, DottedInput, EndsInDot, ChangeOk, Reopen, ValidId, AllUndotted;
    hide DiskOf;
    var out := IngestChange(EMPTY_INDEX, [o], [Some(id)], now, env);
    FirstRound(o, id, now, env);
    DottedInputs(o, now, env.rules);
    assert Inv(EMPTY_INDEX, env);
    IngestIsOk(EMPTY_INDEX, [o], [Some(id)], {}, now, env);
    hide Inv;
    SavedSurvives(EMPTY_INDEX, RoundChange(EMPTY_INDEX, out.value), env);
  }

  /** For instance the name "fv..": it is accepted, stored as "fv.", and the saved inbox is
      then refused. */
  lemma TwoDotsBlockReopening(o: Observation, id: string, now: int, env: Env)
    requires env.Valid() && env.persistent && now != 0 && ValidId(id) && NormalizeObservation(o, now, env.rules).Some?
    requires o.hostname == "fv.."
    ensures var out := IngestChange(EMPTY_INDEX, [o], [Some(id)], now, env);
            out.Some? && Reopen(Commit(EMPTY_INDEX, RoundChange(EMPTY_INDEX, out.value), Saved, env).file, env).None?
  {
    hide Lawful, NormalizeObservation, IngestChange, Reopen, Commit, ValidId;
    TrimSpaceTrims("fv..");
    TrimSpaceTrims("fv.");
    assert TrimOneDot("fv..") == "fv.";
    assert DottedInput(o);
    FirstObservationReopens(o, id, now, env);
  }

  lemma FirstRound(o: Observation, id: string, now: int, env: Env)
    requires env.Valid() && now != 0 && ValidId(id) && NormalizeObservation(o, now, env.rules).Some?
    ensures var out := IngestChange(EMPTY_INDEX, [o], [Some(id)], now, env);
            out.Some? && (AllUndotted(out.value.entries) <==>
                            !EndsInDot(NormalizeObservation(o, now, env.rules).value.hostname))
  {
    NormalizedObservationIsOk(o, now, env.rules);
    hide Lawful, NormalizeObservation, ObservationOk, EndsInDot, AllUndotted, IngestStep;
    var os := NormalizeAll([o], now, env.rules);
    var start := StartRound(EMPTY_INDEX, now, env.ttl);
    FirstIngest(os[0], id, start, env);
    assert IngestAll(start, os, [Some(id)], 0, map[], env) == Some(start);
    assert IngestAll(start, os, [Some(id)], 1, map[], env) == IngestStep(start, os[0], Some(id), map[], env);
  }

  lemma FirstIngest(o: Observation, id: string, r: Round, env: Env)
    requires r.entries == map[] && env.maxEntries > 0 && ValidId(id) && ObservationOk(o, env.rules)
    ensures var out := IngestStep(r, o, Some(id), map[], env);
            out.Some? && (AllUndotted(out.value.entries) <==> !EndsInDot(o.hostname))
  {
    var c := NewCandidate(id, o.observedAt);
    ChosenFacts(map[], o, env.rules);
    assert Matches(map[], o, env.rules) == {};
    NewStep(r, o, Some(id), map[], env);
    NewSettles(map[], o, id, map[], env.rules);
    SettledEntries(r, c, o, {}, true, [], map[], env.rules);
    assert Ascending({}) == [] by {
      AscendingFacts({});
    }
    var c1 := Absorb(c, o, map[], env.rules);
    SortedTextsFrom(AddGiven([], o.hostname, env.rules.fold));
    hide IngestStep, ObservationOk, Chosen;
    assert Settle(r, c, o, {}, true, [], map[], env.rules).entries[id] == c1;
    assert c1.hostnames == SortTexts(AddGiven([], o.hostname, env.rules.fold));
    assert AddGiven([], o.hostname, env.rules.fold) == if o.hostname == "" then [] else [o.hostname];
  }
}
