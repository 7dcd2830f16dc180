/** What the inbox accepts from outside as a whole: which configurations it takes and what they
    say, and which files it reopens and to what. */
module InboxLoading {
  import opened Shared
  import opened TextOrder
  import opened InboxData
  import opened InboxSteps
  import opened InboxMeaning

  /** An item configures a name for a key. */
  ghost predicate Configures(item: Configured, key: string, name: string, rules: Rules) {
    rules.fingerprint(item.fingerprint) == Some(key) &&
    exists j :: 0 <= j < |item.deviceNames| && Reads(item.deviceNames[j], 128, rules, name)
  }

  ghost predicate ReadsSome(value: string, max: nat, rules: Rules) {
    exists v :: Reads(value, max, rules, v)
  }

  /** An item can be read: its fingerprint parses and each of its names is a proper text. */
  ghost predicate Readable(item: Configured, rules: Rules) {
    rules.fingerprint(item.fingerprint).Some? &&
    forall j :: 0 <= j < |item.deviceNames| ==> ReadsSome(item.deviceNames[j], 128, rules)
  }

  lemma ExactlyAdded(values: seq<string>, more: seq<string>)
    ensures forall v :: v in AddAll(values, more, EXACT) <==> v in values || v in more
  {
    AddAllFrom(values, more, EXACT);
  }

  lemma PlainSome(value: string, max: nat, rules: Rules)
    ensures NormalizePlain(value, max, rules).Some? <==> ReadsSome(value, max, rules)
  {
    hide NormalizePlain, Reads;
    forall v
      ensures NormalizePlain(value, max, rules) == Some(v) <==> Reads(value, max, rules, v)
    {
      PlainIff(value, max, rules, v);
    }
    if NormalizePlain(value, max, rules).Some? {
      assert Reads(value, max, rules, NormalizePlain(value, max, rules).value);
    }
  }

  lemma NamesReadable(names: seq<string>, rules: Rules)
    ensures NamesNormalize(names, rules) <==> forall j :: 0 <= j < |names| ==> ReadsSome(names[j], 128, rules)
  {
    hide NormalizePlain, ReadsSome;
    forall j | 0 <= j < |names|
      ensures NormalizePlain(names[j], 128, rules).Some? <==> ReadsSome(names[j], 128, rules)
    {
      PlainSome(names[j], 128, rules);
    }
  }

  lemma NamesRead(names: seq<string>, rules: Rules)
    requires NamesNormalize(names, rules)
    ensures forall v :: v in NormalizedNames(names, rules) <==>
                        exists j :: 0 <= j < |names| && Reads(names[j], 128, rules, v)
  {
    hide NormalizePlain, Reads;
    var read := NormalizedNames(names, rules);
    forall v
      ensures v in read <==> exists j :: 0 <= j < |names| && Reads(names[j], 128, rules, v)
    {
      if v in read {
        var j :| 0 <= j < |read| && read[j] == v;
        PlainIff(names[j], 128, rules, v);
      }
      if j :| 0 <= j < |names| && Reads(names[j], 128, rules, v) {
        PlainIff(names[j], 128, rules, v);
        assert read[j] == v;
      }
    }
  }

  lemma ItemMeaning(m: map<string, seq<string>>, item: Configured, rules: Rules)
    ensures WithItem(m, item, rules).Some? <==> Readable(item, rules)
    ensures WithItem(m, item, rules).Some? ==>
              forall k, v :: v in NamesFor(WithItem(m, item, rules).value, k) <==>
                             v in NamesFor(m, k) || Configures(item, k, v, rules)
  {
    hide Reads, ReadsSome, NamesNormalize, NormalizedNames;
    NamesReadable(item.deviceNames, rules);
    if NamesNormalize(item.deviceNames, rules) {
      NamesRead(item.deviceNames, rules);
    }
    if WithItem(m, item, rules).Some? {
      var key := rules.fingerprint(item.fingerprint).value;
      ExactlyAdded(NamesFor(m, key), NormalizedNames(item.deviceNames, rules));
    }
  }

  lemma {:induction false} ItemsMeaning(items: seq<Configured>, n: nat, rules: Rules)
    requires n <= |items|
    ensures Unsorted(items, n, rules).Some? <==> forall i :: 0 <= i < n ==> Readable(items[i], rules)
    ensures Unsorted(items, n, rules).Some? ==>
              forall k, v :: v in NamesFor(Unsorted(items, n, rules).value, k) <==>
                             exists i :: 0 <= i < n && Configures(items[i], k, v, rules)
  {
    hide Readable, Configures, WithItem;
    if n > 0 {
      ItemsMeaning(items, n - 1, rules);
      if Unsorted(items, n - 1, rules).Some? {
        ItemMeaning(Unsorted(items, n - 1, rules).value, items[n - 1], rules);
      }
    }
  }

  /** A configuration is accepted exactly when every item can be read and names a device; each
      key then has exactly the names that some item gives it, sorted. */
  lemma DescribedMeaning(items: seq<Configured>, rules: Rules)
    ensures Described(items, rules).Some? <==>
            forall i :: 0 <= i < |items| ==> Readable(items[i], rules) && items[i].deviceNames != []
    ensures Described(items, rules).Some? ==>
              forall k ::
                && Sorted(NamesFor(Described(items, rules).value, k))
                && forall v :: v in NamesFor(Described(items, rules).value, k) <==>
                               exists i :: 0 <= i < |items| && Configures(items[i], k, v, rules)
  {
    hide Readable, Configures, Unsorted;
    ItemsMeaning(items, |items|, rules);
    if Described(items, rules).Some? {
      var m := Unsorted(items, |items|, rules).value;
      forall k
        ensures Sorted(NamesFor(SortValues(m), k))
        ensures forall v :: v in NamesFor(SortValues(m), k) <==> v in NamesFor(m, k)
      {
        if k in m {
          SortSorts(m[k]);
          SortedTextsFrom(m[k]);
        }
      }
      hide SortValues, SortTexts;
    }
  }

  /** What a file must be for its candidates to be taken. */
  ghost predicate Loadable(candidates: seq<Candidate>, n: nat, configured: map<string, seq<string>>, rules: Rules)
    requires n <= |candidates|
  {
    && (forall i :: 0 <= i < n ==>
          ValidCandidate(candidates[i], rules) &&
          candidates[i].configuredNames == NamesFor(configured, candidates[i].fingerprint))
    && (forall i, j :: 0 <= i < j < n ==> candidates[i].id != candidates[j].id)
    && (forall i, j :: 0 <= i < j < n && candidates[j].fingerprint != "" ==>
          candidates[i].fingerprint != candidates[j].fingerprint)
  }

  /** The first candidates of a file, and nothing else. */
  ghost predicate Holds(entries: map<string, Candidate>, candidates: seq<Candidate>, n: nat)
    requires n <= |candidates|
  {
    && (forall i :: 0 <= i < n ==> candidates[i].id in entries && entries[candidates[i].id] == candidates[i])
    && (forall id :: id in entries ==> exists i :: 0 <= i < n && candidates[i].id == id)
    && |entries| == n
  }

  lemma {:induction false} AdmittedMeaning(candidates: seq<Candidate>, n: nat, configured: map<string, seq<string>>,
                                           rules: Rules)
    requires n <= |candidates|
    ensures Admitted(candidates, n, configured, rules).Some? <==> Loadable(candidates, n, configured, rules)
    ensures Admitted(candidates, n, configured, rules).Some? ==>
              Holds(Admitted(candidates, n, configured, rules).value, candidates, n)
  {
    hide Admissible, Holds, Loadable;
    if n == 0 {
      NothingLoaded(candidates, configured, rules);
    } else {
      AdmittedMeaning(candidates, n - 1, configured, rules);
      LoadableBefore(candidates, n, configured, rules);
      var before := Admitted(candidates, n - 1, configured, rules);
      if before.Some? {
        AdmittedOne(candidates, n, before.value, configured, rules);
        if Admissible(candidates[n - 1], before.value, configured, rules) {
          HoldsOneMore(candidates, n, before.value);
        }
      }
    }
  }

  lemma NothingLoaded(candidates: seq<Candidate>, configured: map<string, seq<string>>, rules: Rules)
    ensures Loadable(candidates, 0, configured, rules) && Holds(map[], candidates, 0)
  {}

  lemma LoadableBefore(candidates: seq<Candidate>, n: nat, configured: map<string, seq<string>>, rules: Rules)
    requires 0 < n <= |candidates|
    ensures Loadable(candidates, n, configured, rules) ==> Loadable(candidates, n - 1, configured, rules)
  {
    hide ValidCandidate, NamesFor;
  }

  lemma HoldsOneMore(candidates: seq<Candidate>, n: nat, before: map<string, Candidate>)
    requires 0 < n <= |candidates| && Holds(before, candidates, n - 1) && candidates[n - 1].id !in before
    ensures Holds(before[candidates[n - 1].id := candidates[n - 1]], candidates, n)
  {
    var c := candidates[n - 1];
    var after := before[c.id := c];
    OneMoreKey(before, c);
    forall id | id in after
      ensures exists i :: 0 <= i < n && candidates[i].id == id
    {
      if id != c.id {
        var i :| 0 <= i < n - 1 && candidates[i].id == id;
      }
    }
  }

  lemma OneMoreKey(before: map<string, Candidate>, c: Candidate)
    requires c.id !in before
    ensures |before[c.id := c]| == |before| + 1
  {
    assert before[c.id := c].Keys == before.Keys + {c.id};
    assert |before[c.id := c]| == |before[c.id := c].Keys| && |before| == |before.Keys|;
  }

  /** A candidate that may follow the first `n`. */
  predicate MayFollow(candidates: seq<Candidate>, n: nat, c: Candidate, configured: map<string, seq<string>>,
                      rules: Rules)
    requires n <= |candidates|
  {
    && ValidCandidate(c, rules) && c.configuredNames == NamesFor(configured, c.fingerprint)
    && (forall i :: 0 <= i < n ==> candidates[i].id != c.id)
    && (c.fingerprint != "" ==> forall i :: 0 <= i < n ==> candidates[i].fingerprint != c.fingerprint)
  }

  lemma LoadableOneMore(candidates: seq<Candidate>, n: nat, configured: map<string, seq<string>>, rules: Rules)
    requires 0 < n <= |candidates| && Loadable(candidates, n - 1, configured, rules)
    ensures Loadable(candidates, n, configured, rules) <==>
            MayFollow(candidates, n - 1, candidates[n - 1], configured, rules)
  {
    hide ValidCandidate, NamesFor;
  }

  lemma AdmissibleIff(candidates: seq<Candidate>, n: nat, entries: map<string, Candidate>, c: Candidate,
                      configured: map<string, seq<string>>, rules: Rules)
    requires n <= |candidates| && Holds(entries, candidates, n)
    ensures Admissible(c, entries, configured, rules) <==> MayFollow(candidates, n, c, configured, rules)
    ensures Admissible(c, entries, configured, rules) ==> c.id !in entries
  {
    hide ValidCandidate, NamesFor, Holds;
    KeyIsThere(candidates, n, entries, c.id);
    FingerprintIsThere(candidates, n, entries, c.fingerprint);
  }

  lemma AdmittedOne(candidates: seq<Candidate>, n: nat, before: map<string, Candidate>,
                    configured: map<string, seq<string>>, rules: Rules)
    requires 0 < n <= |candidates| && Loadable(candidates, n - 1, configured, rules)
    requires Holds(before, candidates, n - 1)
    ensures Admissible(candidates[n - 1], before, configured, rules) <==> Loadable(candidates, n, configured, rules)
    ensures Admissible(candidates[n - 1], before, configured, rules) ==> candidates[n - 1].id !in before
  {
    hide Loadable, Holds, Admissible, MayFollow;
    LoadableOneMore(candidates, n, configured, rules);
    AdmissibleIff(candidates, n - 1, before, candidates[n - 1], configured, rules);
  }

  lemma KeyIsThere(candidates: seq<Candidate>, n: nat, entries: map<string, Candidate>, id: string)
    requires n <= |candidates| && Holds(entries, candidates, n)
    ensures id in entries <==> exists i :: 0 <= i < n && candidates[i].id == id
  {}

  lemma FingerprintIsThere(candidates: seq<Candidate>, n: nat, entries: map<string, Candidate>, fingerprint: string)
    requires n <= |candidates| && Holds(entries, candidates, n)
    ensures (exists id :: id in entries && entries[id].fingerprint == fingerprint) <==>
            exists i :: 0 <= i < n && candidates[i].fingerprint == fingerprint
  {
    if id :| id in entries && entries[id].fingerprint == fingerprint {
      var i :| 0 <= i < n && candidates[i].id == id;
      assert candidates[i].fingerprint == fingerprint;
    }
    if i :| 0 <= i < n && candidates[i].fingerprint == fingerprint {
      assert candidates[i].id in entries;
    }
  }

  /** The configuration a file describes. */
  function ConfiguredBy(disk: Disk, rules: Rules): map<string, seq<string>> {
    match Unsorted(disk.configured, |disk.configured|, rules)
    case None => map[]
    case Some(m) => SortValues(m)
  }

  lemma ConfiguredByMeaning(disk: Disk, rules: Rules)
    requires forall i :: 0 <= i < |disk.configured| ==> Readable(disk.configured[i], rules)
    ensures forall k, v :: v in NamesFor(ConfiguredBy(disk, rules), k) <==>
                           exists i :: 0 <= i < |disk.configured| && Configures(disk.configured[i], k, v, rules)
  {
    hide Configures, Readable, Unsorted, SortValues;
    ItemsMeaning(disk.configured, |disk.configured|, rules);
    SortingKeepsNames(Unsorted(disk.configured, |disk.configured|, rules).value);
  }

  /** A file is reopened exactly when its configuration can be read, its candidates are valid,
      agree with that configuration, have their identifiers and keys to themselves, and are not
      too many; then every one of them is there, the numbering goes on where it was, and the
      counters and events start afresh. */
  lemma ReopenIff(disk: Disk, env: Env)
    ensures var out := Reopen(Some(disk), env);
            && (out.Some? <==>
                  && (forall i :: 0 <= i < |disk.configured| ==> Readable(disk.configured[i], env.rules))
                  && |disk.candidates| <= env.maxEntries
                  && Loadable(disk.candidates, |disk.candidates|, ConfiguredBy(disk, env.rules), env.rules))
            && (out.Some? ==>
                  && Holds(out.value.entries, disk.candidates, |disk.candidates|)
                  && out.value.configured == ConfiguredBy(disk, env.rules)
                  && out.value.sequence == disk.sequence && out.value.dropped == 0 && out.value.evicted == 0
                  && out.value.events == [] && out.value.file == Some(disk))
  {
    hide Loadable, Configures, Readable, Admitted, Unsorted, SortValues;
    ItemsMeaning(disk.configured, |disk.configured|, env.rules);
    var unsorted := Unsorted(disk.configured, |disk.configured|, env.rules);
    if unsorted.Some? {
      AdmittedMeaning(disk.candidates, |disk.candidates|, SortValues(unsorted.value), env.rules);
    }
  }

  lemma SortingKeepsNames(m: map<string, seq<string>>)
    ensures forall k, v :: v in NamesFor(SortValues(m), k) <==> v in NamesFor(m, k)
  {
    forall k, v
      ensures v in NamesFor(SortValues(m), k) <==> v in NamesFor(m, k)
    {
      if k in m {
        SortedTextsFrom(m[k]);
      }
    }
  }
}
