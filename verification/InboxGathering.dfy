/** What an observation leaves in the inbox: the entry it produced has the times, names,
    places and marks of the observation, of the entry it was for and of the aliases folded
    into it, and nothing else; and no later observation of a round loses any of it. */
module InboxGathering {
  import opened Shared
  import opened TextOrder
  import opened InboxData
  import opened InboxSteps
  import opened InboxInvariant
  import opened InboxIngest
  import opened InboxBatches

  /** A text is in a list, up to the comparison. */
  predicate Lists(values: seq<string>, v: string, same: (string, string) -> bool) {
    v in values || Has(values, v, same)
  }

  predicate ListsAll(values: seq<string>, more: seq<string>, same: (string, string) -> bool) {
    forall v :: v in more ==> Lists(values, v, same)
  }

  /** The contributions to an entry: a list of texts has the given one and all of theirs, up
      to the comparison, and no other. */
  ghost predicate Gathers(values: seq<string>, given: string, parts: set<Candidate>,
                          field: Candidate -> seq<string>, same: (string, string) -> bool) {
    && (given != "" ==> Lists(values, given, same))
    && (forall p :: p in parts ==> ListsAll(values, field(p), same))
    && (forall v :: v in values ==> v == given || exists p :: p in parts && v in field(p))
  }

  const NAMES := (c: Candidate) => c.names
  const HOSTNAMES := (c: Candidate) => c.hostnames
  const SOURCES := (c: Candidate) => c.sources

  ghost predicate GathersTexts(c: Candidate, o: Observation, parts: set<Candidate>, rules: Rules) {
    && Gathers(c.names, o.name, parts, NAMES, rules.fold)
    && Gathers(c.hostnames, o.hostname, parts, HOSTNAMES, rules.fold)
    && Gathers(c.sources, o.source, parts, SOURCES, EXACT)
  }

  /** First seen is the earliest, last seen the latest of all times. */
  ghost predicate GathersTimes(c: Candidate, o: Observation, parts: set<Candidate>) {
    && c.firstSeen <= o.observedAt <= c.lastSeen
    && (forall p :: p in parts ==> c.firstSeen <= p.firstSeen && p.lastSeen <= c.lastSeen)
    && (c.firstSeen == o.observedAt || exists p :: p in parts && c.firstSeen == p.firstSeen)
    && (c.lastSeen == o.observedAt || exists p :: p in parts && c.lastSeen == p.lastSeen)
  }

  /** The places are those of the observation and of the parts. */
  ghost predicate GathersPlaces(c: Candidate, o: Observation, parts: set<Candidate>) {
    && (o.address != "" ==> HasEndpoint(c.endpoints, o.address, o.port))
    && (forall p, e :: p in parts && e in p.endpoints ==> HasEndpoint(c.endpoints, e.address, e.port))
    && (forall e :: e in c.endpoints ==>
          (e.address == o.address && e.port == o.port) ||
          exists p :: p in parts && HasEndpoint(p.endpoints, e.address, e.port))
  }

  /** What is seen where: the endpoints of the observation and of the parts. */
  function Sightings(o: Observation, parts: set<Candidate>): set<Endpoint> {
    (if o.address == "" then {} else {Endpoint(o.address, o.port, o.observedAt, o.observedAt)}) +
    set p, e | p in parts && e in p.endpoints :: e
  }

  predicate Spans(endpoints: seq<Endpoint>, e: Endpoint) {
    exists i :: 0 <= i < |endpoints| && SamePlace(endpoints[i], e) && endpoints[i].firstSeen <= e.firstSeen &&
                e.lastSeen <= endpoints[i].lastSeen
  }

  predicate FirstFrom(sightings: set<Endpoint>, e: Endpoint) {
    exists f :: f in sightings && SamePlace(f, e) && f.firstSeen == e.firstSeen
  }

  predicate LastFrom(sightings: set<Endpoint>, e: Endpoint) {
    exists f :: f in sightings && SamePlace(f, e) && f.lastSeen == e.lastSeen
  }

  /** Each place is listed with the first and the last time anything was seen there. */
  ghost predicate Summarises(endpoints: seq<Endpoint>, sightings: set<Endpoint>) {
    && (forall e :: e in sightings ==> Spans(endpoints, e))
    && (forall e :: e in endpoints ==> FirstFrom(sightings, e) && LastFrom(sightings, e))
  }

  /** No time is the zero time, which counts as missing. */
  predicate Dated(endpoints: seq<Endpoint>) {
    forall e :: e in endpoints ==> e.firstSeen != 0 && e.lastSeen != 0
  }

  ghost predicate GathersSpans(c: Candidate, o: Observation, parts: set<Candidate>) {
    (forall p :: p in parts ==> Dated(p.endpoints)) ==>
      Dated(c.endpoints) && Summarises(c.endpoints, Sightings(o, parts))
  }

  /** Key, marks and state: from the observation where it gives one, otherwise from the entry
      it was for; an Ignore and a missing evidence also from an alias. */
  ghost predicate GathersMarks(c: Candidate, o: Observation, base: Candidate, parts: set<Candidate>,
                               configured: map<string, seq<string>>) {
    && c.id == base.id && c.verifiedAt == base.verifiedAt
    && c.fingerprint == (if o.fingerprint != "" then o.fingerprint else base.fingerprint)
    && c.keyType == (if o.keyType != "" then o.keyType else base.keyType)
    && (o.evidence != "" ==> c.lastEvidence == o.evidence)
    && (o.evidence == "" && base.lastEvidence != "" ==> c.lastEvidence == base.lastEvidence)
    && (o.evidence == "" ==> exists p :: p in parts && c.lastEvidence == p.lastEvidence)
    && (c.lastEvidence == "" ==> forall p :: p in parts ==> p.lastEvidence == "")
    && c.configuredNames == NamesFor(configured, c.fingerprint)
    && (if exists p :: p in parts && p.state == Ignored
        then c.state == Ignored && exists p :: p in parts && p.state == Ignored && c.ignoredAt == p.ignoredAt
        else c.ignoredAt == None &&
             c.state == if c.configuredNames != [] then Verified
                        else if o.fingerprint != "" && base.state == Discovered then IdentityPending
                        else base.state)
  }

  /** `base` is the entry the observation was for, `parts` that entry and the aliases. */
  ghost predicate Gathered(c: Candidate, o: Observation, base: Candidate, parts: set<Candidate>,
                           configured: map<string, seq<string>>, rules: Rules) {
    GathersTimes(c, o, parts) && GathersTexts(c, o, parts, rules) && GathersPlaces(c, o, parts) &&
    GathersSpans(c, o, parts) && GathersMarks(c, o, base, parts, configured)
  }

  // ---------------------------------------------------------------------------------
  // Texts.

  lemma SortedTextsList(values: seq<string>, same: (string, string) -> bool)
    ensures forall v :: v in SortTexts(values) <==> v in values
    ensures forall v :: Has(SortTexts(values), v, same) <==> Has(values, v, same)
  {
    SortedTextsFrom(values);
    forall v
      ensures Has(SortTexts(values), v, same) <==> Has(values, v, same)
    {
      if i :| 0 <= i < |values| && same(values[i], v) {
        assert values[i] in SortTexts(values);
      }
      if i :| 0 <= i < |SortTexts(values)| && same(SortTexts(values)[i], v) {
        assert SortTexts(values)[i] in values;
      }
    }
  }

  lemma GivenTextGathers(c: Candidate, field: Candidate -> seq<string>, given: string, same: (string, string) -> bool)
    ensures Gathers(SortTexts(AddGiven(field(c), given, same)), given, {c}, field, same)
  {
    SortedTextsList(AddGiven(field(c), given, same), same);
    hide SortTexts;
    assert forall v :: v in field(c) ==> v in AddGiven(field(c), given, same);
  }

  lemma MoreTextsGather(values: seq<string>, given: string, parts: set<Candidate>, p: Candidate,
                        field: Candidate -> seq<string>, same: (string, string) -> bool)
    requires Gathers(values, given, parts, field, same)
    ensures Gathers(SortTexts(AddAll(values, field(p), same)), given, parts + {p}, field, same)
  {
    var all := AddAll(values, field(p), same);
    AddAllFrom(values, field(p), same);
    SortedTextsList(all, same);
    hide SortTexts, AddAll;
    forall v | Lists(values, v, same)
      ensures Lists(all, v, same)
    {
      if i :| 0 <= i < |values| && same(values[i], v) {
        assert same(all[i], v);
      }
    }
  }

  // ---------------------------------------------------------------------------------
  // Places.

  lemma MergedPlaces(endpoints: seq<Endpoint>, e: Endpoint)
    ensures forall a: string, p: int :: HasEndpoint(MergeEndpoint(endpoints, e), a, p) <==>
                                        HasEndpoint(endpoints, a, p) || (a == e.address && p == e.port)
  {
    var i := PlaceOf(endpoints, e);
    var merged := MergeEndpoint(endpoints, e);
    if i < |endpoints| {
      assert forall k :: 0 <= k < |endpoints| ==> SamePlace(merged[k], endpoints[k]);
    } else {
      SortKeepsAll(endpoints + [e], BY_PLACE);
      SamePlaces(endpoints + [e], merged);
      assert (endpoints + [e])[|endpoints|] == e;
      assert forall k :: 0 <= k < |endpoints| ==> (endpoints + [e])[k] == endpoints[k];
    }
  }

  lemma SamePlaces(before: seq<Endpoint>, after: seq<Endpoint>)
    requires forall e :: e in before <==> e in after
    ensures forall a: string, p: int :: HasEndpoint(before, a, p) <==> HasEndpoint(after, a, p)
  {
    forall a: string, p: int
      ensures HasEndpoint(before, a, p) <==> HasEndpoint(after, a, p)
    {
      if i :| 0 <= i < |before| && before[i].address == a && before[i].port == p {
        assert before[i] in after;
      }
      if i :| 0 <= i < |after| && after[i].address == a && after[i].port == p {
        assert after[i] in before;
      }
    }
  }

  lemma {:induction false} AllMergedPlaces(endpoints: seq<Endpoint>, more: seq<Endpoint>)
    ensures forall a: string, p: int :: HasEndpoint(MergeEndpoints(endpoints, more), a, p) <==>
                                        HasEndpoint(endpoints, a, p) || HasEndpoint(more, a, p)
  {
    if more != [] {
      var k := |more| - 1;
      AllMergedPlaces(endpoints, more[..k]);
      MergedPlaces(MergeEndpoints(endpoints, more[..k]), more[k]);
      forall a: string, p: int
        ensures HasEndpoint(more, a, p) <==>
                HasEndpoint(more[..k], a, p) || (a == more[k].address && p == more[k].port)
      {
        if i :| 0 <= i < |more| && more[i].address == a && more[i].port == p {
          assert i == k || more[..k][i] == more[i];
        }
      }
    }
  }

  lemma WidenedSpans(a: Endpoint, e: Endpoint)
    requires SamePlace(a, e) && a.firstSeen != 0 && a.lastSeen != 0 && e.firstSeen != 0 && e.lastSeen != 0
    ensures var w := Widen(a, e);
            && SamePlace(w, a) && w.firstSeen != 0 && w.lastSeen != 0
            && w.firstSeen <= a.firstSeen && a.lastSeen <= w.lastSeen
            && w.firstSeen <= e.firstSeen && e.lastSeen <= w.lastSeen
            && (w.firstSeen == a.firstSeen || w.firstSeen == e.firstSeen)
            && (w.lastSeen == a.lastSeen || w.lastSeen == e.lastSeen)
  {}

  lemma MoreSightings(sightings: set<Endpoint>, more: set<Endpoint>, e: Endpoint)
    requires sightings <= more
    ensures FirstFrom(sightings, e) ==> FirstFrom(more, e)
    ensures LastFrom(sightings, e) ==> LastFrom(more, e)
  {}

  lemma MergedSpans(endpoints: seq<Endpoint>, e: Endpoint, sightings: set<Endpoint>)
    requires Dated(endpoints) && e.firstSeen != 0 && e.lastSeen != 0 && Summarises(endpoints, sightings)
    ensures Dated(MergeEndpoint(endpoints, e)) && Summarises(MergeEndpoint(endpoints, e), sightings + {e})
  {
    var i := PlaceOf(endpoints, e);
    var merged := MergeEndpoint(endpoints, e);
    if i < |endpoints| {
      assert endpoints[i] in endpoints;
      WidenedSpans(endpoints[i], e);
      WidenedSummarises(endpoints, i, e, sightings);
    } else {
      hide PlaceOf;
      SortKeepsAll(endpoints + [e], BY_PLACE);
      assert merged == SortBy(endpoints + [e], BY_PLACE);
      hide SortBy, MergeEndpoint;
      AppendedSummarises(endpoints, e, merged, sightings);
    }
  }

  lemma WidenedSummarises(endpoints: seq<Endpoint>, i: nat, e: Endpoint, sightings: set<Endpoint>)
    requires i < |endpoints| && SamePlace(endpoints[i], e) && Summarises(endpoints, sightings)
    requires Dated(endpoints) && e.firstSeen != 0 && e.lastSeen != 0
    ensures var merged := endpoints[i := Widen(endpoints[i], e)];
            Dated(merged) && Summarises(merged, sightings + {e})
  {
    var w := Widen(endpoints[i], e);
    var merged := endpoints[i := w];
    assert endpoints[i] in endpoints;
    WidenedSpans(endpoints[i], e);
    WidenedCovers(endpoints, i, w, e, sightings);
    hide Widen, FirstFrom, LastFrom, Spans;
    forall m | m in merged
      ensures m.firstSeen != 0 && m.lastSeen != 0 && FirstFrom(sightings + {e}, m) && LastFrom(sightings + {e}, m)
    {
      if m == w {
        WidenedFrom(endpoints[i], e, sightings);
      } else {
        assert m in endpoints;
        MoreSightings(sightings, sightings + {e}, m);
      }
    }
  }

  lemma WidenedCovers(endpoints: seq<Endpoint>, i: nat, w: Endpoint, e: Endpoint, sightings: set<Endpoint>)
    requires i < |endpoints| && SamePlace(w, endpoints[i]) && SamePlace(w, e)
    requires w.firstSeen <= endpoints[i].firstSeen && endpoints[i].lastSeen <= w.lastSeen
    requires w.firstSeen <= e.firstSeen && e.lastSeen <= w.lastSeen
    requires forall f :: f in sightings ==> Spans(endpoints, f)
    ensures forall f :: f in sightings + {e} ==> Spans(endpoints[i := w], f)
  {
    var merged := endpoints[i := w];
    forall f | f in sightings + {e}
      ensures Spans(merged, f)
    {
      if f == e {
        assert SamePlace(merged[i], e);
      } else {
        var k :| 0 <= k < |endpoints| && SamePlace(endpoints[k], f) && endpoints[k].firstSeen <= f.firstSeen &&
                 f.lastSeen <= endpoints[k].lastSeen;
        assert SamePlace(merged[k], f);
      }
    }
  }

  lemma WidenedFrom(a: Endpoint, e: Endpoint, sightings: set<Endpoint>)
    requires SamePlace(a, e) && a.firstSeen != 0 && a.lastSeen != 0 && e.firstSeen != 0 && e.lastSeen != 0
    requires FirstFrom(sightings, a) && LastFrom(sightings, a)
    ensures FirstFrom(sightings + {e}, Widen(a, e)) && LastFrom(sightings + {e}, Widen(a, e))
  {
    WidenedSpans(a, e);
    var f :| f in sightings && SamePlace(f, a) && f.firstSeen == a.firstSeen;
    var l :| l in sightings && SamePlace(l, a) && l.lastSeen == a.lastSeen;
    assert f in sightings + {e} && l in sightings + {e} && e in sightings + {e};
  }

  lemma AppendedSummarises(endpoints: seq<Endpoint>, e: Endpoint, merged: seq<Endpoint>, sightings: set<Endpoint>)
    requires Dated(endpoints) && e.firstSeen != 0 && e.lastSeen != 0 && Summarises(endpoints, sightings)
    requires forall m :: m in merged <==> m in endpoints + [e]
    ensures Dated(merged) && Summarises(merged, sightings + {e})
  {
    assert (endpoints + [e])[|endpoints|] == e;
    forall f | f in sightings + {e}
      ensures Spans(merged, f)
    {
      if f in sightings {
        var k :| 0 <= k < |endpoints| && SamePlace(endpoints[k], f) && endpoints[k].firstSeen <= f.firstSeen &&
                 f.lastSeen <= endpoints[k].lastSeen;
        assert endpoints[k] in merged;
      } else {
        assert e in merged;
      }
    }
    forall m | m in merged
      ensures m.firstSeen != 0 && m.lastSeen != 0 && FirstFrom(sightings + {e}, m) && LastFrom(sightings + {e}, m)
    {
      if m in endpoints {
        MoreSightings(sightings, sightings + {e}, m);
      } else {
        assert m == e && e in sightings + {e};
      }
    }
  }

  lemma {:induction false} AllMergedSpans(endpoints: seq<Endpoint>, more: seq<Endpoint>, sightings: set<Endpoint>)
    requires Dated(endpoints) && Dated(more) && Summarises(endpoints, sightings)
    ensures Dated(MergeEndpoints(endpoints, more))
    ensures Summarises(MergeEndpoints(endpoints, more), sightings + set e | e in more)
  {
    hide MergeEndpoint, Summarises;
    if more != [] {
      var k := |more| - 1;
      AllMergedSpans(endpoints, more[..k], sightings);
      MergedSpans(MergeEndpoints(endpoints, more[..k]), more[k], sightings + set e | e in more[..k]);
      assert sightings + (set e | e in more) == sightings + (set e | e in more[..k]) + {more[k]};
    } else {
      assert sightings + (set e | e in more) == sightings;
    }
  }

  lemma OwnSightings(endpoints: seq<Endpoint>)
    ensures Summarises(endpoints, set e | e in endpoints)
  {
    var own := set e | e in endpoints;
    forall e | e in endpoints
      ensures Spans(endpoints, e) && FirstFrom(own, e) && LastFrom(own, e)
    {
      var i :| 0 <= i < |endpoints| && endpoints[i] == e;
      assert SamePlace(e, e) && e in own;
    }
  }

  lemma ListedPlace(endpoints: seq<Endpoint>, e: Endpoint)
    ensures e in endpoints ==> HasEndpoint(endpoints, e.address, e.port)
  {}

  // ---------------------------------------------------------------------------------
  // One observation.

  lemma AbsorbGathers(c: Candidate, o: Observation, configured: map<string, seq<string>>, rules: Rules)
    requires Ready(c, configured, rules) && ObservationOk(o, rules) && ConfiguredOk(configured, rules)
    requires Compatible(c, o)
    ensures Gathered(Absorb(c, o, configured, rules), o, c, {c}, configured, rules)
  {
    AbsorbTexts(c, o, configured, rules);
    AbsorbPlaces(c, o, configured, rules);
    AbsorbSpans(c, o, configured, rules);
    AbsorbTimes(c, o, configured, rules);
    AbsorbMarks(c, o, configured, rules);
    hide GathersTimes, GathersMarks, GathersTexts, GathersPlaces, GathersSpans;
    hide Absorb, Ready, ObservationOk, ConfiguredOk, Compatible;
  }

  lemma OnePart(o: Observation, c: Candidate)
    ensures var own := set e | e in c.endpoints;
            Sightings(o, {c}) == if o.address == "" then own
                                 else own + {Endpoint(o.address, o.port, o.observedAt, o.observedAt)}
  {
    assert c in {c};
  }

  lemma AbsorbSpans(c: Candidate, o: Observation, configured: map<string, seq<string>>, rules: Rules)
    requires o.observedAt != 0
    ensures GathersSpans(Absorb(c, o, configured, rules), o, {c})
  {
    hide Absorb, MergeEndpoint, Summarises, Dated, Sightings;
    OnePart(o, c);
    AbsorbEndpoints(c, o, configured, rules);
    OwnSightings(c.endpoints);
    assert c in {c};
    if Dated(c.endpoints) && o.address != "" {
      MergedSpans(c.endpoints, Endpoint(o.address, o.port, o.observedAt, o.observedAt), set e | e in c.endpoints);
    }
  }

  lemma AbsorbEndpoints(c: Candidate, o: Observation, configured: map<string, seq<string>>, rules: Rules)
    ensures Absorb(c, o, configured, rules).endpoints ==
            if o.address == "" then c.endpoints
            else MergeEndpoint(c.endpoints, Endpoint(o.address, o.port, o.observedAt, o.observedAt))
  {
    hide SortTexts, AddGiven, MergeEndpoint, NamesFor;
  }

  lemma AbsorbTimes(c: Candidate, o: Observation, configured: map<string, seq<string>>, rules: Rules)
    requires c.firstSeen != 0 && c.lastSeen != 0
    ensures GathersTimes(Absorb(c, o, configured, rules), o, {c})
  {
    hide SortTexts, MergeEndpoint, AddGiven, NamesFor;
  }

  lemma AbsorbMarks(c: Candidate, o: Observation, configured: map<string, seq<string>>, rules: Rules)
    requires Ready(c, configured, rules) && ObservationOk(o, rules) && ConfiguredOk(configured, rules)
    requires Compatible(c, o)
    ensures GathersMarks(Absorb(c, o, configured, rules), o, c, {c}, configured)
  {
    AbsorbOk(c, o, configured, rules);
    hide SortTexts, MergeEndpoint, AddGiven, NamesFor, TextsOk, ValidId, ObservationOk, ConfiguredOk, HasIdentity;
    var c' := Absorb(c, o, configured, rules);
    assert c'.configuredNames == NamesFor(configured, c'.fingerprint);
    assert c in {c};
  }

  lemma AbsorbTexts(c: Candidate, o: Observation, configured: map<string, seq<string>>, rules: Rules)
    ensures GathersTexts(Absorb(c, o, configured, rules), o, {c}, rules)
  {
    GivenTextGathers(c, NAMES, o.name, rules.fold);
    GivenTextGathers(c, HOSTNAMES, o.hostname, rules.fold);
    GivenTextGathers(c, SOURCES, o.source, EXACT);
    hide SortTexts, AddGiven, Gathers, MergeEndpoint;
  }

  lemma AbsorbPlaces(c: Candidate, o: Observation, configured: map<string, seq<string>>, rules: Rules)
    ensures GathersPlaces(Absorb(c, o, configured, rules), o, {c})
  {
    MergedPlaces(c.endpoints, Endpoint(o.address, o.port, o.observedAt, o.observedAt));
    hide SortTexts, AddGiven, MergeEndpoint, HasEndpoint;
    var c' := Absorb(c, o, configured, rules);
    forall e
      ensures e in c.endpoints ==> HasEndpoint(c.endpoints, e.address, e.port)
      ensures e in c'.endpoints ==> HasEndpoint(c'.endpoints, e.address, e.port)
    {
      ListedPlace(c.endpoints, e);
      ListedPlace(c'.endpoints, e);
    }
  }

  lemma FoldGathers(c: Candidate, p: Candidate, o: Observation, base: Candidate, parts: set<Candidate>,
                    configured: map<string, seq<string>>, rules: Rules)
    requires Gathered(c, o, base, parts, configured, rules) && base in parts
    requires EntryOk(c, configured, rules) && EntryOk(p, configured, rules)
    ensures Gathered(MergeCandidates(c, p, rules), o, base, parts + {p}, configured, rules)
  {
    FoldTexts(c, p, o, parts, rules);
    FoldPlaces(c, p, o, parts, rules);
    FoldSpans(c, p, o, parts, rules);
    FoldTimes(c, p, o, parts, rules);
    FoldMarks(c, p, o, base, parts, configured, rules);
    hide GathersTimes, GathersMarks, GathersTexts, GathersPlaces, GathersSpans, MergeCandidates, EntryOk;
  }

  lemma FoldTexts(c: Candidate, p: Candidate, o: Observation, parts: set<Candidate>, rules: Rules)
    requires GathersTexts(c, o, parts, rules)
    ensures GathersTexts(MergeCandidates(c, p, rules), o, parts + {p}, rules)
  {
    MoreTextsGather(c.names, o.name, parts, p, NAMES, rules.fold);
    MoreTextsGather(c.hostnames, o.hostname, parts, p, HOSTNAMES, rules.fold);
    MoreTextsGather(c.sources, o.source, parts, p, SOURCES, EXACT);
    hide SortTexts, AddAll, Gathers, MergeEndpoints;
  }

  lemma FoldPlaces(c: Candidate, p: Candidate, o: Observation, parts: set<Candidate>, rules: Rules)
    requires GathersPlaces(c, o, parts)
    ensures GathersPlaces(MergeCandidates(c, p, rules), o, parts + {p})
  {
    AllMergedPlaces(c.endpoints, p.endpoints);
    var c' := MergeCandidates(c, p, rules);
    hide SortTexts, AddAll, MergeEndpoints;
    forall e | e in c'.endpoints
      ensures (e.address == o.address && e.port == o.port) ||
              exists q :: q in parts + {p} && HasEndpoint(q.endpoints, e.address, e.port)
    {
      ListedPlace(c'.endpoints, e);
      if HasEndpoint(c.endpoints, e.address, e.port) {
        var i :| 0 <= i < |c.endpoints| && c.endpoints[i].address == e.address && c.endpoints[i].port == e.port;
        assert c.endpoints[i] in c.endpoints;
      } else {
        assert p in parts + {p};
      }
    }
    forall e
      ensures e in p.endpoints ==> HasEndpoint(p.endpoints, e.address, e.port)
    {
      ListedPlace(p.endpoints, e);
    }
  }

  lemma FoldSpans(c: Candidate, p: Candidate, o: Observation, parts: set<Candidate>, rules: Rules)
    requires GathersSpans(c, o, parts)
    ensures GathersSpans(MergeCandidates(c, p, rules), o, parts + {p})
  {
    hide SortTexts, AddAll, MergeEndpoints, Summarises, Dated;
    if forall q :: q in parts + {p} ==> Dated(q.endpoints) {
      assert p in parts + {p} && forall q :: q in parts ==> q in parts + {p};
      AllMergedSpans(c.endpoints, p.endpoints, Sightings(o, parts));
      assert Sightings(o, parts + {p}) == Sightings(o, parts) + set e | e in p.endpoints;
    }
  }

  lemma FoldTimes(c: Candidate, p: Candidate, o: Observation, parts: set<Candidate>, rules: Rules)
    requires GathersTimes(c, o, parts) && c.firstSeen != 0 && c.lastSeen != 0
    ensures GathersTimes(MergeCandidates(c, p, rules), o, parts + {p})
  {
    hide SortTexts, AddAll, MergeEndpoints;
    assert p in parts + {p};
  }

  lemma FoldMarks(c: Candidate, p: Candidate, o: Observation, base: Candidate, parts: set<Candidate>,
                  configured: map<string, seq<string>>, rules: Rules)
    requires GathersMarks(c, o, base, parts, configured) && base in parts
    requires StateOk(c) && StateOk(p)
    ensures GathersMarks(MergeCandidates(c, p, rules), o, base, parts + {p}, configured)
  {
    hide SortTexts, AddAll, MergeEndpoints, NamesFor;
    var c' := MergeCandidates(c, p, rules);
    assert p in parts + {p};
    if p.state != Ignored {
      assert (exists q :: q in parts + {p} && q.state == Ignored) <==> exists q :: q in parts && q.state == Ignored;
    }
  }

  /** The entries named by a list of aliases. */
  function Named(ids: seq<string>, entries: map<string, Candidate>): set<Candidate> {
    set id | id in ids && id in entries :: entries[id]
  }

  lemma {:induction false} FoldInGathers(c: Candidate, ids: seq<string>, entries: map<string, Candidate>,
                                         o: Observation, base: Candidate, configured: map<string, seq<string>>,
                                         rules: Rules)
    requires Gathered(c, o, base, {base}, configured, rules)
    requires EntryOk(c, configured, rules) && EntriesOk(entries, configured, rules)
    ensures Gathered(FoldIn(c, ids, entries, rules), o, base, {base} + Named(ids, entries), configured, rules)
  {
    hide Gathered, EntryOk, MergeCandidates;
    if ids != [] {
      var k := |ids| - 1;
      FoldInGathers(c, ids[..k], entries, o, base, configured, rules);
      FoldInOk(c, ids[..k], entries, configured, rules);
      assert forall id :: id in ids <==> id in ids[..k] || id == ids[k];
      if ids[k] in entries {
        FoldGathers(FoldIn(c, ids[..k], entries, rules), entries[ids[k]], o, base, {base} + Named(ids[..k], entries),
                    configured, rules);
        assert {base} + Named(ids, entries) == {base} + Named(ids[..k], entries) + {entries[ids[k]]};
      } else {
        assert Named(ids, entries) == Named(ids[..k], entries);
      }
    } else {
      assert {base} + Named(ids, entries) == {base};
    }
  }

  lemma SettleGathers(r: Round, c: Candidate, o: Observation, matches: set<string>, created: bool,
                      evictedIds: seq<string>, configured: map<string, seq<string>>, rules: Rules)
    requires EntriesOk(r.entries, configured, rules) && ConfiguredOk(configured, rules) && ObservationOk(o, rules)
    requires Ready(c, configured, rules) && Compatible(c, o)
    ensures var r' := Settle(r, c, o, matches, created, evictedIds, configured, rules);
            && r'.results != [] && LastResult(r').candidate.Some?
            && Gathered(LastResult(r').candidate.value, o, c, {c} + Named(LastResult(r').mergedIds, r.entries),
                        configured, rules)
  {
    var c1 := Absorb(c, o, configured, rules);
    AbsorbOk(c, o, configured, rules);
    AbsorbGathers(c, o, configured, rules);
    FoldInGathers(c1, Ascending(Aliases(r.entries, matches, c1)), r.entries, o, c, configured, rules);
    hide Absorb, FoldIn, EntryOk, Ready, EntriesOk, ConfiguredOk, ObservationOk, Aliases, Ascending, Gathered, Named;
  }

  /** The entry an observation was for: the one there, or an empty one just created for it. */
  function BaseOf(before: map<string, Candidate>, res: IngestResult, at: int): Candidate
    requires res.candidate.Some?
  {
    var id := res.candidate.value.id;
    if id in before then before[id] else NewCandidate(id, at)
  }

  /** That entry and the aliases folded into it. */
  function PartsOf(before: map<string, Candidate>, res: IngestResult, at: int): set<Candidate>
    requires res.candidate.Some?
  {
    {BaseOf(before, res, at)} + Named(res.mergedIds, before)
  }

  lemma EndingGathers(r: Round, r': Round, base: Round, c: Candidate, o: Observation, newId: Option<string>,
                      evictedIds: seq<string>, configured: map<string, seq<string>>, env: Env)
    requires IngestEnds(r, r', base, c, o, newId, evictedIds, configured, env)
    requires ConfiguredOk(configured, env.rules) && ObservationOk(o, env.rules)
    requires Chosen(r.entries, o, env.rules).None? && newId.Some? ==> c == NewCandidate(newId.value, o.observedAt)
    ensures r'.results != [] && LastResult(r').candidate.Some?
    ensures var res := LastResult(r');
            Gathered(res.candidate.value, o, BaseOf(r.entries, res, o.observedAt),
                     PartsOf(r.entries, res, o.observedAt), configured, env.rules)
  {
    EndingShape(r, r', base, c, o, newId, evictedIds, configured, env);
    EndingAccounts(r, r', base, c, o, newId, evictedIds, configured, env);
    EndingFacts(r, r', base, c, o, newId, evictedIds, configured, env);
    var res := LastResult(r');
    assert EntriesOk(base.entries, configured, env.rules) && Ready(c, configured, env.rules) && Compatible(c, o) by {
      hide Ready, EntriesOk, Settle, SettledBy, MadeRoom, Chosen, Matches;
    }
    SettleGathers(base, c, o, Matches(r.entries, o, env.rules), Chosen(r.entries, o, env.rules).None?, evictedIds,
                  configured, env.rules);
    assert r' == Settle(base, c, o, Matches(r.entries, o, env.rules), Chosen(r.entries, o, env.rules).None?, evictedIds,
                        configured, env.rules);
    hide IngestEnds, Shaped, Settle, Gathered, EntriesOk, ConfiguredOk, ObservationOk, Ready, Chosen, Matches, Aliases;
    SameNamed(r.entries, evictedIds, res.mergedIds);
    assert c == BaseOf(r.entries, res, o.observedAt);
  }

  lemma SameNamed(before: map<string, Candidate>, evictedIds: seq<string>, merged: seq<string>)
    requires forall id :: id in evictedIds ==> id !in merged
    ensures Named(merged, before - Elements(evictedIds)) == Named(merged, before)
  {}

  /** Main theorem on one observation: the entry it leaves is gathered from the observation,
      the entry it was for, and the aliases folded into it. */
  lemma IngestGathers(r: Round, o: Observation, newId: Option<string>, configured: map<string, seq<string>>, env: Env)
    requires EntriesOk(r.entries, configured, env.rules) && ConfiguredOk(configured, env.rules)
    requires ObservationOk(o, env.rules) && FreshId(newId, r.entries)
    ensures var out := IngestStep(r, o, newId, configured, env);
            out.Some? && out.value.results != [] && LastResult(out.value).candidate.Some? ==>
              var res := LastResult(out.value);
              Gathered(res.candidate.value, o, BaseOf(r.entries, res, o.observedAt),
                       PartsOf(r.entries, res, o.observedAt), configured, env.rules)
  {
    var out := IngestStep(r, o, newId, configured, env);
    var base, c, evictedIds := IngestCases(r, o, newId, configured, env);
    if out.Some? && out.value != Dropped(r, o) {
      EndingGathers(r, out.value, base, c, o, newId, evictedIds, configured, env);
    }
    hide IngestStep, EntriesOk, ConfiguredOk, ObservationOk, IngestEnds, Gathered, Evictable;
  }
}
