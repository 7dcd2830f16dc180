/** Observations and candidates of the discovery inbox: the text rules they pass, the
    invariant a saved candidate must meet, and the merging of one into another. */
module InboxData {
  import opened PlainText
  import opened TextOrder
  import opened Shared

  /** Library rules the inbox relies on: Unicode case folding, the parse-and-print of a
      fingerprint and of an address, and the characters of category C. */
  datatype Rules = Rules(fold: (string, string) -> bool, fingerprint: string -> Option<string>,
                         address: string -> Option<string>, control: char -> bool)

  /** Printing what was parsed gives something that parses to itself, and is not empty. */
  ghost predicate Canonical(parse: string -> Option<string>) {
    forall v :: parse(v).Some? ==> parse(v).value != "" && parse(parse(v).value) == parse(v)
  }

  ghost predicate Lawful(rules: Rules) {
    Canonical(rules.fingerprint) && Canonical(rules.address)
  }

  /** Times count nanoseconds; 0 is the zero time. */
  datatype Observation = Observation(source: string, observedAt: int, name: string, hostname: string, address: string,
                                     port: int,
                                     fingerprint: string, keyType: string, evidence: string)

  /** `BadState` stands for any text of a saved file that is none of the review states. */
  datatype ReviewState = Discovered | IdentityPending | Verified | Ignored | BadState

  datatype Endpoint = Endpoint(address: string, port: int, firstSeen: int, lastSeen: int)

  datatype Candidate = Candidate(
    id: string,
    state: ReviewState,
    fingerprint: string,
    keyType: string,
    names: seq<string>,
    hostnames: seq<string>,
    endpoints: seq<Endpoint>,
    sources: seq<string>,
    lastEvidence: string,
    configuredNames: seq<string>,
    firstSeen: int,
    lastSeen: int,
    verifiedAt: Option<int>,
    ignoredAt: Option<int>)

  // ---------------------------------------------------------------------------------
  // Normalisation.

  function NormalizePlain(value: string, max: nat, rules: Rules): Option<string> {
    var v := TrimSpace(value);
    if v == "" || Utf8Length(v) > max || exists i :: 0 <= i < |v| && rules.control(v[i]) then None else Some(v)
  }

  predicate Plain(value: string, max: nat, rules: Rules) {
    NormalizePlain(value, max, rules) == Some(value)
  }

  lemma NormalizedIsPlain(value: string, max: nat, rules: Rules)
    ensures NormalizePlain(value, max, rules).Some? ==> Plain(NormalizePlain(value, max, rules).value, max, rules)
  {
    TrimSpaceTrims(value);
    TrimSpaceTrims(TrimSpace(value));
  }

  function Optional(value: string, normalized: Option<string>): Option<string> {
    if value == "" then Some("") else normalized
  }

  predicate EndsInDot(s: string) {
    s != "" && s[|s| - 1] == '.'
  }

  function TrimOneDot(s: string): string {
    if EndsInDot(s) then s[..|s| - 1] else s
  }

  function NormalizeHostname(value: string, rules: Rules): Option<string> {
    NormalizePlain(TrimOneDot(TrimSpace(value)), 253, rules)
  }

  const FIVE_MINUTES := 300_000_000_000

  function NormalizeObservation(o: Observation, now: int, rules: Rules): Option<Observation> {
    var source := NormalizePlain(o.source, 64, rules);
    var name := Optional(o.name, NormalizePlain(o.name, 256, rules));
    var hostname := Optional(o.hostname, NormalizeHostname(o.hostname, rules));
    var address := Optional(o.address, rules.address(TrimSpace(o.address)));
    var port := if o.port == 0 then 22 else o.port;
    var fingerprint := Optional(o.fingerprint, rules.fingerprint(o.fingerprint));
    var keyType := Optional(o.keyType, NormalizePlain(o.keyType, 128, rules));
    var evidence := Optional(o.evidence, NormalizePlain(o.evidence, 256, rules));
    if source.None? || name.None? || hostname.None? || address.None? || fingerprint.None? || keyType.None? ||
       evidence.None?
       || (o.observedAt != 0 && o.observedAt > now + FIVE_MINUTES)
       || port < 1 || port > 65535
       || (name.value == "" && hostname.value == "" && address.value == "" && fingerprint.value == "")
    then None
    else Some(Observation(source.value, if o.observedAt == 0 then now else o.observedAt, name.value, hostname.value,
                          address.value, port,
                          fingerprint.value, keyType.value, evidence.value))
  }

  predicate EmptyOrPlain(value: string, max: nat, rules: Rules) {
    value == "" || Plain(value, max, rules)
  }

  predicate CanonicalFingerprint(value: string, rules: Rules) {
    value == "" || rules.fingerprint(value) == Some(value)
  }

  /** What normalisation guarantees. */
  predicate ObservationOk(o: Observation, rules: Rules) {
    && Plain(o.source, 64, rules)
    && EmptyOrPlain(o.name, 256, rules) && EmptyOrPlain(o.hostname, 253, rules)
    && EmptyOrPlain(o.keyType, 128, rules) && EmptyOrPlain(o.evidence, 256, rules)
    && (o.address == "" || rules.address(o.address) == Some(o.address))
    && CanonicalFingerprint(o.fingerprint, rules)
    && 1 <= o.port <= 65535 && o.observedAt != 0
    && (o.name != "" || o.hostname != "" || o.address != "" || o.fingerprint != "")
  }

  lemma NormalizedObservationIsOk(o: Observation, now: int, rules: Rules)
    requires Lawful(rules) && now != 0
    ensures NormalizeObservation(o, now, rules).Some? ==>
              ObservationOk(NormalizeObservation(o, now, rules).value, rules)
  {
    NormalizedIsPlain(o.source, 64, rules);
    NormalizedIsPlain(o.name, 256, rules);
    NormalizedIsPlain(TrimOneDot(TrimSpace(o.hostname)), 253, rules);
    NormalizedIsPlain(o.keyType, 128, rules);
    NormalizedIsPlain(o.evidence, 256, rules);
    hide NormalizePlain, TrimSpace;
  }

  // ---------------------------------------------------------------------------------
  // What a saved candidate must satisfy.

  predicate HexDigit(c: char) {
    '0' <= c <= '9' || 'a' <= c <= 'f' || 'A' <= c <= 'F'
  }

  predicate ValidId(id: string) {
    |id| == 37 && id[..5] == "cand_" && forall i :: 5 <= i < 37 ==> HexDigit(id[i])
  }

  /** How state, fingerprint and review marks fit together. */
  predicate StateOk(c: Candidate) {
    && c.state != BadState
    && (c.state == Discovered ==> c.fingerprint == "")
    && (c.state == IdentityPending || c.state == Verified ==> c.fingerprint != "")
    && (c.state == Ignored <==> c.ignoredAt.Some?)
    && (c.configuredNames != [] ==> c.fingerprint != "")
  }

  predicate HasIdentity(c: Candidate) {
    c.fingerprint != "" || c.names != [] || c.hostnames != [] || c.endpoints != []
  }

  predicate TimesOk(c: Candidate) {
    && c.firstSeen != 0 && c.lastSeen != 0 && c.firstSeen <= c.lastSeen
    && c.verifiedAt != Some(0) && c.ignoredAt != Some(0)
  }

  predicate AllPlain(values: seq<string>, max: nat, rules: Rules) {
    forall x :: x in values ==> Plain(x, max, rules)
  }

  predicate EndpointOk(e: Endpoint, rules: Rules) {
    && rules.address(e.address) == Some(e.address) && 1 <= e.port <= 65535
    && e.firstSeen != 0 && e.firstSeen <= e.lastSeen
  }

  predicate EndpointsOk(endpoints: seq<Endpoint>, rules: Rules) {
    forall e :: e in endpoints ==> EndpointOk(e, rules)
  }

  predicate TextsOk(c: Candidate, rules: Rules) {
    && CanonicalFingerprint(c.fingerprint, rules)
    && AllPlain(c.names, 256, rules) && AllPlain(c.hostnames, 253, rules) && AllPlain(c.sources, 64, rules)
    && AllPlain(c.configuredNames, 128, rules)
    && EmptyOrPlain(c.keyType, 128, rules) && EmptyOrPlain(c.lastEvidence, 256, rules)
    && EndpointsOk(c.endpoints, rules)
  }

  /** Everything a reopened inbox demands of a candidate except undotted host names. */
  predicate CandidateOk(c: Candidate, rules: Rules) {
    ValidId(c.id) && StateOk(c) && HasIdentity(c) && TimesOk(c) && TextsOk(c, rules)
  }

  predicate Undotted(c: Candidate) {
    forall h :: h in c.hostnames ==> !EndsInDot(h)
  }

  predicate ValidCandidate(c: Candidate, rules: Rules) {
    CandidateOk(c, rules) && Undotted(c)
  }

  // ---------------------------------------------------------------------------------
  // Merging.

  function Earlier(a: int, b: int): int {
    if a == 0 || b < a then b else a
  }

  function Later(a: int, b: int): int {
    if a == 0 || b > a then b else a
  }

  const EXACT: (string, string) -> bool := (a: string, b: string) => a == b

  predicate Has(values: seq<string>, value: string, same: (string, string) -> bool) {
    exists i :: 0 <= i < |values| && same(values[i], value)
  }

  function Add(values: seq<string>, value: string, same: (string, string) -> bool): seq<string> {
    if Has(values, value, same) then values else values + [value]
  }

  function AddAll(values: seq<string>, more: seq<string>, same: (string, string) -> bool): seq<string> {
    if more == [] then values else Add(AddAll(values, more[..|more| - 1], same), more[|more| - 1], same)
  }

  /** The empty text stands for a missing field. */
  function AddGiven(values: seq<string>, value: string, same: (string, string) -> bool): seq<string> {
    if value == "" then values else Add(values, value, same)
  }

  predicate SamePlace(a: Endpoint, b: Endpoint) {
    a.address == b.address && a.port == b.port
  }

  function Widen(e: Endpoint, incoming: Endpoint): Endpoint {
    e.(firstSeen := Earlier(e.firstSeen, incoming.firstSeen), lastSeen := Later(e.lastSeen, incoming.lastSeen))
  }

  const BY_PLACE: (Endpoint, Endpoint) -> bool :=
    (a: Endpoint, b: Endpoint) => if a.address == b.address then a.port <= b.port else AtMost(a.address, b.address)

  /** The first endpoint at the same place, or the length. */
  function PlaceOf(endpoints: seq<Endpoint>, e: Endpoint): (i: nat)
    ensures i <= |endpoints| && (i < |endpoints| ==> SamePlace(endpoints[i], e))
  {
    if endpoints == [] || SamePlace(endpoints[0], e) then 0 else 1 + PlaceOf(endpoints[1..], e)
  }

  function MergeEndpoint(endpoints: seq<Endpoint>, e: Endpoint): seq<Endpoint> {
    var i := PlaceOf(endpoints, e);
    if i < |endpoints| then endpoints[i := Widen(endpoints[i], e)] else SortBy(endpoints + [e], BY_PLACE)
  }

  function MergeEndpoints(endpoints: seq<Endpoint>, more: seq<Endpoint>): seq<Endpoint> {
    if more == [] then endpoints else MergeEndpoint(MergeEndpoints(endpoints, more[..|more| - 1]), more[|more| - 1])
  }

  function MergeObservation(c: Candidate, o: Observation, rules: Rules): Candidate {
    c.(firstSeen := Earlier(c.firstSeen, o.observedAt),
       lastSeen := Later(c.lastSeen, o.observedAt),
       names := SortTexts(AddGiven(c.names, o.name, rules.fold)),
       hostnames := SortTexts(AddGiven(c.hostnames, o.hostname, rules.fold)),
       sources := SortTexts(AddGiven(c.sources, o.source, EXACT)),
       endpoints := if o.address == "" then c.endpoints
                    else MergeEndpoint(c.endpoints, Endpoint(o.address, o.port, o.observedAt, o.observedAt)),
       keyType := if o.keyType == "" then c.keyType else o.keyType,
       lastEvidence := if o.evidence == "" then c.lastEvidence else o.evidence)
  }

  function MergeCandidates(target: Candidate, source: Candidate, rules: Rules): Candidate {
    target.(firstSeen := Earlier(target.firstSeen, source.firstSeen),
            lastSeen := Later(target.lastSeen, source.lastSeen),
            names := SortTexts(AddAll(target.names, source.names, rules.fold)),
            hostnames := SortTexts(AddAll(target.hostnames, source.hostnames, rules.fold)),
            sources := SortTexts(AddAll(target.sources, source.sources, EXACT)),
            endpoints := MergeEndpoints(target.endpoints, source.endpoints),
            state := if source.state == Ignored then Ignored else target.state,
            ignoredAt := if source.state == Ignored then source.ignoredAt else target.ignoredAt,
            lastEvidence := if target.lastEvidence == "" then source.lastEvidence else target.lastEvidence)
  }

  lemma {:induction false} AddAllFrom(values: seq<string>, more: seq<string>, same: (string, string) -> bool)
    ensures values <= AddAll(values, more, same)
    ensures forall x :: x in AddAll(values, more, same) ==> x in values || x in more
    ensures forall y :: y in more ==> y in AddAll(values, more, same) || Has(AddAll(values, more, same), y, same)
  {
    if more != [] {
      var k := |more| - 1;
      var before := AddAll(values, more[..k], same);
      AddAllFrom(values, more[..k], same);
      forall y | y in more
        ensures y in AddAll(values, more, same) || Has(AddAll(values, more, same), y, same)
      {
        if y in more[..k] {
          if Has(before, y, same) {
            var i :| 0 <= i < |before| && same(before[i], y);
            assert same(AddAll(values, more, same)[i], y);
          }
        } else {
          assert y == more[k];
        }
      }
    }
  }

  lemma SortedTextsFrom(values: seq<string>)
    ensures forall x :: x in SortTexts(values) <==> x in values
    ensures values == [] <==> SortTexts(values) == []
  {
    SortKeepsAll(values, BY_TEXT);
    if values != [] {
      assert values[0] in SortTexts(values);
    }
  }

  lemma MergeEndpointOk(endpoints: seq<Endpoint>, e: Endpoint, rules: Rules)
    requires EndpointsOk(endpoints, rules) && EndpointOk(e, rules)
    ensures EndpointsOk(MergeEndpoint(endpoints, e), rules) && MergeEndpoint(endpoints, e) != []
  {
    SortKeepsAll(endpoints + [e], BY_PLACE);
    assert e in endpoints + [e];
  }

  lemma {:induction false} MergeEndpointsOk(endpoints: seq<Endpoint>, more: seq<Endpoint>, rules: Rules)
    requires EndpointsOk(endpoints, rules) && EndpointsOk(more, rules)
    ensures EndpointsOk(MergeEndpoints(endpoints, more), rules)
    ensures endpoints != [] || more != [] ==> MergeEndpoints(endpoints, more) != []
  {
    if more != [] {
      var k := |more| - 1;
      MergeEndpointsOk(endpoints, more[..k], rules);
      MergeEndpointOk(MergeEndpoints(endpoints, more[..k]), more[k], rules);
    }
  }

  /** A new candidate has no text yet and takes its times from the observation. */
  predicate Mergeable(c: Candidate, rules: Rules) {
    ValidId(c.id) && StateOk(c) && TimesOk(c) && TextsOk(c, rules)
  }

  lemma MergeObservationTexts(c: Candidate, o: Observation, rules: Rules)
    requires TextsOk(c, rules) && ObservationOk(o, rules)
    ensures TextsOk(MergeObservation(c, o, rules), rules)
    ensures forall h :: h in MergeObservation(c, o, rules).hostnames ==> h in c.hostnames || h == o.hostname
  {
    SortedTextsFrom(AddGiven(c.names, o.name, rules.fold));
    SortedTextsFrom(AddGiven(c.hostnames, o.hostname, rules.fold));
    SortedTextsFrom(AddGiven(c.sources, o.source, EXACT));
    hide SortTexts, MergeEndpoint, Plain, EndpointsOk, Has;
    if o.address != "" {
      ObservedEndpointOk(o, rules);
      MergeEndpointOk(c.endpoints, Endpoint(o.address, o.port, o.observedAt, o.observedAt), rules);
    }
  }

  lemma ObservedEndpointOk(o: Observation, rules: Rules)
    requires ObservationOk(o, rules) && o.address != ""
    ensures EndpointOk(Endpoint(o.address, o.port, o.observedAt, o.observedAt), rules)
  {
    hide Plain;
  }

  /** A merged observation leaves something to recognise the candidate by. */
  lemma MergeObservationIdentifies(c: Candidate, o: Observation, rules: Rules)
    requires ObservationOk(o, rules) && (o.fingerprint == "" || o.fingerprint == c.fingerprint)
    requires EndpointsOk(c.endpoints, rules)
    ensures HasIdentity(MergeObservation(c, o, rules))
  {
    SortedTextsFrom(AddGiven(c.names, o.name, rules.fold));
    SortedTextsFrom(AddGiven(c.hostnames, o.hostname, rules.fold));
    hide SortTexts, MergeEndpoint, Plain, EndpointsOk;
    if o.address != "" {
      ObservedEndpointOk(o, rules);
      MergeEndpointOk(c.endpoints, Endpoint(o.address, o.port, o.observedAt, o.observedAt), rules);
    }
  }

  lemma MergeObservationOk(c: Candidate, o: Observation, rules: Rules)
    requires Mergeable(c, rules) && ObservationOk(o, rules)
    requires o.fingerprint == "" || o.fingerprint == c.fingerprint
    ensures CandidateOk(MergeObservation(c, o, rules), rules)
    ensures forall h :: h in MergeObservation(c, o, rules).hostnames ==> h in c.hostnames || h == o.hostname
  {
    MergeObservationTexts(c, o, rules);
    MergeObservationIdentifies(c, o, rules);
    hide SortTexts, MergeEndpoint, Plain, EndpointsOk, ValidId, HasIdentity, AddGiven, AllPlain;
  }

  lemma MergeCandidatesOk(target: Candidate, source: Candidate, rules: Rules)
    requires CandidateOk(target, rules) && CandidateOk(source, rules)
    ensures CandidateOk(MergeCandidates(target, source, rules), rules)
    ensures forall h :: h in MergeCandidates(target, source, rules).hostnames ==>
              h in target.hostnames || h in source.hostnames
  {
    AddAllFrom(target.names, source.names, rules.fold);
    AddAllFrom(target.hostnames, source.hostnames, rules.fold);
    AddAllFrom(target.sources, source.sources, EXACT);
    SortedTextsFrom(AddAll(target.names, source.names, rules.fold));
    SortedTextsFrom(AddAll(target.hostnames, source.hostnames, rules.fold));
    SortedTextsFrom(AddAll(target.sources, source.sources, EXACT));
    MergeEndpointsOk(target.endpoints, source.endpoints, rules);
    hide SortTexts, AddAll, MergeEndpoints, Plain, EndpointOk, ValidId;
  }
}
