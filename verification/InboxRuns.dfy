/** Every run of the inbox: discovery rounds, decisions, reconfigurations and expiry in any
    order, with failed saves, crashes and restarts. */
module InboxRuns {
  import opened Shared
  import opened InboxData
  import opened InboxSteps
  import opened InboxInvariant
  import opened InboxIngest
  import opened InboxBatches
  import opened InboxOperations
  import opened InboxReopen

  /** `stored` is the state the file was last written from, `known` holds every identifier
      ever drawn, `published` every event this process has published. */
  datatype Life = Life(index: Index, stored: Option<Index>, known: set<string>, published: seq<Event>)

  datatype Step =
    | Ingest(raw: seq<Observation>, ids: seq<Option<string>>, now: int, save: SaveOutcome)
    | Review(id: string, d: Decision, now: int, save: SaveOutcome)
    | Configure(items: seq<Configured>, order: seq<string>, now: int, save: SaveOutcome)
    | Expire(now: int, save: SaveOutcome)
    | Restart

  function Drawn(ids: seq<Option<string>>): set<string> {
    Used(ids, |ids|)
  }

  ghost predicate Possible(w: Life, a: Step, env: Env) {
    match a
    case Ingest(raw, ids, now, save) => |ids| == |raw| && FreshIds(ids, w.known) && now != 0
    case Review(id, d, now, save) => now != 0
    case Configure(items, order, now, save) => Visits(order, w.index.entries) && now != 0
    case Expire(now, save) => true
    case Restart => Reopen(w.index.file, env).Some?
  }

  /** What an operation changes; none when it is refused or has nothing to do. */
  ghost function ChangeOf(w: Life, a: Step, env: Env): Option<Change>
    requires Possible(w, a, env)
  {
    match a
    case Ingest(raw, ids, now, save) =>
      if raw == [] || IngestChange(w.index, raw, ids, now, env).None? then None
      else Some(RoundChange(w.index, IngestChange(w.index, raw, ids, now, env).value))
    case Review(id, d, now, save) => ReviewChange(w.index, id, d, now)
    case Configure(items, order, now, save) =>
      if Described(items, env.rules).None? then None
      else
        var change := ConfigureChange(w.index, Described(items, env.rules).value, order, now);
        if change.pending == [] && change.next.configured == w.index.configured then None else Some(change)
    case Expire(now, save) =>
      if Expired(w.index.entries, now, env.ttl) == {} then None else Some(ExpireChange(w.index, now, env.ttl))
    case Restart => None
  }

  function NewIds(a: Step): set<string> {
    if a.Ingest? then Drawn(a.ids) else {}
  }

  ghost function Attempted(w: Life, change: Change, save: SaveOutcome, known: set<string>, env: Env): Life {
    Life(Commit(w.index, change, save, env),
         if env.persistent && save != FailedKeptOld then Some(change.next) else w.stored,
         known,
         if Succeeds(save, env) then w.published + change.pending else w.published)
  }

  ghost function Next(w: Life, a: Step, env: Env): Life
    requires Possible(w, a, env)
  {
    if a.Restart? then Life(Reopen(w.index.file, env).value, w.stored, w.known, [])
    else match ChangeOf(w, a, env)
      case None => w.(known := w.known + NewIds(a))
      case Some(change) => Attempted(w, change, a.save, w.known + NewIds(a), env)
  }

  const FIRST_LIFE := Life(EMPTY_INDEX, None, {}, [])

  /** A run: the states it passes through and the steps between them. */
  ghost predicate Run(states: seq<Life>, steps: seq<Step>, env: Env) {
    && |states| == |steps| + 1 && states[0] == FIRST_LIFE
    && forall i :: 0 <= i < |steps| ==>
         Possible(states[i], steps[i], env) && states[i + 1] == Next(states[i], steps[i], env)
  }

  /** What holds between operations, in memory and on disk. */
  ghost predicate LifeOk(w: Life, env: Env) {
    Inv(w.index, env) && w.index.entries.Keys <= w.known && Told(w, env) && Filed(w, env)
  }

  /** The retained events are the latest of a gap-free history. */
  ghost predicate Told(w: Life, env: Env) {
    w.index.events == Latest(w.published, env.maxEvents) && Gapless(w.published, w.index.sequence)
  }

  ghost predicate Filed(w: Life, env: Env) {
    && w.index.file == (if w.stored.Some? then Some(DiskOf(w.stored.value)) else None)
    && (if w.stored.Some? then env.persistent && StoredOk(w.index, w.stored.value, w.known, env)
        else !env.persistent || w.index.sequence == 0)
  }

  /** The file lags behind or runs ahead of memory, but never behind its event numbers, and
      never contradicts its identities. */
  ghost predicate StoredOk(s: Index, stored: Index, known: set<string>, env: Env) {
    ContentOk(stored, env) && stored.entries.Keys <= known && s.sequence <= stored.sequence &&
    KeysKept(s.entries, stored.entries)
  }

  /** A change keeps identities and brings no identifier back. */
  predicate Faithful(before: map<string, Candidate>, after: map<string, Candidate>, known: set<string>,
                     drawn: set<string>) {
    && KeysKept(before, after) && after.Keys <= known + drawn
    && forall id :: id in known && id in after ==> id in before
  }

  lemma DrawnIsNew(ids: seq<Option<string>>, known: set<string>)
    requires FreshIds(ids, known)
    ensures Drawn(ids) !! known && forall s :: s <= known ==> FreshIds(ids, s)
  {
    hide ValidId;
  }

  lemma IngestIsFaithful(s: Index, raw: seq<Observation>, ids: seq<Option<string>>, known: set<string>, now: int,
                         env: Env)
    requires env.Valid() && now != 0 && Inv(s, env) && |ids| == |raw| && FreshIds(ids, known) && s.entries.Keys <= known
    ensures var out := IngestChange(s, raw, ids, now, env);
            out.Some? ==>
              ChangeOk(s, RoundChange(s, out.value), env) && Faithful(s.entries, out.value.entries, known, Drawn(ids))
  {
    hide Lawful, ConfiguredOk, WithinLimit, FreshIds, AllNormalize, StartRound, IngestAll, ChangeOk, BatchReady, Used;
    hide Inv;
    DrawnIsNew(ids, known);
    IngestIsOk(s, raw, ids, s.entries.Keys, now, env);
    if IngestChange(s, raw, ids, now, env).Some? {
      var start := StartRound(s, now, env.ttl);
      var os := NormalizeAll(raw, now, env.rules);
      NormalizedBatchIsOk(raw, now, env.rules);
      StartKeys(s, now, env.ttl);
      RoundStarts(s, os, ids, start.entries.Keys, now, env);
      RoundKeepsKeys(start, os, ids, |raw|, start.entries.Keys, s.configured, env);
      PrefixOk(start, os, ids, |raw|, start.entries.Keys, s.configured, env);
    }
  }

  /** The round starts from entries that were there before it, unchanged. */
  lemma StartKeys(s: Index, now: int, ttl: int)
    ensures var start := StartRound(s, now, ttl).entries;
            start.Keys <= s.entries.Keys && forall id :: id in start ==> start[id] == s.entries[id]
  {}

  lemma ReviewIsFaithful(s: Index, id: string, d: Decision, now: int, known: set<string>)
    requires s.entries.Keys <= known && forall k :: k in s.entries ==> s.entries[k].id == k
    ensures var out := ReviewChange(s, id, d, now);
            out.Some? ==> Faithful(s.entries, out.value.next.entries, known, {})
  {}

  lemma ConfigureIsFaithful(s: Index, next: map<string, seq<string>>, order: seq<string>, now: int, known: set<string>)
    requires s.entries.Keys <= known
    ensures Faithful(s.entries, ConfigureChange(s, next, order, now).next.entries, known, {})
  {
    hide ConfigurationEvents, NamesFor;
  }

  lemma ExpireIsFaithful(s: Index, now: int, ttl: int, known: set<string>)
    requires s.entries.Keys <= known
    ensures Faithful(s.entries, ExpireChange(s, now, ttl).next.entries, known, {})
  {
    hide Stale;
  }

  lemma KeyedByThemselves(s: Index, env: Env)
    requires Inv(s, env)
    ensures forall k :: k in s.entries ==> s.entries[k].id == k
  {
    hide EntryOk, Distinct;
  }

  lemma ChangeIsOk(w: Life, a: Step, env: Env)
    requires env.Valid() && LifeOk(w, env) && Possible(w, a, env)
    ensures var out := ChangeOf(w, a, env);
            out.Some? ==>
              ChangeOk(w.index, out.value, env) && Faithful(w.index.entries, out.value.next.entries, w.known, NewIds(a))
  {
    hide Lawful, ConfiguredOk, WithinLimit, FreshIds, Inv, ChangeOk, Faithful, IngestChange, ReviewChange;
    hide Described, ConfigureChange, Expired, ExpireChange, Reopen, Visits, Told, Filed, Drawn;
    match a
    case Ingest(raw, ids, now, save) => IngestIsFaithful(w.index, raw, ids, w.known, now, env);
    case Review(id, d, now, save) =>
      KeyedByThemselves(w.index, env);
      ReviewIsOk(w.index, id, d, now, env);
      ReviewIsFaithful(w.index, id, d, now, w.known);
    case Configure(items, order, now, save) =>
      if Described(items, env.rules).Some? {
        ConfigureIsOk(w.index, items, order, now, env);
        ConfigureIsFaithful(w.index, Described(items, env.rules).value, order, now, w.known);
      }
    case Expire(now, save) =>
      ExpireIsOk(w.index, now, env);
      ExpireIsFaithful(w.index, now, env.ttl, w.known);
    case Restart =>
  }

  lemma LatestOfMore(all: seq<Event>, more: seq<Event>, max: int)
    requires max > 0
    ensures Latest(Latest(all, max) + more, max) == Latest(all + more, max)
  {}

  lemma GaplessOn(events: seq<Event>, sequence: nat, pending: seq<Event>)
    requires Gapless(events, sequence) && Follows(pending, sequence)
    ensures Gapless(events + pending, sequence + |pending|)
  {}

  lemma FaithfulKnows(before: map<string, Candidate>, after: map<string, Candidate>, known: set<string>,
                      drawn: set<string>)
    requires Faithful(before, after, known, drawn)
    ensures after.Keys <= known + drawn && KeysKept(before, after) && KeysKept(after, after)
  {}

  lemma AttemptIsTold(w: Life, change: Change, save: SaveOutcome, known: set<string>, env: Env)
    requires env.maxEvents > 0 && Told(w, env) && Follows(change.pending, w.index.sequence)
    requires change.next.sequence == w.index.sequence + |change.pending|
    ensures Told(Attempted(w, change, save, known, env), env)
  {
    LatestOfMore(w.published, change.pending, env.maxEvents);
    GaplessOn(w.published, w.index.sequence, change.pending);
    hide Gapless, Latest, DiskOf;
  }

  lemma AttemptIsFiled(w: Life, change: Change, save: SaveOutcome, drawn: set<string>, env: Env)
    requires Filed(w, env) && ContentOk(change.next, env) && change.next.sequence >= w.index.sequence
    requires Faithful(w.index.entries, change.next.entries, w.known, drawn)
    ensures Filed(Attempted(w, change, save, w.known + drawn, env), env)
  {
    FaithfulKnows(w.index.entries, change.next.entries, w.known, drawn);
    hide ContentOk, DiskOf, Latest, Faithful, KeysKept;
  }

  lemma AttemptKeepsOk(w: Life, change: Change, save: SaveOutcome, drawn: set<string>, env: Env)
    requires env.maxEvents > 0 && LifeOk(w, env) && ChangeOk(w.index, change, env)
    requires Faithful(w.index.entries, change.next.entries, w.known, drawn)
    ensures LifeOk(Attempted(w, change, save, w.known + drawn, env), env)
  {
    hide Inv, ContentOk, Follows, Told, Filed, DiskOf, Latest;
    FaithfulKnows(w.index.entries, change.next.entries, w.known, drawn);
    hide Faithful, KeysKept;
    CommitKeepsInv(w.index, change, save, env);
    AttemptIsTold(w, change, save, w.known + drawn, env);
    AttemptIsFiled(w, change, save, drawn, env);
  }

  lemma ReopenedOk(stored: Index, known: set<string>, env: Env)
    requires env.persistent && env.maxEvents > 0 && ContentOk(stored, env) && stored.entries.Keys <= known
    ensures var index := Reopen(Some(DiskOf(stored)), env);
            index.Some? ==>
              LifeOk(Life(index.value, Some(stored), known, []), env) && index.value.entries == stored.entries
  {
    hide ConfiguredOk, WithinLimit, DiskOf, Reopen, AllUndotted;
    ReopenIffUndotted(stored, env);
  }

  /** A restart takes over what the file holds. */
  lemma RestartShape(w: Life, env: Env)
    requires LifeOk(w, env) && Possible(w, Restart, env)
    ensures var w' := Next(w, Restart, env);
            && w'.stored == w.stored && w'.known == w.known
            && w'.index.entries == (if w.stored.Some? then w.stored.value.entries else map[])
            && w'.index.sequence == (if w.stored.Some? then w.stored.value.sequence else 0)
  {
    hide Inv, Told, ContentOk, KeysKept, DiskOf;
    if w.stored.Some? {
      hide Reopen;
      ReopenIffUndotted(w.stored.value, env);
    }
  }

  /** An attempt leaves the old entries or the new ones, in memory and on disk. */
  lemma AttemptShape(w: Life, change: Change, save: SaveOutcome, known: set<string>, env: Env)
    ensures var w' := Attempted(w, change, save, known, env);
            && w'.known == known && w'.stored in {w.stored, Some(change.next)}
            && ((w'.index.entries == w.index.entries && w'.index.sequence == w.index.sequence) ||
                (w'.index.entries == change.next.entries && w'.index.sequence == change.next.sequence))
  {
    hide DiskOf, Latest;
  }

  lemma NextKeepsOk(w: Life, a: Step, env: Env)
    requires env.Valid() && LifeOk(w, env) && Possible(w, a, env)
    ensures LifeOk(Next(w, a, env), env)
  {
    ChangeIsOk(w, a, env);
    hide Lawful, Faithful, ChangeOk, ChangeOf, DiskOf, Told, Inv, Attempted, ConfiguredOk, WithinLimit, FreshIds;
    hide Visits, Drawn;
    if a.Restart? {
      if w.stored.Some? {
        hide Reopen;
        ReopenedOk(w.stored.value, w.known, env);
      } else {
        EmptyOk(env);
      }
    } else if ChangeOf(w, a, env).Some? {
      AttemptKeepsOk(w, ChangeOf(w, a, env).value, a.save, NewIds(a), env);
    }
  }

  lemma EmptyOk(env: Env)
    requires env.maxEntries > 0 && env.maxEvents > 0
    ensures LifeOk(FIRST_LIFE, env) && forall known :: LifeOk(FIRST_LIFE.(known := known), env)
  {
    assert EMPTY_INDEX.entries.Keys == {};
  }

  /** Every state of every run satisfies the invariant. */
  lemma {:induction false} RunKeepsOk(states: seq<Life>, steps: seq<Step>, env: Env, n: nat)
    requires env.Valid() && Run(states, steps, env) && n < |states|
    ensures LifeOk(states[n], env)
  {
    hide Lawful, LifeOk, Next, Possible;
    if n == 0 {
      EmptyOk(env);
    } else {
      RunKeepsOk(states, steps, env, n - 1);
      NextKeepsOk(states[n - 1], steps[n - 1], env);
    }
  }
}
