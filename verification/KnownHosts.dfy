/** The known_hosts file: lines appended when a key is pinned and removed when an enrollment
    is rolled back. Whole files are read, rebuilt and replaced under a lock. */
module KnownHosts {
  import opened Shared

  newtype Byte = b: int | 0 <= b < 256

  type Bytes = seq<Byte>

  const NEWLINE: Byte := 10
  const RETURN: Byte := 13
  const MAX_SIZE := 1_048_576

  /** The pieces between newlines; always at least one. */
  function Split(s: Bytes): (lines: seq<Bytes>)
    ensures |lines| >= 1
  {
    if s == [] then [[]]
    else if s[0] == NEWLINE then [[]] + Split(s[1..])
    else
      var rest := Split(s[1..]);
      [[s[0]] + rest[0]] + rest[1..]
  }

  function Join(lines: seq<Bytes>): Bytes {
    if |lines| == 0 then []
    else if |lines| == 1 then lines[0]
    else lines[0] + [NEWLINE] + Join(lines[1..])
  }

  function TrimReturns(line: Bytes): Bytes {
    if line != [] && line[|line| - 1] == RETURN then TrimReturns(line[..|line| - 1]) else line
  }

  predicate Matches(line: Bytes, target: Bytes) {
    TrimReturns(line) == target
  }

  /** A printed host-key line: not empty, one line, no trailing carriage return. */
  predicate IsLine(line: Bytes) {
    line != [] && NEWLINE !in line && line[|line| - 1] != RETURN
  }

  predicate Present(content: Bytes, target: Bytes) {
    exists i :: 0 <= i < |Split(content)| && Matches(Split(content)[i], target)
  }

  /** The content with its last line ended. */
  function Terminated(content: Bytes): Bytes {
    if content != [] && content[|content| - 1] != NEWLINE then content + [NEWLINE] else content
  }

  function Appended(content: Bytes, line: Bytes): Bytes {
    Terminated(content) + line + [NEWLINE]
  }

  function WithoutFirst(lines: seq<Bytes>, target: Bytes): seq<Bytes> {
    if lines == [] then []
    else if Matches(lines[0], target) then lines[1..]
    else [lines[0]] + WithoutFirst(lines[1..], target)
  }

  function Removed(content: Bytes, target: Bytes): Bytes {
    if Present(content, target) then Join(WithoutFirst(Split(content), target)) else content
  }

  // ---------------------------------------------------------------------------------
  // Lines.

  lemma {:induction false} JoinSplit(s: Bytes)
    ensures Join(Split(s)) == s
  {
    if s != [] {
      JoinSplit(s[1..]);
      var rest := Split(s[1..]);
      if s[0] == NEWLINE {
        assert ([[]] + rest)[1..] == rest;
        assert s == [NEWLINE] + s[1..];
      } else {
        assert Join([[s[0]] + rest[0]] + rest[1..]) == [s[0]] + Join(rest) by {
          assert ([[s[0]] + rest[0]] + rest[1..])[1..] == rest[1..];
        }
      }
    }
  }

  lemma {:induction false} SplitAt(a: Bytes, b: Bytes)
    ensures Split(a + [NEWLINE] + b) == Split(a) + Split(b)
  {
    var all := a + [NEWLINE] + b;
    if a == [] {
      assert all[1..] == b;
    } else {
      assert all[1..] == a[1..] + [NEWLINE] + b;
      SplitAt(a[1..], b);
    }
  }

  lemma {:induction false} SplitLine(line: Bytes)
    requires NEWLINE !in line
    ensures Split(line) == [line]
  {
    if line != [] {
      SplitLine(line[1..]);
      assert [line[0]] + line[1..] == line;
    }
  }

  lemma {:induction false} SplitHasNoNewlines(s: Bytes)
    ensures forall i :: 0 <= i < |Split(s)| ==> NEWLINE !in Split(s)[i]
  {
    if s != [] {
      SplitHasNoNewlines(s[1..]);
    }
  }

  lemma {:induction false} SplitJoin(lines: seq<Bytes>)
    requires lines != [] && forall i :: 0 <= i < |lines| ==> NEWLINE !in lines[i]
    ensures Split(Join(lines)) == lines
  {
    SplitLine(lines[0]);
    if |lines| > 1 {
      SplitJoin(lines[1..]);
      SplitAt(lines[0], Join(lines[1..]));
    }
  }

  lemma {:induction false} WithoutFirstSkips(before: seq<Bytes>, line: Bytes, after: seq<Bytes>, target: Bytes)
    requires Matches(line, target) && forall i :: 0 <= i < |before| ==> !Matches(before[i], target)
    ensures WithoutFirst(before + [line] + after, target) == before + after
    decreases |before|
  {
    var all := before + [line] + after;
    if before == [] {
      assert all[1..] == after;
    } else {
      assert all[1..] == before[1..] + [line] + after;
      WithoutFirstSkips(before[1..], line, after, target);
      assert before == [before[0]] + before[1..];
    }
  }

  /** A line matches if it is the target followed by carriage returns only. */
  lemma {:induction false} MatchesIff(line: Bytes, target: Bytes)
    requires target == [] || target[|target| - 1] != RETURN
    ensures Matches(line, target) <==>
            target <= line && forall k :: |target| <= k < |line| ==> line[k] == RETURN
    decreases |line|
  {
    if line != [] && line[|line| - 1] == RETURN {
      var rest := line[..|line| - 1];
      MatchesIff(rest, target);
      assert target <= line && |target| < |line| ==> target <= rest;
    }
  }

  // ---------------------------------------------------------------------------------
  // Main properties.

  /** Removal drops the first matching line and no other, and keeps the rest in order. */
  lemma RemovalDropsOneLine(content: Bytes, target: Bytes) returns (i: nat)
    requires Present(content, target)
    ensures var lines := Split(content);
            && i < |lines| && Matches(lines[i], target) && (forall j :: 0 <= j < i ==> !Matches(lines[j], target))
            && Removed(content, target) == Join(lines[..i] + lines[i + 1..])
  {
    var lines := Split(content);
    i := 0;
    while !Matches(lines[i], target)
      invariant i < |lines| && forall j :: 0 <= j < i ==> !Matches(lines[j], target)
      invariant exists k :: i <= k < |lines| && Matches(lines[k], target)
      decreases |lines| - i
    {
      i := i + 1;
    }
    WithoutFirstSkips(lines[..i], lines[i], lines[i + 1..], target);
    assert lines == lines[..i] + [lines[i]] + lines[i + 1..];
  }

  /** The lines after an append: those of the file, with its last line ended, then the new
      one, then the empty rest. */
  lemma LinesAfterAppend(content: Bytes, line: Bytes) returns (before: seq<Bytes>)
    requires IsLine(line)
    ensures Split(Appended(content, line)) == before + [line] + [[]]
    ensures Terminated(content) == Join(before + [[]])
    ensures forall l :: l in before ==> l in Split(content)
    ensures forall l :: l in Split(content) ==> l in before || l == []
  {
    var t := Terminated(content);
    SplitLine(line);
    SplitLine([]);
    SplitAt(line, []);
    assert line + [NEWLINE] + [] == line + [NEWLINE];
    if t == [] {
      before := [];
      assert Appended(content, line) == line + [NEWLINE];
    } else {
      var u := t[..|t| - 1];
      assert t == u + [NEWLINE] && u + [NEWLINE] + [] == t;
      before := Split(u);
      assert Appended(content, line) == u + [NEWLINE] + (line + [NEWLINE]);
      SplitAt(u, line + [NEWLINE]);
      SplitAt(u, []);
      JoinSplit(t);
      assert content == u || content == t;
    }
  }

  lemma LineMatchesItself(line: Bytes)
    requires IsLine(line)
    ensures Matches(line, line) && !Matches([], line)
  {}

  /** Removing a line undoes appending it: the bytes are the same again, except that the last
      line is now ended by a newline if it was not. */
  lemma RemoveUndoesAppend(content: Bytes, line: Bytes)
    requires IsLine(line) && !Present(content, line)
    ensures Present(Appended(content, line), line)
    ensures Removed(Appended(content, line), line) == Terminated(content)
  {
    var before := LinesAfterAppend(content, line);
    LineMatchesItself(line);
    var lines := Split(Appended(content, line));
    assert lines[|before|] == line;
    forall i | 0 <= i < |before|
      ensures !Matches(before[i], line)
    {
      assert before[i] in Split(content);
    }
    WithoutFirstSkips(before, line, [[]], line);
  }

  lemma {:induction false} OtherLinesKept(lines: seq<Bytes>, target: Bytes, other: Bytes)
    requires other != target
    ensures (exists l :: l in WithoutFirst(lines, target) && Matches(l, other)) <==>
              (exists l :: l in lines && Matches(l, other))
  {
    if lines != [] {
      assert lines == [lines[0]] + lines[1..];
      if !Matches(lines[0], target) {
        OtherLinesKept(lines[1..], target, other);
      }
    }
  }

  lemma PresentMeansLine(content: Bytes, target: Bytes)
    ensures Present(content, target) <==> exists l :: l in Split(content) && Matches(l, target)
  {
    if l :| l in Split(content) && Matches(l, target) {
      var i :| 0 <= i < |Split(content)| && Split(content)[i] == l;
    }
  }

  lemma {:induction false} WithoutFirstFrom(lines: seq<Bytes>, target: Bytes)
    ensures forall l :: l in WithoutFirst(lines, target) ==> l in lines
  {
    if lines != [] {
      WithoutFirstFrom(lines[1..], target);
      assert lines == [lines[0]] + lines[1..];
    }
  }

  /** Removing one line leaves the presence of every other line as it was. */
  lemma RemovalSparesOthers(content: Bytes, target: Bytes, other: Bytes)
    requires IsLine(other) && other != target
    ensures Present(Removed(content, target), other) <==> Present(content, other)
  {
    if Present(content, target) {
      var lines := Split(content);
      var kept := WithoutFirst(lines, target);
      OtherLinesKept(lines, target, other);
      PresentMeansLine(content, other);
      PresentMeansLine(Join(kept), other);
      if kept == [] {
        LineMatchesItself(other);
        assert Split([]) == [[]];
      } else {
        SplitHasNoNewlines(content);
        WithoutFirstFrom(lines, target);
        forall i | 0 <= i < |kept|
          ensures NEWLINE !in kept[i]
        {
          assert kept[i] in lines;
        }
        SplitJoin(kept);
      }
    }
  }

  /** Appending a line makes it present and leaves the presence of every other line alone. */
  lemma AppendSparesOthers(content: Bytes, line: Bytes, other: Bytes)
    requires IsLine(line) && IsLine(other)
    ensures Present(Appended(content, line), other) <==> Present(content, other) || other == line
  {
    var before := LinesAfterAppend(content, line);
    LineMatchesItself(line);
    LineMatchesItself(other);
    PresentMeansLine(content, other);
    PresentMeansLine(Appended(content, line), other);
    assert line in before + [line] + [[]];
  }

  // ---------------------------------------------------------------------------------
  // The file.

  /** What checking a key against the file says. */
  datatype Verdict = Known | UnknownHost | ChangedKey | Unreadable

  /** The key an enrollment verified; none when the host was pinned already. `verdict` judges
      any content of the file for this host and key. */
  datatype PendingKey = NoKey | PendingKey(line: Bytes, verdict: Bytes -> Verdict)

  /** A file that has the line knows the key. */
  ghost predicate Sound(pending: PendingKey) {
    pending.PendingKey? ==>
      IsLine(pending.line) && forall c :: Present(c, pending.line) ==> pending.verdict(c) != UnknownHost
  }

  /** The content after an attempt to replace it. */
  function Written(before: Bytes, after: Bytes, save: SaveOutcome): Bytes {
    if save == FailedKeptOld then before else after
  }

  /** An append that cannot read the file, or would exceed the size limit, changes nothing. */
  function AppendLine(content: Bytes, line: Bytes, readable: bool, save: SaveOutcome): (Bytes, bool) {
    if readable && |Appended(content, line)| <= MAX_SIZE
    then (Written(content, Appended(content, line), save), save == Saved)
    else (content, false)
  }

  /** `target` is none when no key was pinned. */
  function RemoveLine(content: Bytes, target: Option<Bytes>, readable: bool, save: SaveOutcome): (Bytes, bool) {
    if target.None? then (content, true)
    else if !readable then (content, false)
    else if !Present(content, target.value) then (content, true)
    else (Written(content, Removed(content, target.value), save), save == Saved)
  }

  /** The circumstances of a commit: whether the file can be read, how the write ends, and
      whether it can be read again after a failed write. */
  datatype CommitWeather = CommitWeather(readable: bool, save: SaveOutcome, rereadable: bool)

  datatype CommitOutcome = CommitOutcome(content: Bytes, inserted: bool, ok: bool)

  function Commit(content: Bytes, pending: PendingKey, weather: CommitWeather): CommitOutcome {
    if pending.NoKey? || pending.verdict(content) == Known then CommitOutcome(content, false, true)
    else if pending.verdict(content) != UnknownHost then CommitOutcome(content, false, false)
    else
      var (after, added) := AppendLine(content, pending.line, weather.readable, weather.save);
      if added then CommitOutcome(after, true, true)
      else CommitOutcome(after, weather.rereadable && Present(after, pending.line), false)
  }

  /** A removal succeeds when there is nothing to remove, or the line is not there, or the file
      without it was saved; it changes the file only for a line that is there. */
  lemma RemovalSucceedsIff(content: Bytes, target: Option<Bytes>, readable: bool, save: SaveOutcome)
    ensures var (after, ok) := RemoveLine(content, target, readable, save);
            && (ok <==> target.None? || (readable && (Present(content, target.value) ==> save == Saved)))
            && (after == content ||
                (target.Some? && readable && Present(content, target.value) && save != FailedKeptOld &&
                 after == Removed(content, target.value)))
  {}

  lemma AppendIsVisible(content: Bytes, line: Bytes)
    ensures Appended(content, line) != content
    ensures IsLine(line) ==> Present(Appended(content, line), line)
  {
    if IsLine(line) {
      AppendSparesOthers(content, line, line);
    }
    assert |Appended(content, line)| > |content|;
  }

  /** A commit claims the line exactly when it put it there: what it claims was absent before
      and is there now, and a line it put there is claimed unless the write failed half-way
      and the file could not be read again. */
  lemma CommitClaimsItsOwn(content: Bytes, pending: PendingKey, weather: CommitWeather)
    requires Sound(pending)
    ensures var out := Commit(content, pending, weather);
            && (out.inserted ==>
                  pending.PendingKey? && out.content == Appended(content, pending.line) &&
                  !Present(content, pending.line))
            && (out.content != content && !out.inserted <==>
                  pending.PendingKey? && pending.verdict(content) == UnknownHost && weather.readable &&
                  |Appended(content, pending.line)| <= MAX_SIZE &&
                  weather.save == FailedReplaced && !weather.rereadable)
            && (out.ok <==>
                  pending.NoKey? || pending.verdict(content) == Known || (out.inserted && weather.save == Saved))
  {
    if pending.PendingKey? {
      AppendIsVisible(content, pending.line);
    }
    hide Present, Appended;
  }

  /** Who reads sees the whole file or an error; a write may fail before or after it took
      effect. Every method runs under the file's lock. */
  class KnownHostsFile {
    var content: Bytes

    constructor (content: Bytes)
      ensures this.content == content
    {
      this.content := content;
    }

    method Append(line: Bytes, readable: bool, save: SaveOutcome) returns (ok: bool)
      modifies this
      ensures (content, ok) == AppendLine(old(content), line, readable, save)
    {
      if !readable {
        return false;
      }
      var next := content;
      if |next| > 0 && next[|next| - 1] != NEWLINE {
        next := next + [NEWLINE];
      }
      next := next + line;
      next := next + [NEWLINE];
      if |next| > MAX_SIZE {
        return false;
      }
      if save != FailedKeptOld {
        content := next;
      }
      ok := save == Saved;
    }

    method LinePresent(target: Bytes) returns (present: bool)
      ensures present == Present(content, target)
    {
      var lines := Split(content);
      for i := 0 to |lines|
        invariant forall k :: 0 <= k < i ==> !Matches(lines[k], target)
      {
        if Matches(lines[i], target) {
          return true;
        }
      }
      present := false;
    }

    method Remove(target: Option<Bytes>, readable: bool, save: SaveOutcome) returns (ok: bool)
      modifies this
      ensures (content, ok) == RemoveLine(old(content), target, readable, save)
    {
      if target.None? {
        return true;
      }
      if !readable {
        return false;
      }
      var lines := Split(content);
      var kept: seq<Bytes> := [];
      var removed := false;
      for i := 0 to |lines|
        invariant !removed ==> kept == lines[..i] && forall k :: 0 <= k < i ==> !Matches(lines[k], target.value)
        invariant removed ==> Present(content, target.value) && kept + lines[i..] == WithoutFirst(lines, target.value)
        invariant content == old(content)
      {
        if !removed && Matches(lines[i], target.value) {
          removed := true;
          WithoutFirstSkips(lines[..i], lines[i], lines[i + 1..], target.value);
          assert lines == lines[..i] + [lines[i]] + lines[i + 1..];
          continue;
        }
        assert lines[..i + 1] == lines[..i] + [lines[i]];
        assert kept + lines[i..] == kept + [lines[i]] + lines[i + 1..];
        kept := kept + [lines[i]];
      }
      if !removed {
        return true;
      }
      assert kept == WithoutFirst(lines, target.value);
      if save != FailedKeptOld {
        content := Join(kept);
      }
      ok := save == Saved;
    }

    /** Pins a verified key unless the file knows it by now; a file that disagrees fails
        closed. When the append reports an error, the file is read again to learn whether the
        line reached it. */
    method CommitPending(pending: PendingKey, weather: CommitWeather) returns (inserted: bool, ok: bool)
      modifies this
      ensures CommitOutcome(content, inserted, ok) == Commit(old(content), pending, weather)
    {
      inserted := false;
      if pending.NoKey? {
        return false, true;
      }
      var verdict := pending.verdict(content);
      if verdict == Known {
        return false, true;
      }
      if verdict != UnknownHost {
        return false, false;
      }
      var added := Append(pending.line, weather.readable, weather.save);
      if !added {
        if weather.rereadable {
          inserted := LinePresent(pending.line);
        }
        return inserted, false;
      }
      inserted, ok := true, true;
    }
  }
}
