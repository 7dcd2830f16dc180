/** The text rules the controller shares: white space, trimming, byte lengths and
    substring search over sequences of Unicode scalar values. */
module PlainText {

  /** The characters of Unicode property White_Space. */
  predicate IsSpace(c: char) {
    || c == ' ' || '\t' <= c <= '\r'
    || c == '\U{85}' || c == '\U{A0}' || c == '\U{1680}'
    || '\U{2000}' <= c <= '\U{200A}'
    || c == '\U{2028}' || c == '\U{2029}' || c == '\U{202F}' || c == '\U{205F}' || c == '\U{3000}'
  }

  function TrimLeft(s: string): string {
    if s != [] && IsSpace(s[0]) then TrimLeft(s[1..]) else s
  }

  function TrimRight(s: string): string {
    if s != [] && IsSpace(s[|s| - 1]) then TrimRight(s[..|s| - 1]) else s
  }

  function TrimSpace(s: string): string {
    TrimRight(TrimLeft(s))
  }

  /** No white space at either end. */
  predicate Trimmed(s: string) {
    s == [] || (!IsSpace(s[0]) && !IsSpace(s[|s| - 1]))
  }

  lemma {:induction false} TrimRightEnds(s: string)
    ensures var r := TrimRight(s);
            && r <= s && (r == [] || !IsSpace(r[|r| - 1])) && (s != [] && !IsSpace(s[0]) ==> r != [])
    decreases |s|
  {
    if s != [] && IsSpace(s[|s| - 1]) {
      TrimRightEnds(s[..|s| - 1]);
      assert s[..|s| - 1] <= s;
    }
  }

  lemma {:induction false} TrimLeftEnds(s: string)
    ensures TrimLeft(s) == [] || !IsSpace(TrimLeft(s)[0])
    decreases |s|
  {
    if s != [] && IsSpace(s[0]) {
      TrimLeftEnds(s[1..]);
    }
  }

  lemma TrimSpaceTrims(s: string)
    ensures Trimmed(TrimSpace(s))
    ensures Trimmed(s) ==> TrimSpace(s) == s
  {
    TrimLeftEnds(s);
    TrimRightEnds(TrimLeft(s));
  }

  predicate AllSpace(s: string) {
    forall i :: 0 <= i < |s| ==> IsSpace(s[i])
  }

  lemma {:induction false} TrimLeftSplits(s: string) returns (before: string)
    ensures s == before + TrimLeft(s) && AllSpace(before)
    decreases |s|
  {
    if s != [] && IsSpace(s[0]) {
      before := TrimLeftSplits(s[1..]);
      assert s == [s[0]] + before + TrimLeft(s);
      before := [s[0]] + before;
    } else {
      before := [];
    }
  }

  lemma {:induction false} TrimRightSplits(s: string) returns (after: string)
    ensures s == TrimRight(s) + after && AllSpace(after)
    decreases |s|
  {
    if s != [] && IsSpace(s[|s| - 1]) {
      after := TrimRightSplits(s[..|s| - 1]);
      assert s == TrimRight(s) + (after + [s[|s| - 1]]);
      after := after + [s[|s| - 1]];
    } else {
      after := [];
    }
  }

  lemma {:induction false} TrimLeftOf(before: string, core: string)
    requires AllSpace(before) && (core == [] || !IsSpace(core[0]))
    ensures TrimLeft(before + core) == core
    decreases |before|
  {
    if before == [] {
      assert before + core == core;
    } else {
      assert (before + core)[1..] == before[1..] + core;
      TrimLeftOf(before[1..], core);
    }
  }

  lemma {:induction false} TrimRightOf(core: string, after: string)
    requires AllSpace(after) && (core == [] || !IsSpace(core[|core| - 1]))
    ensures TrimRight(core + after) == core
    decreases |after|
  {
    if after == [] {
      assert core + after == core;
    } else {
      assert (core + after)[..|core + after| - 1] == core + after[..|after| - 1];
      TrimRightOf(core, after[..|after| - 1]);
    }
  }

  /** A text between white space. */
  ghost predicate Surrounds(s: string, core: string) {
    exists before, after :: s == before + core + after && AllSpace(before) && AllSpace(after)
  }

  /** Trimming gives the one text without white space at its ends that the given one has
      between white space. */
  lemma TrimSpaceIsCore(s: string, core: string)
    requires core != ""
    ensures TrimSpace(s) == core <==> Surrounds(s, core) && Trimmed(core)
  {
    hide AllSpace, TrimLeft, TrimRight;
    TrimSpaceTrims(s);
    if TrimSpace(s) == core {
      var before := TrimLeftSplits(s);
      var after := TrimRightSplits(TrimLeft(s));
      assert s == before + core + after;
    }
    if Surrounds(s, core) && Trimmed(core) {
      var before, after :| s == before + core + after && AllSpace(before) && AllSpace(after);
      TrimOf(before, core, after);
    }
  }

  lemma TrimOf(before: string, core: string, after: string)
    requires AllSpace(before) && AllSpace(after) && core != "" && Trimmed(core)
    ensures TrimSpace(before + core + after) == core
  {
    hide AllSpace, TrimLeft, TrimRight;
    assert before + core + after == before + (core + after);
    TrimLeftOf(before, core + after);
    TrimRightOf(core, after);
  }

  /** Bytes of the UTF-8 encoding. */
  function Utf8Length(s: string): nat {
    if s == [] then 0
    else Utf8Length(s[1..]) +
         (if s[0] < '\U{80}' then 1 else if s[0] < '\U{800}' then 2 else if s[0] < '\U{10000}' then 3 else 4)
  }

  predicate OccursAt(s: string, part: string, i: int) {
    0 <= i <= |s| - |part| && s[i..i + |part|] == part
  }

  predicate Contains(s: string, part: string) {
    exists i | 0 <= i <= |s| :: OccursAt(s, part, i)
  }

  lemma ContainsExtends(before: string, s: string, after: string, part: string)
    requires Contains(s, part)
    ensures Contains(before + s + after, part)
  {
    var i :| 0 <= i <= |s| && OccursAt(s, part, i);
    assert OccursAt(before + s + after, part, |before| + i);
  }

  /** Unicode simple folding of one character against an ASCII pattern character: besides
      the two cases, the long s folds to s and the Kelvin sign to k. */
  predicate FoldsTo(c: char, pattern: char) {
    || c == pattern
    || ('a' <= pattern <= 'z' && 'A' <= c <= 'Z' && c as int + 32 == pattern as int)
    || ('A' <= pattern <= 'Z' && 'a' <= c <= 'z' && c as int == pattern as int + 32)
    || ((pattern == 's' || pattern == 'S') && c == '\U{17F}')
    || ((pattern == 'k' || pattern == 'K') && c == '\U{212A}')
  }

  predicate EqualFoldAscii(s: string, pattern: string) {
    |s| == |pattern| && forall i :: 0 <= i < |s| ==> FoldsTo(s[i], pattern[i])
  }
}
