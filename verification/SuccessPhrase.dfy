/** What counts as a success, told from the text itself: the three words of the phrase with
    any white space between them, however the lines are wrapped. */
module SuccessPhrase {
  import opened PlainText
  import opened BannerText

  /** The text with every run of white space collapsed. */
  function Collapse(s: string): string {
    JoinWords(Words(s, []))
  }

  predicate Solid(s: string) {
    forall i :: 0 <= i < |s| ==> !IsSpace(s[i])
  }

  function Spaced(a: string, b: string): string {
    if a == "" then b else if b == "" then a else a + " " + b
  }

  // ---------------------------------------------------------------------------------
  // How collapsing follows the text.

  lemma {:induction false} SolidWord(s: string, word: string)
    requires Solid(s)
    ensures Words(s, word) == Finished(word + s)
    decreases |s|
  {
    if s == [] {
      assert word + s == word;
    } else {
      SolidWord(s[1..], word + [s[0]]);
      assert word + [s[0]] + s[1..] == word + s;
    }
  }

  lemma CollapseSolid(s: string)
    ensures Solid(s) ==> Collapse(s) == s
  {
    if Solid(s) {
      SolidWord(s, []);
      assert [] + s == s;
    }
  }

  lemma {:induction false} NoEmptyWords(s: string, word: string)
    ensures forall w :: w in Words(s, word) ==> w != ""
    decreases |s|
  {
    if s != [] {
      NoEmptyWords(s[1..], []);
      NoEmptyWords(s[1..], word + [s[0]]);
    }
  }

  lemma CollapseSplit(a: string, space: char, b: string)
    requires IsSpace(space)
    ensures Collapse(a + [space] + b) == Spaced(Collapse(a), Collapse(b))
  {
    WordsSplit(a, space, b, []);
    JoinWordsSplit(Words(a, []), Words(b, []));
    JoinedIsEmpty(a);
    JoinedIsEmpty(b);
  }

  lemma JoinedIsEmpty(s: string)
    ensures Collapse(s) == "" <==> Words(s, []) == []
  {
    NoEmptyWords(s, []);
    var words := Words(s, []);
    assert words != [] ==> words[0] in words;
  }

  /** The first white space of a text that has one. */
  lemma {:induction false} FirstSpace(s: string) returns (i: nat)
    requires !Solid(s)
    ensures i < |s| && IsSpace(s[i]) && Solid(s[..i]) && s == s[..i] + [s[i]] + s[i + 1..]
    decreases |s|
  {
    if IsSpace(s[0]) {
      i := 0;
    } else {
      assert !Solid(s[1..]) by {
        var k :| 0 <= k < |s| && IsSpace(s[k]);
        assert s[1..][k - 1] == s[k];
      }
      var k := FirstSpace(s[1..]);
      i := k + 1;
      assert s[..i] == [s[0]] + s[1..][..k];
    }
  }

  lemma {:induction false} LastSpace(s: string) returns (i: nat)
    requires !Solid(s)
    ensures i < |s| && IsSpace(s[i]) && Solid(s[i + 1..]) && s == s[..i] + [s[i]] + s[i + 1..]
    decreases |s|
  {
    var n := |s| - 1;
    if IsSpace(s[n]) {
      i := n;
    } else {
      assert !Solid(s[..n]) by {
        var k :| 0 <= k < |s| && IsSpace(s[k]);
        assert s[..n][k] == s[k];
      }
      i := LastSpace(s[..n]);
      assert s[i + 1..] == s[..n][i + 1..] + [s[n]];
    }
  }

  /** A collapsed text begins and ends with a word. */
  lemma {:induction false} CollapseTrims(s: string)
    ensures Trimmed(Collapse(s))
    decreases |s|
  {
    hide Collapse;
    CollapseSolid(s);
    if !Solid(s) {
      var i := FirstSpace(s);
      CollapseSolid(s[..i]);
      CollapseSplit(s[..i], s[i], s[i + 1..]);
      CollapseTrims(s[i + 1..]);
    }
  }

  lemma {:induction false} CollapseSpaces(g: string, s: string)
    requires AllSpace(g)
    ensures Collapse(g + s) == Collapse(s) && Collapse(s + g) == Collapse(s)
    decreases |g|
  {
    hide Collapse;
    CollapseSolid("");
    if g == [] {
      assert g + s == s && s + g == s;
    } else {
      var n := |g| - 1;
      assert g + s == [] + [g[0]] + (g[1..] + s);
      CollapseSplit([], g[0], g[1..] + s);
      CollapseSpaces(g[1..], s);
      assert s + g == (s + g[..n]) + [g[n]] + [];
      CollapseSplit(s + g[..n], g[n], []);
      CollapseSpaces(g[..n], s);
    }
  }

  // ---------------------------------------------------------------------------------
  // From the text to the phrase.

  predicate EndsWith(s: string, x: string) {
    |x| <= |s| && s[|s| - |x|..] == x
  }

  lemma CollapseEnds(p: string, x: string)
    requires Solid(x) && x != ""
    ensures EndsWith(Collapse(p + x), x)
  {
    hide Collapse;
    if Solid(p) {
      assert Solid(p + x);
      CollapseSolid(p + x);
    } else {
      var i := LastSpace(p);
      var y := p[i + 1..] + x;
      assert p + x == p[..i] + [p[i]] + y;
      assert Solid(y);
      CollapseSolid(y);
      CollapseSplit(p[..i], p[i], y);
    }
  }

  lemma CollapseBegins(x: string, q: string)
    requires Solid(x) && x != ""
    ensures x <= Collapse(x + q)
  {
    hide Collapse;
    if Solid(q) {
      assert Solid(x + q);
      CollapseSolid(x + q);
    } else {
      var i := FirstSpace(q);
      var y := x + q[..i];
      assert x + q == y + [q[i]] + q[i + 1..];
      assert Solid(y);
      CollapseSolid(y);
      CollapseSplit(y, q[i], q[i + 1..]);
    }
  }

  /** Any white space between two parts collapses to one space. */
  lemma CollapseGap(a: string, g: string, b: string)
    requires AllSpace(g) && g != ""
    ensures Collapse(a + g + b) == Spaced(Collapse(a), Collapse(b))
  {
    hide Collapse;
    assert a + g + b == a + [g[0]] + (g[1..] + b);
    CollapseSplit(a, g[0], g[1..] + b);
    CollapseSpaces(g[1..], b);
  }

  // ---------------------------------------------------------------------------------
  // And back.

  /** No solid part reaches over white space. */
  lemma SolidStopsAt(c: string, n: nat, x: string)
    requires n < |c| && IsSpace(c[n]) && Solid(x) && x <= c
    ensures |x| <= n
  {}

  lemma SolidStopsBefore(c: string, n: nat, x: string)
    requires n < |c| && IsSpace(c[n]) && Solid(x) && EndsWith(c, x)
    ensures |x| < |c| - n
  {
    assert forall i :: 0 <= i < |x| ==> x[i] == c[|c| - |x| + i];
  }

  /** A cut at a space falls behind the first word, or later. */
  lemma SpacedCut(w: string, t: string, a: string, b: string) returns (a': string)
    requires Solid(w) && Trimmed(t) && a != "" && Spaced(w, t) == a + " " + b
    ensures a' == "" ==> a == w && t == b
    ensures a' != "" ==> t == a' + " " + b && a == Spaced(w, a')
  {
    if w == "" {
      a' := a;
    } else {
      FirstWordCut(w, t, a, b);
      a' := if |a| == |w| then "" else a[|w| + 1..];
    }
  }

  lemma FirstWordCut(w: string, t: string, a: string, b: string)
    requires Solid(w) && w != "" && Trimmed(t) && a != "" && Spaced(w, t) == a + " " + b
    ensures |a| >= |w| && t != ""
    ensures |a| == |w| ==> a == w && t == b
    ensures |a| > |w| ==> |a| > |w| + 1 && a == w + " " + a[|w| + 1..] && t == a[|w| + 1..] + " " + b
  {
    var whole := a + " " + b;
    assert IsSpace(whole[|a|]);
    assert forall i :: 0 <= i < |w| ==> whole[i] == w[i];
    assert |whole| > |w| ==> whole == w + " " + t && whole[|w| + 1..] == t;
    if |a| == |w| {
      assert whole[..|w|] == a;
      assert whole[|a| + 1..] == b;
    } else if |a| > |w| {
      assert whole[..|a|] == a;
      assert a[|w|] == whole[|w|] == ' ';
      assert a == w + " " + a[|w| + 1..];
      assert whole[|w| + 1..] == a[|w| + 1..] + " " + b;
    }
  }

  /** A solid end of two spaced parts lies within the second, and a solid beginning within
      the first. */
  lemma SolidEnd(r: string, y: string, x: string)
    requires Solid(x) && Solid(y) && y != "" && EndsWith(Spaced(r, y), x)
    ensures EndsWith(y, x)
  {
    var c := Spaced(r, y);
    if r != "" {
      SolidStopsBefore(c, |c| - |y| - 1, x);
    }
    assert y == c[|c| - |y|..];
  }

  lemma SolidBeginning(y: string, r: string, x: string)
    requires Solid(x) && Solid(y) && y != "" && x <= Spaced(y, r)
    ensures x <= y
  {
    var c := Spaced(y, r);
    if r != "" {
      SolidStopsAt(c, |y|, x);
    }
  }

  /** Where the collapsed text has a space, the text has white space. */
  lemma {:induction false} CutAt(s: string, a: string, b: string) returns (i: nat)
    requires Collapse(s) == a + " " + b && a != ""
    ensures i < |s| && IsSpace(s[i]) && s == s[..i] + [s[i]] + s[i + 1..]
    ensures Collapse(s[..i]) == a && Collapse(s[i + 1..]) == b
    decreases |s|
  {
    hide Collapse, Solid, Spaced, IsSpace, Trimmed;
    SpacedIsNotSolid(s, a, b);
    var k := FirstSpace(s);
    CollapseSolid(s[..k]);
    CollapseSplit(s[..k], s[k], s[k + 1..]);
    CollapseTrims(s[k + 1..]);
    var a' := SpacedCut(s[..k], Collapse(s[k + 1..]), a, b);
    if a' == "" {
      i := k;
    } else {
      var j := CutAt(s[k + 1..], a', b);
      i := k + 1 + j;
      CutLater(s, k, j, a');
    }
  }

  lemma SpacedIsNotSolid(s: string, a: string, b: string)
    requires Collapse(s) == a + " " + b
    ensures !Solid(s)
  {
    hide Collapse;
    CollapseSolid(s);
    assert Collapse(s)[|a|] == ' ';
  }

  lemma CutLater(s: string, k: nat, j: nat, a: string)
    requires k < |s| && IsSpace(s[k]) && Collapse(s[..k]) == s[..k] && j < |s| - k - 1
    requires Collapse(s[k + 1..][..j]) == a
    ensures s == s[..k + 1 + j] + [s[k + 1 + j]] + s[k + 1 + j + 1..]
    ensures Collapse(s[..k + 1 + j]) == Spaced(s[..k], a) && s[k + 1 + j + 1..] == s[k + 1..][j + 1..]
  {
    hide Collapse;
    assert s[..k + 1 + j] == s[..k] + [s[k]] + s[k + 1..][..j];
    CollapseSplit(s[..k], s[k], s[k + 1..][..j]);
  }

  /** A word at the end of the collapsed text is at the end of the text, up to white space. */
  lemma {:induction false} EndOf(s: string, x: string) returns (p: string, g: string)
    requires EndsWith(Collapse(s), x) && Solid(x) && x != ""
    ensures s == p + x + g && AllSpace(g)
    decreases |s|
  {
    hide Collapse;
    CollapseSolid(s);
    if Solid(s) {
      p, g := s[..|s| - |x|], "";
    } else {
      var i := LastSpace(s);
      var r, y := s[..i], s[i + 1..];
      CollapseSolid(y);
      CollapseSplit(r, s[i], y);
      if y == "" {
        p, g := EndOf(r, x);
        g := g + [s[i]];
      } else {
        SolidEnd(Collapse(r), y, x);
        p, g := r + [s[i]] + y[..|y| - |x|], "";
      }
    }
  }

  lemma {:induction false} BeginOf(s: string, x: string) returns (g: string, q: string)
    requires x <= Collapse(s) && Solid(x) && x != ""
    ensures s == g + x + q && AllSpace(g)
    decreases |s|
  {
    hide Collapse;
    CollapseSolid(s);
    if Solid(s) {
      g, q := "", s[|x|..];
    } else {
      var i := FirstSpace(s);
      var y, r := s[..i], s[i + 1..];
      CollapseSolid(y);
      CollapseSplit(y, s[i], r);
      if y == "" {
        g, q := BeginOf(r, x);
        g := [s[i]] + g;
      } else {
        SolidBeginning(y, Collapse(r), x);
        g, q := "", y[|x|..] + [s[i]] + r;
      }
    }
  }

  /** A text that collapses to one word is that word between white space. */
  lemma OneWord(s: string, x: string) returns (g: string, h: string)
    requires Collapse(s) == x && Solid(x) && x != ""
    ensures s == g + x + h && AllSpace(g) && AllSpace(h)
  {
    hide Collapse;
    var p;
    p, h := EndOf(s, x);
    assert s == p + x + h;
    CollapseSpaces(h, p + x);
    if Solid(p) {
      assert Solid(p + x);
      CollapseSolid(p + x);
      g := p;
    } else {
      var i := LastSpace(p);
      var y := p[i + 1..] + x;
      assert p + x == p[..i] + [p[i]] + y;
      assert Solid(y);
      CollapseSolid(y);
      CollapseSplit(p[..i], p[i], y);
      assert y == x && Collapse(p[..i]) == "";
      NothingCollapses(p[..i]);
      g := p;
    }
  }

  lemma {:induction false} NothingCollapses(s: string)
    ensures Collapse(s) == "" ==> AllSpace(s)
    decreases |s|
  {
    hide Collapse;
    CollapseSolid(s);
    if !Solid(s) {
      var i := FirstSpace(s);
      CollapseSolid(s[..i]);
      CollapseSplit(s[..i], s[i], s[i + 1..]);
      NothingCollapses(s[i + 1..]);
    }
  }

  // ---------------------------------------------------------------------------------
  // A phrase of three words.

  predicate Word(x: string) {
    x != "" && Solid(x)
  }

  /** The three words one after the other in a text, with any white space between. */
  predicate SpellsAt(s: string, a: string, b: string, c: string, p: string, g: string, h: string, q: string) {
    s == p + a + g + b + h + c + q && g != "" && AllSpace(g) && h != "" && AllSpace(h)
  }

  ghost predicate Spells(s: string, a: string, b: string, c: string) {
    exists p, g, h, q :: SpellsAt(s, a, b, c, p, g, h, q)
  }

  lemma SpelledCollapses(s: string, a: string, b: string, c: string, p: string, g: string, h: string, q: string)
    requires SpellsAt(s, a, b, c, p, g, h, q) && Word(a) && Word(b) && Word(c)
    ensures Contains(Collapse(s), a + " " + b + " " + c)
  {
    hide Collapse, Solid;
    CollapseEnds(p, a);
    CollapseBegins(c, q);
    CollapseSolid(b);
    CollapseGap(b, h, c + q);
    CollapseGap(p + a, g, b + h + (c + q));
    assert s == (p + a) + g + (b + h + (c + q));
    var before, after := Collapse(p + a), Collapse(c + q);
    var u, v := before[..|before| - |a|], after[|c|..];
    assert before == u + a && after == c + v;
    assert Collapse(s) == u + (a + " " + b + " " + c) + v;
    assert OccursAt(Collapse(s), a + " " + b + " " + c, |u|);
  }

  /** The collapsed text around the phrase. */
  lemma PhraseCut(t: string, k: nat, a: string, b: string, c: string) returns (u: string, v: string)
    requires OccursAt(t, a + " " + b + " " + c, k)
    ensures t == (u + a) + " " + (b + " " + (c + v))
  {
    var phrase := a + " " + b + " " + c;
    u, v := t[..k], t[k + |phrase|..];
    assert t == u + phrase + v;
  }

  lemma PhraseIsSpelled(s: string, a: string, b: string, c: string)
    requires Contains(Collapse(s), a + " " + b + " " + c) && Word(a) && Word(b) && Word(c)
    ensures Spells(s, a, b, c)
  {
    hide Collapse, Solid, OccursAt;
    var k: nat :| k <= |Collapse(s)| && OccursAt(Collapse(s), a + " " + b + " " + c, k);
    var u, v := PhraseCut(Collapse(s), k, a, b, c);
    var i := CutAt(s, u + a, b + " " + (c + v));
    var t := s[i + 1..];
    var j := CutAt(t, b, c + v);
    var p, g := EndOf(s[..i], a);
    var g', h := OneWord(t[..j], b);
    var h', q := BeginOf(t[j + 1..], c);
    Assembled(s, a, b, c, p, g, [s[i]], g', h, [t[j]], h', q);
  }

  lemma Assembled(s: string, a: string, b: string, c: string, p: string, g: string, x: string, g': string, h: string,
                  y: string, h': string, q: string)
    requires s == (p + a + g) + x + ((g' + b + h) + y + (h' + c + q))
    requires AllSpace(g) && AllSpace(x) && AllSpace(g') && AllSpace(h) && AllSpace(y) && AllSpace(h')
    requires x != "" && y != ""
    ensures Spells(s, a, b, c)
  {
    var gap, gap' := g + x + g', h + y + h';
    assert s == p + a + gap + b + gap' + c + q;
    assert SpellsAt(s, a, b, c, p, gap, gap', q);
  }

  lemma PhraseIffSpelled(s: string, a: string, b: string, c: string)
    requires Word(a) && Word(b) && Word(c)
    ensures Contains(Collapse(s), a + " " + b + " " + c) <==> Spells(s, a, b, c)
  {
    hide SpellsAt, Contains, Word, Collapse;
    if Contains(Collapse(s), a + " " + b + " " + c) {
      PhraseIsSpelled(s, a, b, c);
    }
    if Spells(s, a, b, c) {
      var p, g, h, q :| SpellsAt(s, a, b, c, p, g, h, q);
      SpelledCollapses(s, a, b, c, p, g, h, q);
    }
  }

  lemma SuccessWords()
    ensures Word("system") && Word("successfully") && Word("unlocked")
  {}

  lemma LockedWords()
    ensures Word("system") && Word("is") && Word("locked")
  {}

  lemma SuccessJoined()
    ensures "system" + " " + "successfully" + " " + "unlocked" == SUCCESS_PHRASE
  {}

  lemma LockedJoined()
    ensures "system" + " " + "is" + " " + "locked" == LOCKED_PHRASE
  {}

  /** Text is a success exactly when, in lower case, it has the words of the phrase one after
      the other with any white space between them, or the whole of a caller's own message
      that is long enough and could be neither part of the locked banner nor the prompt. */
  lemma SuccessIffSpelled(text: string, successMsg: string, lower: char -> char)
    ensures SuccessSeen(text, successMsg, lower) <==>
            Spells(ToLower(text, lower), "system", "successfully", "unlocked") ||
            (var needle := Normalize(successMsg, lower);
             && Utf8Length(needle) >= 8 && !Contains(LOCKED_BANNER, needle) && !IsPasswordQuestion(needle)
             && Contains(Normalize(text, lower), needle))
  {
    hide Spells, IsPasswordPrompt, IsPasswordQuestion, Contains, Utf8Length, Word, ToLower;
    SuccessWords();
    SuccessJoined();
    PromptIsPasswordQuestion(Normalize(successMsg, lower));
    PhraseIffSpelled(ToLower(text, lower), "system", "successfully", "unlocked");
    assert Normalize(text, lower) == Collapse(ToLower(text, lower));
  }

  /** And it tells of a locked disk exactly when it has the words of that phrase. */
  lemma LockedIffSpelled(text: string, lower: char -> char)
    ensures LockedSeen(text, lower) <==> Spells(ToLower(text, lower), "system", "is", "locked")
  {
    hide Spells, Contains, Word, ToLower;
    LockedWords();
    LockedJoined();
    PhraseIffSpelled(ToLower(text, lower), "system", "is", "locked");
    assert Normalize(text, lower) == Collapse(ToLower(text, lower));
  }
}
