/** Classification of decrypted server text: normalisation that is blind to line wrapping,
    and the two anchored phrases of the FileVault pre-boot server. */
module BannerText {
  import opened PlainText

  const SUCCESS_PHRASE := "system successfully unlocked"
  const LOCKED_PHRASE := "system is locked"
  const MIN_CUSTOM_SUCCESS := 8
  /** The normalised locked banner. */
  const LOCKED_BANNER := LOCKED_BEFORE_F + "f" + LOCKED_AFTER_F

  // It contains the letter f exactly once, in "successfully".
  const LOCKED_BEFORE_F := "this system is locked. " + "to unlock it, use a local " +
                           "account name and password. " + ONCE
  const LOCKED_AFTER_F := "ully unlocked, " + "you will be able to " + "connect normally."
  const ONCE := "once success"

  /** The words of a text: maximal runs without white space. `word` is the run read so far. */
  function Words(s: string, word: string): seq<string> {
    if s == [] then Finished(word)
    else if IsSpace(s[0]) then Finished(word) + Words(s[1..], [])
    else Words(s[1..], word + [s[0]])
  }

  function Finished(word: string): seq<string> {
    if word == [] then [] else [word]
  }

  function JoinWords(words: seq<string>): string {
    if words == [] then ""
    else if |words| == 1 then words[0]
    else words[0] + " " + JoinWords(words[1..])
  }

  function ToLower(s: string, lower: char -> char): string {
    seq(|s|, i requires 0 <= i < |s| => lower(s[i]))
  }

  /** Lower case with every run of white space collapsed to one space. `lower` is the
      per-character Unicode mapping. */
  function Normalize(s: string, lower: char -> char): string {
    JoinWords(Words(ToLower(s, lower), []))
  }

  predicate IsPasswordPrompt(question: string) {
    EqualFoldAscii(TrimSpace(question), "Password:")
  }

  /** A caller-supplied success message counts only when it is long enough and could match
      neither the locked banner nor the prompt. */
  predicate AdmissibleNeedle(needle: string) {
    Utf8Length(needle) >= MIN_CUSTOM_SUCCESS && !Contains(LOCKED_BANNER, needle) && !IsPasswordPrompt(needle)
  }

  predicate SuccessSeen(text: string, successMsg: string, lower: char -> char) {
    var norm := Normalize(text, lower);
    var needle := Normalize(successMsg, lower);
    Contains(norm, SUCCESS_PHRASE) || (AdmissibleNeedle(needle) && Contains(norm, needle))
  }

  predicate LockedSeen(text: string, lower: char -> char) {
    Contains(Normalize(text, lower), LOCKED_PHRASE)
  }

  /** The word of the question, letter by letter, in either case; the long s folds to s. */
  predicate SpellsPassword(core: string) {
    && |core| == 9
    && core[0] in "pP" && core[1] in "aA" && core[2] in "sS\U{17F}" && core[3] in "sS\U{17F}"
    && core[4] in "wW" && core[5] in "oO" && core[6] in "rR" && core[7] in "dD" && core[8] == ':'
  }

  /** The question, with any white space around it. */
  ghost predicate IsPasswordQuestion(question: string) {
    exists core :: SpellsPassword(core) && Surrounds(question, core)
  }

  lemma SpellingFolds(core: string)
    ensures EqualFoldAscii(core, "Password:") <==> SpellsPassword(core)
    ensures SpellsPassword(core) ==> core != "" && Trimmed(core)
  {}

  lemma PromptIsPasswordQuestion(question: string)
    ensures IsPasswordPrompt(question) <==> IsPasswordQuestion(question)
  {
    hide SpellsPassword, EqualFoldAscii, TrimSpace, Surrounds;
    var trimmed := TrimSpace(question);
    SpellingFolds(trimmed);
    if IsPasswordPrompt(question) {
      TrimSpaceIsCore(question, trimmed);
    }
    if core :| SpellsPassword(core) && Surrounds(question, core) {
      SpellingFolds(core);
      TrimSpaceIsCore(question, core);
    }
  }

  lemma {:induction false} WordsSplit(p: string, space: char, q: string, word: string)
    requires IsSpace(space)
    ensures Words(p + [space] + q, word) == Words(p, word) + Words(q, [])
    decreases |p|
  {
    var all := p + [space] + q;
    if p == [] {
      assert all[1..] == q;
    } else {
      assert all[1..] == p[1..] + [space] + q;
      if IsSpace(p[0]) {
        WordsSplit(p[1..], space, q, []);
      } else {
        WordsSplit(p[1..], space, q, word + [p[0]]);
      }
    }
  }

  lemma {:induction false} JoinWordsSplit(a: seq<string>, b: seq<string>)
    ensures JoinWords(a + b) ==
            if a == [] then JoinWords(b) else if b == [] then JoinWords(a) else JoinWords(a) + " " + JoinWords(b)
    decreases |a|
  {
    if a == [] {
      assert a + b == b;
    } else if b == [] {
      assert a + b == a;
    } else {
      assert (a + b)[1..] == a[1..] + b;
      JoinWordsSplit(a[1..], b);
    }
  }

  /** Normalising a longer text begins with the normalised earlier lines. */
  lemma NormalizeKeepsEarlierText(p: string, q: string, lower: char -> char)
    requires IsSpace(lower('\n'))
    ensures Normalize(p + "\n", lower) <= Normalize(p + "\n" + q, lower)
  {
    var a, b := Words(ToLower(p, lower), []), Words(ToLower(q, lower), []);
    WordsSplit(ToLower(p, lower), lower('\n'), ToLower(q, lower), []);
    WordsSplit(ToLower(p, lower), lower('\n'), [], []);
    assert ToLower(p + "\n" + q, lower) == ToLower(p, lower) + [lower('\n')] + ToLower(q, lower);
    assert ToLower(p + "\n", lower) == ToLower(p, lower) + [lower('\n')] + [];
    assert a + [] == a;
    JoinWordsSplit(a, b);
    if a != [] && b != [] {
      assert JoinWords(a) + " " + JoinWords(b) == JoinWords(a) + (" " + JoinWords(b));
    }
  }

  /** So whatever was readable before stays readable. */
  lemma EarlierTextStays(p: string, q: string, part: string, lower: char -> char)
    requires IsSpace(lower('\n')) && Contains(Normalize(p + "\n", lower), part)
    ensures Contains(Normalize(p + "\n" + q, lower), part)
  {
    NormalizeKeepsEarlierText(p, q, lower);
    var before, after := Normalize(p + "\n", lower), Normalize(p + "\n" + q, lower);
    ContainsExtends("", before, after[|before|..], part);
    assert "" + before + after[|before|..] == after;
  }

  lemma SuccessStays(p: string, q: string, successMsg: string, lower: char -> char)
    requires IsSpace(lower('\n'))
    requires SuccessSeen(p + "\n", successMsg, lower)
    ensures SuccessSeen(p + "\n" + q, successMsg, lower)
  {
    if Contains(Normalize(p + "\n", lower), SUCCESS_PHRASE) {
      EarlierTextStays(p, q, SUCCESS_PHRASE, lower);
    } else {
      EarlierTextStays(p, q, Normalize(successMsg, lower), lower);
    }
  }

  lemma NoTextNoSuccess(successMsg: string, lower: char -> char)
    ensures !SuccessSeen("", successMsg, lower)
  {
    assert ToLower("", lower) == "";
    assert Utf8Length("") == 0;
  }

  lemma NoFBefore()
    ensures 'f' !in LOCKED_BEFORE_F
  {
    assert 'f' !in "this system is locked. ";
    assert 'f' !in "to unlock it, use a local ";
    assert 'f' !in "account name and password. ";
    assert 'f' !in ONCE;
  }

  lemma NoFAfter()
    ensures 'f' !in LOCKED_AFTER_F
  {
    assert 'f' !in "ully unlocked, ";
    assert 'f' !in "you will be able to ";
    assert 'f' !in "connect normally.";
  }

  lemma OnlyOneF(i: int)
    ensures 0 <= i < |LOCKED_BANNER| && LOCKED_BANNER[i] == 'f' ==> i == |LOCKED_BEFORE_F|
  {
    NoFBefore();
    NoFAfter();
  }

  lemma PhraseLetters(text: string, i: int)
    ensures OccursAt(text, SUCCESS_PHRASE, i) ==> text[i + 14] == 'f' && text[i + 5] == 'm'
  {
    if OccursAt(text, SUCCESS_PHRASE, i) {
      assert text[i..i + |SUCCESS_PHRASE|][14] == 'f' && text[i..i + |SUCCESS_PHRASE|][5] == 'm';
    }
  }

  /** The success phrase would need its f where the banner has its only one, and there the
      word before it differs. */
  lemma LockedBannerHasNoSuccessPhrase()
    ensures !Contains(LOCKED_BANNER, SUCCESS_PHRASE)
  {
    assert LOCKED_BANNER[|LOCKED_BEFORE_F| - 9] == LOCKED_BEFORE_F[|LOCKED_BEFORE_F| - 9] == ONCE[3] == 'e';
    forall i: int
      ensures !OccursAt(LOCKED_BANNER, SUCCESS_PHRASE, i)
    {
      OnlyOneF(i + 14);
      PhraseLetters(LOCKED_BANNER, i);
    }
  }

  /** However the locked banner is wrapped or cased, it is never a success, for any
      caller-supplied message. */
  lemma LockedBannerIsNeverSuccess(text: string, successMsg: string, lower: char -> char)
    requires Normalize(text, lower) == LOCKED_BANNER
    ensures !SuccessSeen(text, successMsg, lower)
  {
    LockedBannerHasNoSuccessPhrase();
  }

  /** And every re-wrapping of it is recognised as locked. */
  lemma LockedBannerIsLocked(text: string, lower: char -> char)
    requires Normalize(text, lower) == LOCKED_BANNER
    ensures LockedSeen(text, lower) && !Contains(Normalize(text, lower), SUCCESS_PHRASE)
  {
    hide Normalize;
    LockedBannerHasNoSuccessPhrase();
    assert LOCKED_BEFORE_F[5..21] == LOCKED_PHRASE;
    assert LOCKED_BANNER[5..21] == LOCKED_BEFORE_F[5..21];
    assert OccursAt(LOCKED_BANNER, LOCKED_PHRASE, 5);
  }
}
