/** Byte-wise order of texts, and sorting by a comparison. Code-point order and the order of
    the UTF-8 bytes agree. */
module TextOrder {

  predicate Below(a: string, b: string) {
    if b == [] then false
    else if a == [] then true
    else if a[0] != b[0] then a[0] < b[0]
    else Below(a[1..], b[1..])
  }

  predicate AtMost(a: string, b: string) {
    !Below(b, a)
  }

  lemma {:induction false} BelowIsTotal(a: string, b: string)
    ensures a != b ==> Below(a, b) != Below(b, a)
    ensures !Below(a, a)
    decreases |a|
  {
    if a != [] {
      BelowIsTotal(a[1..], a[1..]);
      if b != [] && a[0] == b[0] {
        BelowIsTotal(a[1..], b[1..]);
        assert a == [a[0]] + a[1..] && b == [b[0]] + b[1..];
      }
    }
  }

  lemma {:induction false} BelowIsTransitive(a: string, b: string, c: string)
    requires Below(a, b) && Below(b, c)
    ensures Below(a, c)
    decreases |a|
  {
    if a != [] && a[0] == b[0] && b[0] == c[0] {
      BelowIsTransitive(a[1..], b[1..], c[1..]);
    }
  }

  lemma AtMostIsTransitive(a: string, b: string, c: string)
    requires AtMost(a, b) && AtMost(b, c)
    ensures AtMost(a, c)
  {
    BelowIsTotal(a, b);
    BelowIsTotal(b, c);
    if a != b && b != c {
      BelowIsTransitive(a, b, c);
    }
    BelowIsTotal(a, c);
  }

  function Insert<T>(x: T, xs: seq<T>, le: (T, T) -> bool): seq<T> {
    if xs == [] || le(x, xs[0]) then [x] + xs else [xs[0]] + Insert(x, xs[1..], le)
  }

  function SortBy<T>(xs: seq<T>, le: (T, T) -> bool): seq<T> {
    if xs == [] then [] else Insert(xs[0], SortBy(xs[1..], le), le)
  }

  lemma {:induction false} InsertKeepsAll<T>(x: T, xs: seq<T>, le: (T, T) -> bool)
    ensures multiset(Insert(x, xs, le)) == multiset{x} + multiset(xs)
  {
    if xs != [] && !le(x, xs[0]) {
      InsertKeepsAll(x, xs[1..], le);
      assert xs == [xs[0]] + xs[1..];
    }
  }

  lemma {:induction false} SortKeepsAll<T>(xs: seq<T>, le: (T, T) -> bool)
    ensures multiset(SortBy(xs, le)) == multiset(xs)
    ensures forall x :: x in SortBy(xs, le) <==> x in xs
  {
    if xs != [] {
      SortKeepsAll(xs[1..], le);
      InsertKeepsAll(xs[0], SortBy(xs[1..], le), le);
      assert xs == [xs[0]] + xs[1..];
    }
    assert forall x :: x in SortBy(xs, le) <==> x in multiset(SortBy(xs, le));
    assert forall x :: x in xs <==> x in multiset(xs);
  }

  const BY_TEXT: (string, string) -> bool := (a: string, b: string) => AtMost(a, b)

  function SortTexts(xs: seq<string>): seq<string> {
    SortBy(xs, BY_TEXT)
  }

  predicate Sorted(xs: seq<string>) {
    forall i, j :: 0 <= i < j < |xs| ==> AtMost(xs[i], xs[j])
  }

  lemma {:induction false} InsertSorts(x: string, xs: seq<string>)
    requires Sorted(xs)
    ensures Sorted(Insert(x, xs, BY_TEXT))
  {
    if xs == [] {
    } else if AtMost(x, xs[0]) {
      forall j | 0 <= j < |xs|
        ensures AtMost(x, xs[j])
      {
        if j > 0 {
          AtMostIsTransitive(x, xs[0], xs[j]);
        }
      }
    } else {
      var rest := Insert(x, xs[1..], BY_TEXT);
      BelowIsTotal(x, xs[0]);
      InsertSorts(x, xs[1..]);
      InsertKeepsAll(x, xs[1..], BY_TEXT);
      forall j | 0 <= j < |rest|
        ensures AtMost(xs[0], rest[j])
      {
        assert rest[j] in multiset(rest);
        assert rest[j] == x || rest[j] in xs[1..];
      }
    }
  }

  lemma {:induction false} SortSorts(xs: seq<string>)
    ensures Sorted(SortTexts(xs))
  {
    if xs != [] {
      SortSorts(xs[1..]);
      InsertSorts(xs[0], SortTexts(xs[1..]));
    }
  }

  /** A sorted list is determined by its elements. */
  lemma {:induction false} SortedIsUnique(xs: seq<string>, ys: seq<string>)
    requires Sorted(xs) && Sorted(ys) && multiset(xs) == multiset(ys)
    ensures xs == ys
  {
    if xs == [] || ys == [] {
      assert |xs| == |multiset(xs)| && |ys| == |multiset(ys)|;
    } else {
      assert xs[0] in multiset(ys) && ys[0] in multiset(xs);
      BelowIsTotal(xs[0], ys[0]);
      assert AtMost(xs[0], ys[0]) && AtMost(ys[0], xs[0]);
      assert xs == [xs[0]] + xs[1..] && ys == [ys[0]] + ys[1..];
      assert multiset(xs[1..]) == multiset(xs) - multiset{xs[0]};
      assert multiset(ys[1..]) == multiset(ys) - multiset{ys[0]};
      SortedIsUnique(xs[1..], ys[1..]);
    }
  }

  lemma SortedStays(xs: seq<string>)
    requires Sorted(xs)
    ensures SortTexts(xs) == xs
  {
    SortSorts(xs);
    SortKeepsAll(xs, BY_TEXT);
    SortedIsUnique(xs, SortTexts(xs));
  }

  /** The elements of a set in some order. */
  ghost function Enumerate(s: set<string>): (xs: seq<string>)
    ensures multiset(xs) == multiset(s)
  {
    if s == {} then [] else var x :| x in s; [x] + Enumerate(s - {x})
  }

  /** The elements of a set in ascending order. */
  ghost function Ascending(s: set<string>): seq<string> {
    SortTexts(Enumerate(s))
  }

  predicate NoRepeats(xs: seq<string>) {
    forall i, j :: 0 <= i < j < |xs| ==> xs[i] != xs[j]
  }

  lemma {:induction false} CountAtLeastTwo(xs: seq<string>, i: nat, j: nat)
    requires i < j < |xs| && xs[i] == xs[j]
    ensures multiset(xs)[xs[i]] >= 2
  {
    assert xs == xs[..j] + xs[j..];
    assert xs[i] in xs[..j] && xs[i] in xs[j..];
  }

  lemma AscendingFacts(s: set<string>)
    ensures multiset(Ascending(s)) == multiset(s) && |Ascending(s)| == |s|
    ensures Sorted(Ascending(s)) && NoRepeats(Ascending(s))
    ensures forall x :: x in Ascending(s) <==> x in s
  {
    var xs := Ascending(s);
    SortKeepsAll(Enumerate(s), BY_TEXT);
    SortSorts(Enumerate(s));
    assert |multiset(xs)| == |xs|;
    forall i, j | 0 <= i < j < |xs|
      ensures xs[i] != xs[j]
    {
      if xs[i] == xs[j] {
        CountAtLeastTwo(xs, i, j);
      }
    }
    assert forall x :: x in xs <==> x in multiset(xs);
  }

  /** Sorting what a loop collected from a set, in whatever order, gives its ascending list. */
  lemma SortedEnumeration(xs: seq<string>, s: set<string>)
    requires multiset(xs) == multiset(s)
    ensures SortTexts(xs) == Ascending(s)
  {
    AscendingFacts(s);
    SortSorts(xs);
    SortKeepsAll(xs, BY_TEXT);
    SortedIsUnique(SortTexts(xs), Ascending(s));
  }
}
