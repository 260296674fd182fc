// Strings in ascending order: the order itself, the one sorted listing of a set of
// strings, and the exchange sort that produces it.
module Names {
  /** Strictly before, character by character; a proper prefix comes first. */
  predicate Before(a: string, b: string) {
    if b == "" then false
    else if a == "" then true
    else a[0] < b[0] || (a[0] == b[0] && Before(a[1..], b[1..]))
  }

  lemma {:induction false} BeforeIsStrict(a: string, b: string)
    ensures !(Before(a, b) && Before(b, a))
    ensures a != b <==> Before(a, b) || Before(b, a)
  {
    if a != "" && b != "" {
      BeforeIsStrict(a[1..], b[1..]);
      assert a == [a[0]] + a[1..] && b == [b[0]] + b[1..];
    }
  }

  lemma {:induction false} BeforeChains(a: string, b: string, c: string)
    requires Before(a, b) && Before(b, c)
    ensures Before(a, c)
  {
    if a != "" && a[0] == b[0] == c[0] {
      BeforeChains(a[1..], b[1..], c[1..]);
    }
  }

  lemma NotBeforeChains(a: string, b: string, c: string)
    requires !Before(b, a) && !Before(c, b)
    ensures !Before(c, a)
  {
    BeforeIsStrict(a, b);
    BeforeIsStrict(b, c);
    BeforeIsStrict(a, c);
    if Before(c, a) && a != b && b != c {
      BeforeChains(a, b, c);
    }
  }

  ghost predicate StrictlySorted(names: seq<string>) {
    forall i, j :: 0 <= i < j < |names| ==> Before(names[i], names[j])
  }

  function Elements(names: seq<string>): set<string> {
    set s | s in names
  }

  lemma EmptyListing(a: seq<string>)
    ensures a == [] <==> Elements(a) == {}
  {
    if a != [] {
      assert a[0] in Elements(a);
    }
  }

  /** A set of names has one strictly sorted listing. */
  lemma {:induction false} SortedListingIsUnique(a: seq<string>, b: seq<string>)
    requires StrictlySorted(a) && StrictlySorted(b) && Elements(a) == Elements(b)
    ensures a == b
  {
    EmptyListing(a);
    EmptyListing(b);
    if a != [] {
      FirstIsLeast(a, b);
      FirstIsLeast(b, a);
      BeforeIsStrict(a[0], b[0]);
      RestIsTheRest(a);
      RestIsTheRest(b);
      SortedListingIsUnique(a[1..], b[1..]);
    }
  }

  lemma FirstIsLeast(a: seq<string>, b: seq<string>)
    requires StrictlySorted(a) && a != [] && b != [] && Elements(a) == Elements(b)
    ensures !Before(b[0], a[0])
  {
    assert b[0] in Elements(a);
    var i :| 0 <= i < |a| && a[i] == b[0];
    BeforeIsStrict(a[0], b[0]);
  }

  lemma RestIsTheRest(a: seq<string>)
    requires StrictlySorted(a) && a != []
    ensures Elements(a[1..]) == Elements(a) - {a[0]}
    ensures StrictlySorted(a[1..])
  {
    forall i | 1 <= i < |a|
      ensures a[i] != a[0]
    {
      BeforeIsStrict(a[0], a[i]);
    }
    assert forall s :: s in a[1..] ==> s in a;
    assert forall s :: s in a && s != a[0] ==> s in a[1..];
  }

  ghost predicate IsFirst(s: set<string>, x: string) {
    x in s && forall y :: y in s && y != x ==> Before(x, y)
  }

  lemma {:induction false} FirstExists(s: set<string>)
    requires s != {}
    ensures exists x :: IsFirst(s, x)
  {
    var x :| x in s;
    var rest := s - {x};
    if rest == {} {
      assert s == rest + {x};
      assert IsFirst(s, x);
    } else {
      FirstExists(rest);
      var m :| IsFirst(rest, m);
      BeforeIsStrict(m, x);
      forall y | y in rest && y != m && Before(x, m)
        ensures Before(x, y)
      {
        BeforeChains(x, m, y);
      }
      assert forall y :: y in s ==> y == x || y in rest;
      assert IsFirst(s, if Before(m, x) then m else x);
    }
  }

  ghost function First(s: set<string>): (x: string)
    requires s != {}
    ensures IsFirst(s, x)
  {
    FirstExists(s);
    var x :| IsFirst(s, x);
    x
  }

  /** The strings of a set in ascending order. */
  ghost function InOrder(s: set<string>): seq<string> {
    if s == {} then [] else [First(s)] + InOrder(s - {First(s)})
  }

  lemma {:induction false} InOrderLists(s: set<string>)
    ensures StrictlySorted(InOrder(s)) && Elements(InOrder(s)) == s
  {
    if s != {} {
      var x, rest := First(s), InOrder(s - {First(s)});
      InOrderLists(s - {x});
      assert InOrder(s) == [x] + rest;
      forall i, j | 0 <= i < j < |InOrder(s)|
        ensures Before(InOrder(s)[i], InOrder(s)[j])
      {
        assert InOrder(s)[j] == rest[j - 1] && rest[j - 1] in Elements(rest);
        if i > 0 {
          assert InOrder(s)[i] == rest[i - 1];
        }
      }
      assert forall y :: y in Elements(InOrder(s)) <==> y == x || y in Elements(rest);
    }
  }

  /** Whatever sorts the strings of a set strictly lists them as InOrder does. */
  lemma SortedListing(a: seq<string>, s: set<string>)
    requires StrictlySorted(a) && Elements(a) == s
    ensures a == InOrder(s)
  {
    InOrderLists(s);
    SortedListingIsUnique(a, InOrder(s));
  }

  ghost predicate SortedUpTo(s: seq<string>, i: int) {
    forall p, q :: 0 <= p < i && p < q < |s| ==> !Before(s[q], s[p])
  }

  ghost predicate LeastSoFar(s: seq<string>, i: int, j: int) {
    0 <= i < j <= |s| && forall q :: i < q < j ==> !Before(s[q], s[i])
  }

  lemma ExchangeKeeps(s: seq<string>, i: nat, j: nat, t: seq<string>)
    requires SortedUpTo(s, i) && LeastSoFar(s, i, j) && j < |s| && Before(s[j], s[i])
    requires t == s[i := s[j]][j := s[i]]
    ensures SortedUpTo(t, i) && LeastSoFar(t, i, j + 1)
  {
    BeforeIsStrict(s[i], s[j]);
    forall q | i < q < j
      ensures !Before(t[q], t[i])
    {
      NotBeforeChains(s[j], s[i], s[q]);
    }
  }

  method Exchange(a: array<string>, i: nat, j: nat)
    requires i < j < a.Length
    modifies a
    ensures a[..] == old(a[..])[i := old(a[j])][j := old(a[i])]
    ensures multiset(a[..]) == multiset(old(a[..]))
  {
    a[i], a[j] := a[j], a[i];
  }

  /** The exchange sort over the collected names. */
  method Sort(names: array<string>)
    modifies names
    ensures multiset(names[..]) == multiset(old(names[..]))
    ensures SortedUpTo(names[..], names.Length)
  {
    var i := 0;
    while i < names.Length
      invariant 0 <= i <= names.Length
      invariant multiset(names[..]) == multiset(old(names[..]))
      invariant SortedUpTo(names[..], i)
    {
      var j := i + 1;
      while j < names.Length
        invariant LeastSoFar(names[..], i, j)
        invariant multiset(names[..]) == multiset(old(names[..]))
        invariant SortedUpTo(names[..], i)
      {
        if Before(names[j], names[i]) {
          ghost var before := names[..];
          Exchange(names, i, j);
          ExchangeKeeps(before, i, j, names[..]);
        }
        j := j + 1;
      }
      i := i + 1;
    }
  }

  lemma DistinctSorted(names: seq<string>, all: set<string>)
    requires multiset(names) == multiset(all)
    requires SortedUpTo(names, |names|)
    ensures StrictlySorted(names) && Elements(names) == all
  {
    forall s
      ensures s in names <==> s in all
    {
      assert multiset(names)[s] > 0 <==> s in names;
      assert multiset(all)[s] > 0 <==> s in all;
    }
    forall p, q | 0 <= p < q < |names|
      ensures Before(names[p], names[q])
    {
      BeforeIsStrict(names[p], names[q]);
      assert multiset(all)[names[p]] <= 1;
      if names[p] == names[q] {
        TwiceCountsTwo(names, p, q);
      }
    }
  }

  lemma TwiceCountsTwo(names: seq<string>, p: nat, q: nat)
    requires p < q < |names| && names[p] == names[q]
    ensures multiset(names)[names[p]] >= 2
  {
    assert names == names[..q] + names[q..];
    assert multiset(names) == multiset(names[..q]) + multiset(names[q..]);
    assert names[p] == names[..q][p] && names[p] == names[q..][0];
    assert names[p] in multiset(names[..q]) && names[p] in multiset(names[q..]);
  }
}
