// The listings that Account and User build from their hash maps: the values
// in the map's own order, optionally run through std::sort by name.
module Listing {
  import opened Ledger

  /** QString's operator<: lexicographic order on the characters, a proper
      prefix coming first. */
  predicate NameLess(a: string, b: string)
    decreases |a|
  {
    if a == [] then b != []
    else if b == [] then false
    else if a[0] != b[0] then a[0] < b[0]
    else NameLess(a[1..], b[1..])
  }

  lemma {:induction false} NameLessIrreflexive(a: string)
    ensures !NameLess(a, a)
    decreases |a|
  {
    if a != [] {
      NameLessIrreflexive(a[1..]);
    }
  }

  lemma {:induction false} NameLessTransitive(a: string, b: string, c: string)
    requires NameLess(a, b) && NameLess(b, c)
    ensures NameLess(a, c)
    decreases |a|
  {
    if a != [] && b != [] && c != [] && a[0] == b[0] && b[0] == c[0] {
      NameLessTransitive(a[1..], b[1..], c[1..]);
    }
  }

  lemma {:induction false} NameLessTotal(a: string, b: string)
    requires a != b
    ensures NameLess(a, b) || NameLess(b, a)
    decreases |a|
  {
    if a != [] && b != [] && a[0] == b[0] {
      assert a == [a[0]] + a[1..] && b == [b[0]] + b[1..];
      NameLessTotal(a[1..], b[1..]);
    }
  }

  lemma LessThenNotLess(a: string, b: string, c: string)
    requires NameLess(a, b) && !NameLess(c, b)
    ensures !NameLess(c, a)
  {
    if NameLess(c, a) {
      NameLessTransitive(c, a, b);
    }
  }

  /** Every identifier has a name, and names never decrease along the list. */
  ghost predicate SortedByName(ids: seq<Id>, names: map<Id, string>)
  {
    && (forall i :: 0 <= i < |ids| ==> ids[i] in names)
    && (forall i, j :: 0 <= i < j < |ids| ==> !NameLess(names[ids[j]], names[ids[i]]))
  }

  function NamesOf<T>(m: map<Id, T>, name: T -> string): (names: map<Id, string>)
    ensures names.Keys == m.Keys
    ensures forall k :: k in m ==> names[k] == name(m[k])
  {
    map k | k in m :: name(m[k])
  }

  /** The keys of a hash map in the map's own (unspecified) order, as
      QHash::values() and QSet::values() give them. */
  method KeysOf<T>(m: map<Id, T>) returns (r: seq<Id>)
    ensures multiset(r) == multiset(m.Keys)
    ensures forall i :: 0 <= i < |r| ==> r[i] in m
  {
    r := [];
    var rest := m.Keys;
    while rest != {}
      invariant rest <= m.Keys
      invariant multiset(r) == multiset(m.Keys - rest)
      decreases |rest|
    {
      var k :| k in rest;
      assert m.Keys - (rest - {k}) == (m.Keys - rest) + {k};
      r := r + [k];
      rest := rest - {k};
    }
    assert m.Keys - rest == m.Keys;
    forall i | 0 <= i < |r| ensures r[i] in m {
      assert r[i] in multiset(r);
    }
  }

  /** The elements of a set, each once, in no particular order, as
      QSet::values() gives them. */
  method Elements<T>(s: set<T>) returns (r: seq<T>)
    ensures forall x :: x in r <==> x in s
    ensures forall i, j :: 0 <= i < j < |r| ==> r[i] != r[j]
  {
    r := [];
    var rest := s;
    while rest != {}
      invariant rest <= s
      invariant forall x :: x in r <==> x in s && x !in rest
      invariant forall i, j :: 0 <= i < j < |r| ==> r[i] != r[j]
      decreases |rest|
    {
      var x :| x in rest;
      assert x !in r;
      r := r + [x];
      rest := rest - {x};
    }
  }

  /** Insertion of one identifier into a list sorted by name keeps it sorted. */
  lemma InsertSorted(r: seq<Id>, j: nat, x: Id, names: map<Id, string>)
    requires SortedByName(r, names) && x in names && j <= |r|
    requires forall k :: 0 <= k < j ==> !NameLess(names[x], names[r[k]])
    requires j < |r| ==> NameLess(names[x], names[r[j]])
    ensures SortedByName(r[..j] + [x] + r[j..], names)
  {
    var s := r[..j] + [x] + r[j..];
    forall a, b | 0 <= a < b < |s|
      ensures !NameLess(names[s[b]], names[s[a]])
    {
      if b < j {
        assert s[a] == r[a] && s[b] == r[b];
      } else if b == j {
        assert s[a] == r[a] && s[b] == x;
      } else if a == j {
        assert s[b] == r[b - 1] && s[a] == x;
        if b - 1 == j {
          NameLessIrreflexive(names[r[j]]);
        }
        assert !NameLess(names[r[b - 1]], names[r[j]]);
        LessThenNotLess(names[x], names[r[j]], names[r[b - 1]]);
      } else if a < j {
        assert s[a] == r[a] && s[b] == r[b - 1];
      } else {
        assert s[a] == r[a - 1] && s[b] == r[b - 1];
      }
    }
  }

  /** The first position whose name comes after x's: where an insertion
      sort puts x. */
  method InsertionPoint(r: seq<Id>, x: Id, names: map<Id, string>) returns (j: nat)
    requires x in names && forall i :: 0 <= i < |r| ==> r[i] in names
    ensures j <= |r|
    ensures forall k :: 0 <= k < j ==> !NameLess(names[x], names[r[k]])
    ensures j < |r| ==> NameLess(names[x], names[r[j]])
  {
    j := 0;
    while j < |r| && !NameLess(names[x], names[r[j]])
      invariant 0 <= j <= |r|
      invariant forall k :: 0 <= k < j ==> !NameLess(names[x], names[r[k]])
    {
      j := j + 1;
    }
  }

  lemma InsertPermutes(r: seq<Id>, j: nat, x: Id)
    requires j <= |r|
    ensures multiset(r[..j] + [x] + r[j..]) == multiset(r) + multiset{x}
  {
    assert r == r[..j] + r[j..];
  }

  /** std::sort by name: a permutation of the input, sorted by name. Names
      may repeat, so the order among equal names is not fixed. */
  method SortByName(ids: seq<Id>, names: map<Id, string>) returns (r: seq<Id>)
    requires forall i :: 0 <= i < |ids| ==> ids[i] in names
    ensures multiset(r) == multiset(ids)
    ensures SortedByName(r, names)
  {
    r := [];
    var i := 0;
    while i < |ids|
      invariant 0 <= i <= |ids|
      invariant multiset(r) == multiset(ids[..i])
      invariant SortedByName(r, names)
    {
      var x := ids[i];
      var j := InsertionPoint(r, x, names);
      InsertSorted(r, j, x, names);
      InsertPermutes(r, j, x);
      assert ids[..i + 1] == ids[..i] + [x];
      r := r[..j] + [x] + r[j..];
      i := i + 1;
    }
    assert ids[..i] == ids;
  }

  /** Names that never decrease along the list. */
  predicate NamesSorted(r: seq<string>)
  {
    forall i, j :: 0 <= i < j < |r| ==> !NameLess(r[j], r[i])
  }

  /** The names of a list of identifiers, in the same order: sorted when the
      list is sorted by name. */
  method NamesInOrder(ids: seq<Id>, names: map<Id, string>) returns (r: seq<string>)
    requires forall i :: 0 <= i < |ids| ==> ids[i] in names
    ensures |r| == |ids|
    ensures forall i :: 0 <= i < |ids| ==> r[i] == names[ids[i]]
    ensures SortedByName(ids, names) ==> NamesSorted(r)
  {
    r := [];
    var i := 0;
    while i < |ids|
      invariant 0 <= i <= |ids|
      invariant |r| == i
      invariant forall k :: 0 <= k < i ==> r[k] == names[ids[k]]
    {
      r := r + [names[ids[i]]];
      i := i + 1;
    }
  }
}
