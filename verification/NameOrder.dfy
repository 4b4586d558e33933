/** Sorting by name, as the groups do with String.compareTo. */
module NameOrder {

  /** a.compareTo(b) <= 0. */
  predicate NotAfter(a: string, b: string) {
    a == "" || (b != "" && (a[0] < b[0] || (a[0] == b[0] && NotAfter(a[1..], b[1..]))))
  }

  /** Up to i both are alike, and there a has the smaller character. */
  predicate SmallerAt(a: string, b: string, i: nat) {
    i < |a| && i < |b| && a[..i] == b[..i] && a[i] < b[i]
  }

  lemma SmallerLater(a: string, b: string, i: nat)
    requires a != "" && b != "" && a[0] == b[0]
    ensures SmallerAt(a, b, i + 1) <==> SmallerAt(a[1..], b[1..], i)
    ensures !SmallerAt(a, b, 0)
  {
    if i < |a[1..]| && i < |b[1..]| {
      assert a[..i + 1] == [a[0]] + a[1..][..i] && b[..i + 1] == [b[0]] + b[1..][..i];
      assert a[..i + 1][1..] == a[1..][..i] && b[..i + 1][1..] == b[1..][..i];
    }
  }

  lemma PrefixLater(a: string, b: string)
    requires a != "" && b != "" && a[0] == b[0]
    ensures a <= b <==> a[1..] <= b[1..]
  {
    assert a == [a[0]] + a[1..] && b == [b[0]] + b[1..];
  }

  /** The order of compareTo: a prefix comes first, otherwise the first character that differs decides. */
  lemma {:induction false} NotAfterIff(a: string, b: string)
    ensures NotAfter(a, b) <==> a <= b || exists i: nat :: SmallerAt(a, b, i)
  {
    if a != "" && b != "" {
      if a[0] == b[0] {
        hide SmallerAt;
        NotAfterIff(a[1..], b[1..]);
        PrefixLater(a, b);
        if i: nat :| SmallerAt(a, b, i) {
          SmallerLater(a, b, 0);
          SmallerLater(a, b, i - 1);
          assert SmallerAt(a[1..], b[1..], i - 1);
        }
        if i: nat :| SmallerAt(a[1..], b[1..], i) {
          SmallerLater(a, b, i);
          assert SmallerAt(a, b, i + 1);
        }
      } else {
        forall i | 0 < i <= |a| && i <= |b| ensures a[..i] != b[..i] { assert a[..i][0] != b[..i][0]; }
        assert SmallerAt(a, b, 0) <==> a[0] < b[0];
      }
    }
  }

  lemma {:induction false} Total(a: string, b: string)
    ensures NotAfter(a, b) || NotAfter(b, a)
  {
    if a != "" && b != "" { Total(a[1..], b[1..]); }
  }

  lemma {:induction false} Antisymmetric(a: string, b: string)
    requires NotAfter(a, b) && NotAfter(b, a)
    ensures a == b
  {
    if a != "" {
      Antisymmetric(a[1..], b[1..]);
      assert a == [a[0]] + a[1..] && b == [b[0]] + b[1..];
    }
  }

  lemma {:induction false} Transitive(a: string, b: string, c: string)
    requires NotAfter(a, b) && NotAfter(b, c)
    ensures NotAfter(a, c)
  {
    if a != "" && a[0] == b[0] == c[0] { Transitive(a[1..], b[1..], c[1..]); }
  }

  predicate Sorted(names: seq<string>) {
    forall i, j {:trigger names[i], names[j]} :: 0 <= i < j == i + 1 < |names| ==> NotAfter(names[i], names[j])
  }

  function Insert(name: string, names: seq<string>): seq<string> {
    if names == [] || NotAfter(name, names[0]) then [name] + names
    else [names[0]] + Insert(name, names[1..])
  }

  function Sort(names: seq<string>): seq<string> {
    if names == [] then [] else Insert(names[0], Sort(names[1..]))
  }

  lemma SortedRest(names: seq<string>)
    requires Sorted(names) && names != []
    ensures Sorted(names[1..]) && (|names| > 1 ==> NotAfter(names[0], names[1]))
  {
    hide NotAfter;
    var rest := names[1..];
    forall i, j | 0 <= i < j == i + 1 < |rest| ensures NotAfter(rest[i], rest[j]) {
      assert NotAfter(names[i + 1], names[j + 1]);
    }
    if |names| > 1 { assert NotAfter(names[0], names[1]); }
  }

  lemma SortedFront(name: string, rest: seq<string>)
    requires Sorted(rest) && (rest != [] ==> NotAfter(name, rest[0]))
    ensures Sorted([name] + rest)
  {
    hide NotAfter;
    var names := [name] + rest;
    forall i, j | 0 <= i < j == i + 1 < |names| ensures NotAfter(names[i], names[j]) {
      if i > 0 { assert NotAfter(rest[i - 1], rest[j - 1]); }
    }
  }

  lemma {:induction false} InsertSorts(name: string, names: seq<string>)
    requires Sorted(names)
    ensures Sorted(Insert(name, names)) && multiset(Insert(name, names)) == multiset(names) + multiset{name}
    ensures Insert(name, names) != [] && Insert(name, names)[0] in {name} + (if names == [] then {} else {names[0]})
  {
    hide NotAfter, Sorted;
    if names == [] || NotAfter(name, names[0]) {
      SortedFront(name, names);
    } else {
      Total(name, names[0]);
      SortedRest(names);
      InsertSorts(name, names[1..]);
      SortedFront(names[0], Insert(name, names[1..]));
      assert names == [names[0]] + names[1..];
    }
  }

  /** Sorting gives the same names in order. */
  lemma {:induction false} SortSorts(names: seq<string>)
    ensures Sorted(Sort(names)) && multiset(Sort(names)) == multiset(names)
  {
    if names != [] {
      SortSorts(names[1..]);
      InsertSorts(names[0], Sort(names[1..]));
      assert names == [names[0]] + names[1..];
    }
  }

  /** Names already in order stay where they are. */
  lemma {:induction false} SortIsIdle(names: seq<string>)
    requires Sorted(names)
    ensures Sort(names) == names
  {
    if names != [] {
      forall i | 0 < i < |names[1..]| ensures NotAfter(names[1..][i - 1], names[1..][i]) {
        assert NotAfter(names[i], names[i + 1]);
      }
      SortIsIdle(names[1..]);
      assert |names| > 1 ==> NotAfter(names[0], names[1]);
      assert names == [names[0]] + names[1..];
    }
  }
}
