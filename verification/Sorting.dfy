/** What the Go library's sort promises: an ascending rearrangement, with the
    order of equal elements left open. Elements are compared by a name. */
module Sorting {

  /** Go's `<=` on strings, by character. */
  predicate NameLe(a: string, b: string)
  {
    a == "" || (b != "" && (a[0] < b[0] || (a[0] == b[0] && NameLe(a[1..], b[1..]))))
  }

  /** Alphabetical order: `a` is a beginning of `b`, or has the smaller character
      where they first differ. */
  ghost predicate Alphabetical(a: string, b: string)
  {
    a <= b || exists k :: FirstSmaller(a, b, k)
  }

  ghost predicate FirstSmaller(a: string, b: string, k: int)
  {
    0 <= k < |a| && k < |b| && a[..k] == b[..k] && a[k] < b[k]
  }

  lemma FirstSmallerShifts(a: string, b: string, k: int)
    requires a != "" && b != "" && a[0] == b[0] && k > 0
    ensures FirstSmaller(a, b, k) <==> FirstSmaller(a[1..], b[1..], k - 1)
  {
    if k < |a| && k < |b| {
      assert a[1..][..k - 1] == a[..k][1..] && b[1..][..k - 1] == b[..k][1..];
      assert a[..k] == [a[0]] + a[1..][..k - 1] && b[..k] == [b[0]] + b[1..][..k - 1];
    }
  }

  /** The order is alphabetical. */
  lemma {:induction false} NameLeMeans(a: string, b: string)
    ensures NameLe(a, b) <==> a <= b || exists k :: 0 <= k < |a| && k < |b| && a[..k] == b[..k] && a[k] < b[k]
    ensures NameLe(a, b) <==> Alphabetical(a, b)
  {
    assert forall k :: FirstSmaller(a, b, k) <==> 0 <= k < |a| && k < |b| && a[..k] == b[..k] && a[k] < b[k];
    if a != "" && b != "" {
      if a[0] == b[0] {
        NameLeMeans(a[1..], b[1..]);
        forall k | k > 0 ensures FirstSmaller(a, b, k) <==> FirstSmaller(a[1..], b[1..], k - 1) {
          FirstSmallerShifts(a, b, k);
        }
        if k :| FirstSmaller(a[1..], b[1..], k) { assert FirstSmaller(a, b, k + 1); }
        assert a == [a[0]] + a[1..] && b == [b[0]] + b[1..];
      } else {
        FirstDiffer(a, b);
      }
    }
  }

  lemma FirstDiffer(a: string, b: string)
    requires a != "" && b != "" && a[0] != b[0]
    ensures Alphabetical(a, b) <==> a[0] < b[0]
  {
    assert FirstSmaller(a, b, 0) <==> a[0] < b[0];
    forall k | k > 0 ensures !FirstSmaller(a, b, k) {
      if k < |a| && k < |b| { assert a[..k][0] == a[0] && b[..k][0] == b[0]; }
    }
  }

  lemma {:induction false} NameLeTotal(a: string, b: string)
    ensures NameLe(a, b) || NameLe(b, a)
    ensures NameLe(a, b) && NameLe(b, a) ==> a == b
  {
    if a != "" && b != "" {
      NameLeTotal(a[1..], b[1..]);
      assert a == [a[0]] + a[1..] && b == [b[0]] + b[1..];
    }
  }

  lemma AlphabeticalTotal(a: string, b: string)
    ensures Alphabetical(a, b) || Alphabetical(b, a)
    ensures Alphabetical(a, b) && Alphabetical(b, a) ==> a == b
  {
    NameLeMeans(a, b);
    NameLeMeans(b, a);
    NameLeTotal(a, b);
  }

  lemma AlphabeticalTransitive(a: string, b: string, c: string)
    requires Alphabetical(a, b) && Alphabetical(b, c)
    ensures Alphabetical(a, c)
  {
    NameLeMeans(a, b);
    NameLeMeans(b, c);
    NameLeMeans(a, c);
    NameLeTransitive(a, b, c);
  }

  lemma {:induction false} NameLeTransitive(a: string, b: string, c: string)
    requires NameLe(a, b) && NameLe(b, c)
    ensures NameLe(a, c)
  {
    if a != "" && a[0] == b[0] && b[0] == c[0] {
      NameLeTransitive(a[1..], b[1..], c[1..]);
    }
  }

  ghost predicate SortedByName<T>(s: seq<T>, name: T -> string)
  {
    forall i, j :: 0 <= i < j < |s| ==> Alphabetical(name(s[i]), name(s[j]))
  }

  ghost predicate DistinctNames<T>(s: seq<T>, name: T -> string)
  {
    forall i, j :: 0 <= i < j < |s| ==> name(s[i]) != name(s[j])
  }

  ghost predicate Ordering<T(!new)>(le: (T, T) -> bool)
  {
    && (forall x, y :: le(x, y) || le(y, x))
    && (forall x, y, z :: le(x, y) && le(y, z) ==> le(x, z))
  }

  ghost predicate Sorted<T>(s: seq<T>, le: (T, T) -> bool)
  {
    forall i, j :: 0 <= i < j < |s| ==> le(s[i], s[j])
  }

  /** sort.Slice and sort.Ints. */
  method Sort<T(!new)>(s: seq<T>, le: (T, T) -> bool) returns (r: seq<T>)
    requires Ordering(le)
    ensures multiset(r) == multiset(s)
    ensures Sorted(r, le)
  {
    r := [];
    for i := 0 to |s|
      invariant multiset(r) == multiset(s[..i])
      invariant Sorted(r, le)
    {
      r := Insert(r, s[i], le);
      assert s[..i + 1] == s[..i] + [s[i]];
    }
    assert s[..|s|] == s;
  }

  method Insert<T(!new)>(s: seq<T>, x: T, le: (T, T) -> bool) returns (r: seq<T>)
    requires Ordering(le) && Sorted(s, le)
    ensures multiset(r) == multiset(s) + multiset{x}
    ensures Sorted(r, le)
  {
    var k := |s|;
    while k > 0 && !le(s[k - 1], x)
      invariant 0 <= k <= |s|
      invariant forall m :: k <= m < |s| ==> le(x, s[m])
    {
      k := k - 1;
    }
    InsertSorted(s, k, x, le);
    assert s == s[..k] + s[k..];
    r := s[..k] + [x] + s[k..];
  }

  lemma InsertSorted<T(!new)>(s: seq<T>, k: nat, x: T, le: (T, T) -> bool)
    requires Ordering(le) && Sorted(s, le) && k <= |s|
    requires k > 0 ==> le(s[k - 1], x)
    requires forall m :: k <= m < |s| ==> le(x, s[m])
    ensures Sorted(s[..k] + [x] + s[k..], le)
  {
    forall m | 0 <= m < k ensures le(s[m], x) {
      if m < k - 1 { assert le(s[m], s[k - 1]); }
    }
  }

  lemma SameElements<T>(s: seq<T>, r: seq<T>, x: T)
    requires multiset(r) == multiset(s)
    ensures x in r <==> x in s
  {
    assert x in multiset(r) <==> x in r;
    assert x in multiset(s) <==> x in s;
  }

  lemma ByNameIsOrdering<T(!new)>(name: T -> string)
    ensures Ordering((x: T, y: T) => NameLe(name(x), name(y)))
  {
    forall x: T, y: T ensures NameLe(name(x), name(y)) || NameLe(name(y), name(x)) {
      NameLeTotal(name(x), name(y));
    }
    forall x: T, y: T, z: T | NameLe(name(x), name(y)) && NameLe(name(y), name(z)) ensures NameLe(name(x), name(z)) {
      NameLeTransitive(name(x), name(y), name(z));
    }
  }

  /** sort.Slice by name. */
  method SortByName<T(!new)>(s: seq<T>, name: T -> string) returns (r: seq<T>)
    ensures multiset(r) == multiset(s)
    ensures SortedByName(r, name)
  {
    ByNameIsOrdering(name);
    r := Sort(s, (x: T, y: T) => NameLe(name(x), name(y)));
    forall i, j | 0 <= i < j < |r| ensures Alphabetical(name(r[i]), name(r[j])) {
      NameLeMeans(name(r[i]), name(r[j]));
    }
  }
}
