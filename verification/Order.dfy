// The byte-wise order of strings that sort.Strings and leveldb's iterator use, and sorting by it.
module Order {

  predicate Below(a: string, b: string) {
    if b == "" then false
    else if a == "" then true
    else a[0] < b[0] || (a[0] == b[0] && Below(a[1..], b[1..]))
  }

  lemma {:induction false} BelowIrreflexive(a: string)
    ensures !Below(a, a)
  {
    if a != "" { BelowIrreflexive(a[1..]); }
  }

  lemma {:induction false} BelowTransitive(a: string, b: string, c: string)
    requires Below(a, b) && Below(b, c)
    ensures Below(a, c)
  {
    if a != "" && a[0] == b[0] == c[0] { BelowTransitive(a[1..], b[1..], c[1..]); }
  }

  lemma {:induction false} BelowTotal(a: string, b: string)
    ensures a == b || Below(a, b) || Below(b, a)
  {
    if a != "" && b != "" && a[0] == b[0] {
      BelowTotal(a[1..], b[1..]);
      assert a == [a[0]] + a[1..] && b == [b[0]] + b[1..];
    }
  }

  ghost predicate StrictlySorted(s: seq<string>) {
    forall i, j :: 0 <= i < j < |s| ==> Below(s[i], s[j])
  }

  ghost function Elements(s: seq<string>): (r: set<string>)
    ensures forall x :: x in r <==> x in s
  {
    set x | x in s
  }

  lemma ElementsSnoc(s: seq<string>, x: string)
    ensures Elements(s + [x]) == Elements(s) + {x}
  {
  }

  lemma ElementsOne(x: string)
    ensures Elements([x]) == {x}
  {
  }

  lemma ElementsTake(s: seq<string>, i: nat)
    requires i < |s|
    ensures Elements(s[..i + 1]) == Elements(s[..i]) + {s[i]}
  {
    assert s[..i + 1] == s[..i] + [s[i]];
  }

  // One insertion step, for a key that is not in the list yet.
  function Insert(x: string, s: seq<string>): (r: seq<string>)
    requires StrictlySorted(s) && x !in s
    ensures StrictlySorted(r)
    ensures |r| == |s| + 1
    ensures forall y :: y in r <==> y == x || y in s
  {
    if s == [] then [x]
    else if Below(x, s[0]) then
      assert forall i :: 0 <= i < |s| ==> Below(x, s[i]) by {
        forall i | 0 < i < |s| ensures Below(x, s[i]) { BelowTransitive(x, s[0], s[i]); }
      }
      [x] + s
    else
      BelowTotal(x, s[0]);
      var t := Insert(x, s[1..]);
      assert forall y :: y in t ==> y == x || y in s[1..];
      assert forall y :: y in s <==> y == s[0] || y in s[1..];
      assert forall i :: 0 <= i < |t| ==> Below(s[0], t[i]) by {
        forall i | 0 <= i < |t| ensures Below(s[0], t[i]) {
          assert t[i] in t;
          if t[i] != x { var j :| 1 <= j < |s| && s[j] == t[i]; }
        }
      }
      [s[0]] + t
  }

  // sort.Strings on a list without repetitions.
  function SortStrings(s: seq<string>): (r: seq<string>)
    requires forall i, j :: 0 <= i < j < |s| ==> s[i] != s[j]
    ensures StrictlySorted(r)
    ensures |r| == |s|
    ensures Elements(r) == Elements(s)
  {
    if s == [] then []
    else
      var t := SortStrings(s[1..]);
      assert s == [s[0]] + s[1..];
      assert Elements(t) == Elements(s[1..]);
      assert forall y :: y in t <==> y in s[1..];
      Insert(s[0], t)
  }

  // The elements of a set in ascending order: the one strictly sorted list with these elements.
  ghost function SortedSeq(s: set<string>): (r: seq<string>)
    ensures StrictlySorted(r)
    ensures Elements(r) == s
    ensures |r| == |s|
  {
    if s == {} then []
    else
      var x :| x in s;
      var t := SortedSeq(s - {x});
      assert x !in t;
      Insert(x, t)
  }

  lemma NoElements(s: seq<string>)
    ensures Elements(s) == {} <==> s == []
  {
    if s != [] { assert s[0] in Elements(s); }
  }

  lemma {:induction false} SortedUnique(s: seq<string>, t: seq<string>)
    requires StrictlySorted(s) && StrictlySorted(t) && Elements(s) == Elements(t)
    ensures s == t
  {
    if s == [] {
      NoElements(s);
      NoElements(t);
    } else {
      NoElements(s);
      NoElements(t);
      SameHead(s, t);
      forall x ensures x in s[1..] <==> x in t[1..] {
        BelowIrreflexive(s[0]);
        assert x in s <==> x == s[0] || x in s[1..];
        assert x in t <==> x == t[0] || x in t[1..];
        assert x in Elements(s) <==> x in Elements(t);
      }
      SortedUnique(s[1..], t[1..]);
      assert s == [s[0]] + s[1..] && t == [t[0]] + t[1..];
    }
  }

  lemma SameHead(s: seq<string>, t: seq<string>)
    requires StrictlySorted(s) && StrictlySorted(t) && Elements(s) == Elements(t)
    requires s != [] && t != []
    ensures s[0] == t[0]
  {
    assert s[0] in Elements(t) && t[0] in Elements(s);
    var i :| 0 <= i < |t| && t[i] == s[0];
    var j :| 0 <= j < |s| && s[j] == t[0];
    if i > 0 && j > 0 {
      BelowTransitive(s[0], s[j], s[0]);
      BelowIrreflexive(s[0]);
    }
  }

  // Every list of the elements of a set, without repetition, sorts to the same list.
  lemma SortIsCanonical(s: seq<string>, elems: set<string>)
    requires forall i, j :: 0 <= i < j < |s| ==> s[i] != s[j]
    requires Elements(s) == elems
    ensures SortStrings(s) == SortedSeq(elems)
  {
    SortedUnique(SortStrings(s), SortedSeq(elems));
  }

  lemma StrictlySortedDistinct(s: seq<string>, i: nat, j: nat)
    requires StrictlySorted(s) && i < |s| && j < |s| && i != j
    ensures s[i] != s[j]
  {
    BelowIrreflexive(s[i]);
  }

  lemma StrictlySortedAll(s: seq<string>)
    requires StrictlySorted(s)
    ensures forall i, j :: 0 <= i < |s| && 0 <= j < |s| && i != j ==> s[i] != s[j]
  {
    forall i, j | 0 <= i < |s| && 0 <= j < |s| && i != j ensures s[i] != s[j] {
      StrictlySortedDistinct(s, i, j);
    }
  }

  // sort.Slice with a comparator that is a strict weak order.
  ghost predicate WeakOrder<T(!new)>(less: (T, T) -> bool) {
    && (forall x, y :: less(x, y) ==> !less(y, x))
    && (forall x, y, z :: !less(x, y) && !less(y, z) ==> !less(x, z))
  }

  ghost predicate SortedBy<T(!new)>(s: seq<T>, less: (T, T) -> bool) {
    forall i, j :: 0 <= i < j < |s| ==> !less(s[j], s[i])
  }

  function SortSlice<T(!new)>(s: seq<T>, less: (T, T) -> bool): (r: seq<T>)
    requires WeakOrder(less)
    ensures SortedBy(r, less) && |r| == |s|
    ensures multiset(r) == multiset(s)
  {
    if s == [] then []
    else
      assert s == [s[0]] + s[1..];
      InsertBy(s[0], SortSlice(s[1..], less), less)
  }

  function InsertBy<T(!new)>(x: T, s: seq<T>, less: (T, T) -> bool): (r: seq<T>)
    requires WeakOrder(less) && SortedBy(s, less)
    ensures SortedBy(r, less) && |r| == |s| + 1
    ensures multiset(r) == multiset(s) + multiset{x}
  {
    if s == [] || !less(s[0], x) then
      [x] + s
    else
      var t := InsertBy(x, s[1..], less);
      assert s == [s[0]] + s[1..];
      assert forall i :: 0 <= i < |t| ==> !less(t[i], s[0]) by {
        forall i | 0 <= i < |t| ensures !less(t[i], s[0]) {
          assert t[i] in multiset(t);
          assert t[i] == x || t[i] in multiset(s[1..]);
        }
      }
      [s[0]] + t
  }

  ghost predicate Distinct<T(!new)>(s: seq<T>) {
    forall i, j :: 0 <= i < j < |s| ==> s[i] != s[j]
  }

  lemma {:induction false} InsertDistinct<T(!new)>(x: T, s: seq<T>, less: (T, T) -> bool)
    requires WeakOrder(less) && SortedBy(s, less) && Distinct(s) && x !in s
    ensures Distinct(InsertBy(x, s, less))
  {
    if s != [] && less(s[0], x) {
      InsertDistinct(x, s[1..], less);
      var t := InsertBy(x, s[1..], less);
      forall i | 0 <= i < |t| ensures t[i] != s[0] {
        assert t[i] in multiset(t);
        assert t[i] == x || t[i] in multiset(s[1..]);
      }
    }
  }

  // Sorting keeps a list without repetitions free of them.
  lemma {:induction false} SortDistinct<T(!new)>(s: seq<T>, less: (T, T) -> bool)
    requires WeakOrder(less) && Distinct(s)
    ensures Distinct(SortSlice(s, less))
  {
    if s != [] {
      SortDistinct(s[1..], less);
      SortedElements(s[1..], less);
      InsertDistinct(s[0], SortSlice(s[1..], less), less);
    }
  }

  lemma SortedElements<T(!new)>(s: seq<T>, less: (T, T) -> bool)
    requires WeakOrder(less)
    ensures forall x :: x in SortSlice(s, less) <==> x in s
  {
    forall x ensures x in SortSlice(s, less) <==> x in s {
      assert x in multiset(SortSlice(s, less)) <==> x in multiset(s);
    }
  }
}
