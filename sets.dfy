/**
 * The insertion-ordered de-duplicating set of internal/ds/set.go.
 *
 * The Go type keeps a `map[T]bool` for membership and a slice for the
 * insertion order. The class below keeps both fields; the pure functions
 * `Insert` and `InsertAll` say what the list becomes, and the rest of the
 * model (used packages of a type) works with those functions directly.
 */
module Sets {

  /** No element occurs twice. */
  ghost predicate NoDuplicates<T>(s: seq<T>) {
    forall i, j :: 0 <= i < j < |s| ==> s[i] != s[j]
  }

  /** The list after `Add(v)`: unchanged when `v` is present, else `v` appended. */
  function Insert<T(==)>(s: seq<T>, v: T): seq<T> {
    if v in s then s else s + [v]
  }

  /** The list after adding every element of `t` in order (what `NewSet` and `Merge` do). */
  function InsertAll<T(==)>(s: seq<T>, t: seq<T>): seq<T>
    decreases |t|
  {
    if t == [] then s else InsertAll(Insert(s, t[0]), t[1..])
  }

  /** The list of `NewSet(vs...)`. */
  function FromSeq<T(==)>(vs: seq<T>): seq<T> {
    InsertAll([], vs)
  }

  /** Reference definition: an element is kept exactly when it does not occur earlier. */
  function FirstOccurrences<T(==)>(vs: seq<T>): seq<T>
    decreases |vs|
  {
    if vs == [] then []
    else
      var init := vs[..|vs| - 1];
      var last := vs[|vs| - 1];
      FirstOccurrences(init) + (if last in init then [] else [last])
  }

  /** The elements of `t` that are not in `s`, in `t`'s order. */
  function Without<T(==)>(t: seq<T>, s: seq<T>): seq<T>
    decreases |t|
  {
    if t == [] then []
    else (if t[0] in s then [] else [t[0]]) + Without(t[1..], s)
  }

  lemma {:induction false} WithoutElement<T>(t: seq<T>, s: seq<T>, x: T)
    ensures x in Without(t, s) <==> x in t && x !in s
    decreases |t|
  {
    if t != [] {
      WithoutElement(t[1..], s, x);
      assert t == [t[0]] + t[1..];
    }
  }

  /** The values a list holds. */
  ghost function Elements<T>(s: seq<T>): set<T> {
    set i | 0 <= i < |s| :: s[i]
  }

  lemma ElementsSnoc<T>(s: seq<T>, v: T)
    ensures Elements(s + [v]) == Elements(s) + {v}
  {
    var r := s + [v];
    assert r[|s|] == v;
    forall x | x in Elements(s) ensures x in Elements(r) {
      var i :| 0 <= i < |s| && s[i] == x;
      assert r[i] == x;
    }
  }

  lemma InsertKeepsNoDuplicates<T>(s: seq<T>, v: T)
    requires NoDuplicates(s)
    ensures NoDuplicates(Insert(s, v))
  {
  }

  /** Adding a value twice is the same as adding it once. */
  lemma AddIdempotent<T>(s: seq<T>, v: T)
    ensures Insert(Insert(s, v), v) == Insert(s, v)
    ensures v in Insert(s, v)
  {
  }

  /** `InsertAll` keeps the list free of duplicates and yields the union. */
  lemma {:induction false} InsertAllUnion<T>(s: seq<T>, t: seq<T>)
    requires NoDuplicates(s)
    ensures NoDuplicates(InsertAll(s, t))
    ensures forall x :: x in InsertAll(s, t) <==> x in s || x in t
    decreases |t|
  {
    if t != [] {
      InsertKeepsNoDuplicates(s, t[0]);
      InsertAllUnion(Insert(s, t[0]), t[1..]);
      assert forall x :: x in t <==> x == t[0] || x in t[1..] by {
        assert t == [t[0]] + t[1..];
      }
    }
  }

  /** Adding one more element at the end of `t` adds it after the others. */
  lemma {:induction false} InsertAllSnoc<T>(s: seq<T>, t: seq<T>, v: T)
    ensures InsertAll(s, t + [v]) == Insert(InsertAll(s, t), v)
    decreases |t|
  {
    if t == [] {
      assert [v][1..] == [];
    } else {
      assert (t + [v])[0] == t[0];
      assert (t + [v])[1..] == t[1..] + [v];
      InsertAllSnoc(Insert(s, t[0]), t[1..], v);
    }
  }

  /** Adding `a` then `b` is adding `a + b`. */
  lemma {:induction false} InsertAllAppend<T>(s: seq<T>, a: seq<T>, b: seq<T>)
    ensures InsertAll(s, a + b) == InsertAll(InsertAll(s, a), b)
    decreases |a|
  {
    if a == [] {
      assert a + b == b;
    } else {
      assert (a + b)[0] == a[0];
      assert (a + b)[1..] == a[1..] + b;
      InsertAllAppend(Insert(s, a[0]), a[1..], b);
    }
  }

  /** Generalised merge: the existing list stays a prefix and only the missing elements are appended. */
  lemma {:induction false} InsertAllSplit<T>(s: seq<T>, u: seq<T>, t: seq<T>)
    requires forall x :: x in u ==> x !in s
    ensures InsertAll(s + u, t) == s + InsertAll(u, Without(t, s))
    decreases |t|
  {
    if t != [] {
      var a := t[0];
      if a in s {
        assert Insert(s + u, a) == s + u;
        assert Without(t, s) == [] + Without(t[1..], s) == Without(t[1..], s);
        InsertAllSplit(s, u, t[1..]);
      } else {
        assert Insert(s + u, a) == s + Insert(u, a) by {
          if a in u { } else { assert a !in s + u; }
        }
        assert Without(t, s) == [a] + Without(t[1..], s);
        assert ([a] + Without(t[1..], s))[0] == a;
        assert ([a] + Without(t[1..], s))[1..] == Without(t[1..], s);
        InsertAllSplit(s, Insert(u, a), t[1..]);
      }
    }
  }

  /**
   * `Merge(that)` keeps the receiver's list as a prefix and appends `that`'s
   * elements that were not present, in `that`'s order, without repeats.
   */
  lemma MergeAppendsMissing<T>(s: seq<T>, t: seq<T>)
    ensures InsertAll(s, t) == s + FromSeq(Without(t, s))
  {
    InsertAllSplit(s, [], t);
    assert s + [] == s;
  }

  /** Merging the same list a second time changes nothing. */
  lemma {:induction false} MergeIdempotent<T>(s: seq<T>, t: seq<T>)
    requires NoDuplicates(s)
    ensures InsertAll(InsertAll(s, t), t) == InsertAll(s, t)
  {
    var r := InsertAll(s, t);
    InsertAllUnion(s, t);
    MergeAppendsMissing(r, t);
    assert Without(t, r) == [] by {
      if Without(t, r) != [] {
        var x := Without(t, r)[0];
        assert x in Without(t, r);
        WithoutElement(t, r, x);
        assert false;
      }
    }
    assert r + FromSeq([]) == r;
  }

  /** `NewSet(vs...)` keeps the first occurrence of each value, in order. */
  lemma {:induction false} NewSetKeepsFirstOccurrences<T>(vs: seq<T>)
    ensures FromSeq(vs) == FirstOccurrences(vs)
    ensures NoDuplicates(FromSeq(vs))
    ensures forall x :: x in FromSeq(vs) <==> x in vs
    decreases |vs|
  {
    InsertAllUnion([], vs);
    if vs != [] {
      var init := vs[..|vs| - 1];
      var last := vs[|vs| - 1];
      assert vs == init + [last];
      NewSetKeepsFirstOccurrences(init);
      InsertAllSnoc([], init, last);
    }
  }

  /**
   * The Go `Set[T]`: a membership map and the insertion-ordered list.
   * `Consistent` is the invariant every method keeps: the list has no
   * duplicates and the map holds `true` for exactly the listed values.
   */
  class Set<T(==)> {
    var members: map<T, bool>
    var list: seq<T>

    ghost predicate Consistent()
      reads this
    {
      && NoDuplicates(list)
      && members.Keys == Elements(list)
      && (forall i :: 0 <= i < |list| ==> members[list[i]])
    }

    /** `NewSet(values...)`. */
    constructor (values: seq<T>)
      ensures Consistent()
      ensures list == FromSeq(values)
    {
      members := map[];
      list := [];
      new;
      var i := 0;
      while i < |values|
        invariant 0 <= i <= |values|
        invariant Consistent()
        invariant InsertAll(list, values[i..]) == FromSeq(values)
      {
        assert values[i..][1..] == values[i + 1..];
        Add(values[i]);
        i := i + 1;
      }
    }

    /** `Add(val)`: appends `val` unless it is already present. */
    method Add(val: T)
      requires Consistent()
      modifies this
      ensures Consistent()
      ensures list == Insert(old(list), val)
      ensures members.Keys == old(members.Keys) + {val}
    {
      if val in members {
        return;
      }
      ElementsSnoc(list, val);
      list := list + [val];
      members := members[val := true];
    }

    /** `Merge(that)`: adds `that`'s elements in `that`'s order; `that` may be this set. */
    method Merge(that: Set<T>)
      requires Consistent()
      modifies this
      ensures Consistent()
      ensures list == InsertAll(old(list), old(that.list))
    {
      var items := that.list;
      var i := 0;
      while i < |items|
        invariant 0 <= i <= |items|
        invariant Consistent()
        invariant InsertAll(list, items[i..]) == InsertAll(old(list), items)
      {
        assert items[i..][1..] == items[i + 1..];
        Add(items[i]);
        i := i + 1;
      }
    }

    /** `List()`: the elements in insertion order, each once. */
    method List() returns (r: seq<T>)
      requires Consistent()
      ensures r == list
      ensures NoDuplicates(r)
      ensures forall v :: v in r <==> v in members
    {
      r := list;
    }

    /** `Valid()`: true exactly when the set holds at least one value. */
    method Valid() returns (b: bool)
      requires Consistent()
      ensures b <==> members.Keys != {}
      ensures b <==> exists v :: v in list
    {
      b := |list| > 0;
      if b {
        assert list[0] in Elements(list);
        assert list[0] in list;
      } else {
        assert Elements(list) == {};
      }
    }

    /** `Has(value)`: the map lookup, which yields false for a missing key. */
    method Has(value: T) returns (b: bool)
      requires Consistent()
      ensures b <==> value in list
    {
      b := value in members && members[value];
      if value in list {
        var i :| 0 <= i < |list| && list[i] == value;
        assert value in Elements(list);
      }
    }
  }
}
