/** Component stores and the component-indexed query a system iterates. */
module World {
  import opened Common

  /** An in-memory store as the world sees it, whatever its component type: who
      has a value. */
  class Index {
    var ids: set<int>

    constructor ()
      ensures ids == {}
    {
      ids := {};
    }

    method Has(id: int) returns (ok: bool)
      ensures ok <==> id in ids
    {
      ok := id in ids;
    }

    /** The ids in increasing order, in a slice the caller owns. */
    method EntityIDs() returns (slice: array<int>)
      ensures fresh(slice) && slice[..] == Ascending(ids)
    {
      var rest, out := ids, [];
      while rest != {}
        invariant out + Ascending(rest) == Ascending(ids)
        decreases rest
      {
        var least := Least(rest);
        out, rest := out + [least], rest - {least};
      }
      slice := new int[|out|](i requires 0 <= i < |out| => out[i]);
    }
  }

  /** What filtering keeps, in order. */
  function Filter(s: seq<int>, keep: set<int>): seq<int> {
    if |s| == 0 then []
    else Filter(s[..|s| - 1], keep) + if s[|s| - 1] in keep then [s[|s| - 1]] else []
  }

  /** The filter through `kept := ids[:0]`, which overwrites the slice it is
      reading; `n` is the slice's length, the array its backing store. */
  method RetainInPlace(ids: array<int>, n: nat, index: Index) returns (k: nat)
    requires n <= ids.Length
    modifies ids
    ensures k <= n && ids[..k] == Filter(old(ids[..n]), index.ids)
  {
    k := 0;
    ghost var was := ids[..n];
    for i := 0 to n
      invariant k <= i
      invariant ids[..k] == Filter(was[..i], index.ids)
      invariant forall j :: i <= j < n ==> ids[j] == was[j]
    {
      assert was[..i + 1][..i] == was[..i];
      var has := index.Has(ids[i]);
      if has {
        ids[k] := ids[i];
        k := k + 1;
      }
    }
    assert was[..n] == was;
  }

  lemma {:induction false} FilterKeeps(s: seq<int>, keep: set<int>)
    requires StrictlyIncreasing(s)
    ensures StrictlyIncreasing(Filter(s, keep))
    ensures forall x :: x in Filter(s, keep) <==> x in s && x in keep
  {
    if |s| != 0 {
      var front, last := s[..|s| - 1], s[|s| - 1];
      FilterKeeps(front, keep);
      assert s == front + [last];
      var f := Filter(front, keep);
      assert forall i :: 0 <= i < |f| ==> f[i] in f;
    }
  }

  lemma FrontIsBelow(s: seq<int>)
    requires StrictlyIncreasing(s) && s != []
    ensures forall x :: x in s[..|s| - 1] <==> x in s && x < s[|s| - 1]
  {
    var front, last := s[..|s| - 1], s[|s| - 1];
    assert s == front + [last];
    forall x | x in front ensures x in s && x < last {
      var i :| 0 <= i < |front| && front[i] == x;
      assert s[i] == x;
    }
  }

  /** A set has one sorted enumeration. */
  lemma {:induction false} SortedIsUnique(s: seq<int>, t: seq<int>)
    requires StrictlyIncreasing(s) && StrictlyIncreasing(t) && forall x :: x in s <==> x in t
    ensures s == t
  {
    assert (s != [] ==> s[0] in s) && (t != [] ==> t[0] in t);
    if s != [] && t != [] {
      var n, m := |s| - 1, |t| - 1;
      assert s[n] in t && t[m] in s;
      assert s[n] == t[m];
      FrontIsBelow(s);
      FrontIsBelow(t);
      assert forall x :: x in s[..n] <==> x in s && x < s[n];
      assert forall x :: x in t[..m] <==> x in t && x < t[m];
      SortedIsUnique(s[..n], t[..m]);
      assert s == s[..n] + [s[n]] && t == t[..m] + [t[m]];
    }
  }

  /** Filtering one index's ids by another is the enumeration of the intersection. */
  lemma FilterIntersects(s: set<int>, keep: set<int>)
    ensures Filter(Ascending(s), keep) == Ascending(s * keep)
  {
    AscendingIsSorted(s);
    AscendingIsSorted(s * keep);
    FilterKeeps(Ascending(s), keep);
    SortedIsUnique(Filter(Ascending(s), keep), Ascending(s * keep));
  }

  method Narrow(ids: array<int>, n: nat, index: Index, ghost before: set<int>) returns (k: nat)
    requires n <= ids.Length && ids[..n] == Ascending(before)
    modifies ids
    ensures k <= n && ids[..k] == Ascending(before * index.ids)
  {
    k := RetainInPlace(ids, n, index);
    FilterIntersects(before, index.ids);
  }

  /** What the first `i` sets have in common. */
  ghost function Meet(sets: seq<set<int>>, i: nat): set<int>
    requires 1 <= i <= |sets|
  {
    if i == 1 then sets[0] else Meet(sets, i - 1) * sets[i - 1]
  }

  lemma {:induction false} MeetIsAll(sets: seq<set<int>>, i: nat)
    requires 1 <= i <= |sets|
    ensures forall x :: x in Meet(sets, i) <==> forall j :: 0 <= j < i ==> x in sets[j]
  {
    if i > 1 { MeetIsAll(sets, i - 1); }
  }

  datatype QueryResult = Found(ids: seq<int>) | UnknownComponent(name: string) | StoreFailed(name: string)

  class World {
    var indexes: map<string, Index>

    ghost function IdsOf(name: string): set<int>
      reads this, indexes.Values
    {
      if name in indexes then indexes[name].ids else {}
    }

    ghost function Sets(names: seq<string>): (sets: seq<set<int>>)
      reads this, indexes.Values
      ensures |sets| == |names| && forall k :: 0 <= k < |names| ==> sets[k] == IdsOf(names[k])
    {
      if |names| == 0 then [] else Sets(names[..|names| - 1]) + [IdsOf(names[|names| - 1])]
    }

    /** Entities having every one of the named components. */
    ghost predicate HasAll(id: int, names: seq<string>)
      requires forall n :: n in names ==> n in indexes
      reads this, indexes.Values
    {
      forall n :: n in names ==> id in indexes[n].ids
    }

    constructor ()
      ensures indexes == map[]
    {
      indexes := map[];
    }

    method Register(name: string, idx: Index)
      modifies this
      ensures indexes == old(indexes)[name := idx]
    {
      indexes := indexes[name := idx];
    }

    /** The sorted intersection of the named indexes; the first unknown name is
        the error; no name at all means no entity. Reading a store of `broken`
        fails: always if it is the first, else if there is an id left to ask
        it for. */
    method Query(names: seq<string>, broken: set<string>) returns (r: QueryResult)
      ensures r.Found? ==>
          && (forall n :: n in names ==> n in indexes)
          && StrictlyIncreasing(r.ids)
          && (names == [] ==> r.ids == [])
          && (names != [] ==> names[0] !in broken && forall id :: id in r.ids <==> HasAll(id, names))
          && (r.ids != [] ==> forall n :: n in names ==> n !in broken)
      ensures r.UnknownComponent? ==> FirstAt(names, r.name) && r.name !in indexes
      ensures r.StoreFailed? ==> FirstAt(names, r.name) && r.name in indexes && r.name in broken
      ensures (forall n :: n in names ==> n !in broken) ==> (r.Found? <==> forall n :: n in names ==> n in indexes)
    {
      if |names| == 0 { return Found([]); }
      if names[0] !in indexes { return UnknownComponent(names[0]); }
      if names[0] in broken { return StoreFailed(names[0]); }
      var ids := indexes[names[0]].EntityIDs();
      assert ids[..ids.Length] == ids[..];
      var n, stop := NarrowAll(names, broken, ids);
      if stop < |names| { return if names[stop] !in indexes then UnknownComponent(names[stop]) else StoreFailed(names[stop]); }
      AscendingIsSorted(Meet(Sets(names), |names|));
      MeetHasAll(names);
      return Found(ids[..n]);
    }

    /** Query's loop over the further names: filters in place and stops at a name
        that is unknown or whose store fails. */
    method NarrowAll(names: seq<string>, broken: set<string>, ids: array<int>) returns (n: nat, stop: nat)
      requires names != [] && names[0] in indexes && names[0] !in broken && ids[..] == Ascending(indexes[names[0]].ids)
      modifies ids
      ensures 1 <= stop <= |names| && forall j :: 0 <= j < stop ==> names[j] in indexes
      ensures stop < |names| ==> names[stop] !in indexes || (names[stop] in broken && n > 0)
      ensures n <= ids.Length && ids[..n] == Ascending(Meet(Sets(names), stop))
      ensures n > 0 ==> forall j :: 0 <= j < stop ==> names[j] !in broken
    {
      n, stop := ids.Length, 1;
      ghost var sets := Sets(names);
      assert ids[..n] == ids[..];
      while stop < |names| && names[stop] in indexes && !(n > 0 && names[stop] in broken)
        invariant 1 <= stop <= |names| && n <= ids.Length
        invariant forall j :: 0 <= j < stop ==> names[j] in indexes
        invariant ids[..n] == Ascending(Meet(sets, stop))
        invariant n > 0 ==> forall j :: 0 <= j < stop ==> names[j] !in broken
      {
        n := Narrow(ids, n, indexes[names[stop]], Meet(sets, stop));
        stop := stop + 1;
      }
    }

    lemma MeetHasAll(names: seq<string>)
      requires names != [] && forall n :: n in names ==> n in indexes
      ensures forall id :: id in Meet(Sets(names), |names|) <==> HasAll(id, names)
    {
      MeetIsAll(Sets(names), |names|);
    }

    /** `name` occurs and every name before its first occurrence is known. */
    ghost predicate FirstAt(names: seq<string>, name: string)
      reads this
    {
      exists i :: 0 <= i < |names| && names[i] == name && forall j :: 0 <= j < i ==> names[j] in indexes
    }
  }
}
