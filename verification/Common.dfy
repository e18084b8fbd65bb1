/** Vocabulary shared by the component models. */
module Common {

  datatype Option<+T> = None | Some(value: T)

  /** How often `x` occurs in `s`. */
  function Count<T(==)>(x: T, s: seq<T>): (n: nat)
    ensures n <= |s|
    ensures n == 0 <==> x !in s
  {
    if |s| == 0 then 0
    else
      var rest := Count(x, s[..|s| - 1]);
      assert s == s[..|s| - 1] + [s[|s| - 1]];
      rest + if s[|s| - 1] == x then 1 else 0
  }

  lemma CountAppend<T>(x: T, s: seq<T>, y: T)
    ensures Count(x, s + [y]) == Count(x, s) + if x == y then 1 else 0
  {
    assert (s + [y])[..|s|] == s;
  }

  ghost predicate Distinct<T(!new)>(s: seq<T>) {
    forall i, j :: 0 <= i < j < |s| ==> s[i] != s[j]
  }

  ghost predicate StrictlyIncreasing(s: seq<int>) {
    forall i, j :: 0 <= i < j < |s| ==> s[i] < s[j]
  }

  lemma {:induction false} CountDistinct<T(!new)>(x: T, s: seq<T>)
    requires Distinct(s)
    ensures Count(x, s) == if x in s then 1 else 0
  {
    if |s| != 0 {
      var front := s[..|s| - 1];
      assert s == front + [s[|s| - 1]];
      CountDistinct(x, front);
    }
  }

  // -------------------------------------------------- sets in sorted order

  lemma Member<T>(s: set<T>) returns (a: T)
    requires s != {}
    ensures a in s
  {
    a :| a in s;
  }

  predicate IsLeast(m: int, s: set<int>) { m in s && forall x :: x in s ==> m <= x }

  lemma {:induction false} LeastExists(s: set<int>)
    requires s != {}
    ensures exists m :: IsLeast(m, s)
    decreases s
  {
    var a := Member(s);
    var rest := s - {a};
    if rest == {} {
      assert s == {a};
      assert IsLeast(a, s);
    } else {
      LeastExists(rest);
      var m :| IsLeast(m, rest);
      var least := if a < m then a else m;
      forall x | x in s ensures least <= x { assert x == a || x in rest; }
      assert IsLeast(least, s);
    }
  }

  function Least(s: set<int>): (m: int)
    requires s != {}
    ensures IsLeast(m, s)
  {
    LeastExists(s);
    var m :| IsLeast(m, s);
    m
  }

  /** The elements of a set in increasing order. */
  function Ascending(s: set<int>): seq<int> {
    if s == {} then [] else var m := Least(s); [m] + Ascending(s - {m})
  }

  lemma {:induction false} AscendingIsSorted(s: set<int>)
    ensures StrictlyIncreasing(Ascending(s)) && |Ascending(s)| == |s|
    ensures forall x :: x in Ascending(s) <==> x in s
    decreases s
  {
    if s != {} {
      var m := Least(s);
      AscendingIsSorted(s - {m});
      var rest := Ascending(s - {m});
      assert forall i :: 0 <= i < |rest| ==> rest[i] in rest;
    }
  }
}
