/** The kernel's dependency sort and plugin lifecycle. */
module Kernel {
  import opened Common

  datatype Plugin = Plugin(name: string, needs: seq<string>)

  datatype SortError =
    | Duplicate(name: string)
    | UnknownNeed(plugin: string, need: string)
    | DependencyCycle(path: seq<string>, name: string)

  // ------------------------------------- what a sortable plugin set means

  function NamesOf(ps: seq<Plugin>): set<string> {
    set i | 0 <= i < |ps| :: ps[i].name
  }

  ghost predicate UniqueNames(ps: seq<Plugin>) {
    forall i, j :: 0 <= i < j < |ps| ==> ps[i].name != ps[j].name
  }

  ghost predicate NeedsKnown(ps: seq<Plugin>) {
    forall p, d :: p in ps && d in p.needs ==> d in NamesOf(ps)
  }

  ghost predicate Edge(ps: seq<Plugin>, a: string, b: string) {
    exists p :: p in ps && p.name == a && b in p.needs
  }

  /** Each name of `w` needs the next one. */
  ghost predicate IsWalk(ps: seq<Plugin>, w: seq<string>) {
    |w| > 0 && (|w| > 1 ==> IsWalk(ps, w[..|w| - 1]) && Edge(ps, w[|w| - 2], w[|w| - 1]))
  }

  ghost predicate IsCycle(ps: seq<Plugin>, w: seq<string>) {
    |w| > 1 && IsWalk(ps, w) && w[0] == w[|w| - 1]
  }

  ghost predicate Cyclic(ps: seq<Plugin>) { exists w :: IsCycle(ps, w) }

  ghost predicate Sortable(ps: seq<Plugin>) {
    UniqueNames(ps) && NeedsKnown(ps) && !Cyclic(ps)
  }

  /** Every plugin comes after everything it needs. */
  ghost predicate InOrder(ps: seq<Plugin>) {
    forall i, d :: 0 <= i < |ps| && d in ps[i].needs ==> d in NamesOf(ps[..i])
  }

  ghost predicate Justified(ps: seq<Plugin>, e: SortError) {
    match e
    case Duplicate(n) => exists i, j :: 0 <= i < j < |ps| && ps[i].name == ps[j].name == n
    case UnknownNeed(n, d) => Edge(ps, n, d) && d !in NamesOf(ps)
    case DependencyCycle(path, n) => n in path && IsWalk(ps, path + [n])
  }

  // ------------------------------------------------- facts about the spec

  lemma NamesOfAppend(ps: seq<Plugin>, p: Plugin)
    ensures NamesOf(ps + [p]) == NamesOf(ps) + {p.name}
  {
    var all := ps + [p];
    forall n | n in NamesOf(ps) + {p.name} ensures n in NamesOf(all) {
      if n == p.name { assert all[|ps|].name == n; }
      else {
        var i :| 0 <= i < |ps| && ps[i].name == n;
        assert all[i].name == n;
      }
    }
  }

  lemma NeedComesBefore(o: seq<Plugin>, a: string, d: string, i: nat)
    requires UniqueNames(o) && InOrder(o) && i < |o| && o[i].name == a && Edge(o, a, d)
    ensures d in NamesOf(o[..i])
  {
    var p :| p in o && p.name == a && d in p.needs;
    var k :| 0 <= k < |o| && o[k] == p;
    assert k == i;
  }

  lemma {:induction false} WalkGoesBack(o: seq<Plugin>, w: seq<string>, i: nat)
    requires UniqueNames(o) && InOrder(o) && IsWalk(o, w) && |w| > 1
    requires i < |o| && o[i].name == w[0]
    ensures w[|w| - 1] in NamesOf(o[..i])
    decreases |w|
  {
    if |w| == 2 {
      NeedComesBefore(o, w[0], w[1], i);
    } else {
      WalkGoesBack(o, w[..|w| - 1], i);
      var j :| 0 <= j < |o[..i]| && o[..i][j].name == w[|w| - 2];
      NeedComesBefore(o, w[|w| - 2], w[|w| - 1], j);
      var l :| 0 <= l < |o[..j]| && o[..j][l].name == w[|w| - 1];
      assert o[..i][l].name == w[|w| - 1];
    }
  }

  lemma {:induction false} WalkSuffix(ps: seq<Plugin>, w: seq<string>, i: nat)
    requires IsWalk(ps, w) && i < |w|
    ensures IsWalk(ps, w[i..])
    decreases |w|
  {
    if i < |w| - 1 {
      WalkSuffix(ps, w[..|w| - 1], i);
      assert w[i..][..|w[i..]| - 1] == w[..|w| - 1][i..];
    }
  }

  lemma {:induction false} WalkTransfers(ps: seq<Plugin>, o: seq<Plugin>, w: seq<string>)
    requires IsWalk(ps, w) && forall p :: p in ps ==> p in o
    ensures IsWalk(o, w)
    decreases |w|
  {
    if |w| > 1 { WalkTransfers(ps, o, w[..|w| - 1]); }
  }

  lemma {:induction false} WalkLeaves(ps: seq<Plugin>, w: seq<string>)
    requires IsWalk(ps, w) && |w| > 1
    ensures w[0] in NamesOf(ps)
    decreases |w|
  {
    if |w| > 2 { WalkLeaves(ps, w[..|w| - 1]); }
  }

  /** A list in dependency order has no cycle. */
  lemma OrderIsAcyclic(o: seq<Plugin>)
    requires UniqueNames(o) && InOrder(o)
    ensures !Cyclic(o)
  {
    forall w | IsWalk(o, w) && |w| > 1 ensures w[0] != w[|w| - 1] {
      WalkLeaves(o, w);
      var i :| 0 <= i < |o| && o[i].name == w[0];
      WalkGoesBack(o, w, i);
    }
  }

  lemma {:induction false} UniqueCounts(ps: seq<Plugin>, p: Plugin)
    requires UniqueNames(ps)
    ensures multiset(ps)[p] == if p in ps then 1 else 0
  {
    if |ps| != 0 {
      var front := ps[..|ps| - 1];
      assert ps == front + [ps[|ps| - 1]];
      UniqueCounts(front, p);
    }
  }

  lemma SamePlugins(ps: seq<Plugin>, o: seq<Plugin>)
    requires UniqueNames(ps) && UniqueNames(o) && forall p :: p in ps <==> p in o
    ensures multiset(ps) == multiset(o)
  {
    forall p ensures multiset(ps)[p] == multiset(o)[p] {
      UniqueCounts(ps, p);
      UniqueCounts(o, p);
    }
  }

  lemma SuffixIsCycle(ps: seq<Plugin>, path: seq<string>, n: string)
    requires n in path && IsWalk(ps, path + [n])
    ensures Cyclic(ps)
  {
    var i :| 0 <= i < |path| && path[i] == n;
    WalkSuffix(ps, path + [n], i);
    assert IsCycle(ps, (path + [n])[i..]);
  }

  /** A justified error rules a valid order out. */
  lemma ErrorMeansUnsortable(ps: seq<Plugin>, e: SortError)
    requires Justified(ps, e)
    ensures !Sortable(ps)
  {
    if e.DependencyCycle? { SuffixIsCycle(ps, e.path, e.name); }
  }

  lemma ReorderedSortable(ps: seq<Plugin>, o: seq<Plugin>)
    requires UniqueNames(ps) && UniqueNames(o) && InOrder(o) && multiset(ps) == multiset(o)
    ensures Sortable(ps)
  {
    forall p ensures p in ps <==> p in o { assert p in ps <==> p in multiset(ps); assert p in o <==> p in multiset(o); }
    OrderIsAcyclic(o);
    forall p, d | p in ps && d in p.needs ensures d in NamesOf(ps) {
      var i :| 0 <= i < |o| && o[i] == p;
      var j :| 0 <= j < |o[..i]| && o[..i][j].name == d;
      assert o[j] in ps;
    }
    forall w | IsCycle(ps, w) ensures IsCycle(o, w) { WalkTransfers(ps, o, w); }
  }

  // ------------------------------------------------ the depth-first search

  datatype Color = Visiting | Done

  /** Built by emitting table entries one by one, each new and with its needs
      already emitted. */
  ghost predicate GoodOrder(table: map<string, Plugin>, o: seq<Plugin>) {
    |o| == 0 ||
    var front, p := o[..|o| - 1], o[|o| - 1];
    && GoodOrder(table, front)
    && p.name in table && table[p.name] == p && p.name !in NamesOf(front)
    && forall d :: d in p.needs ==> d in NamesOf(front)
  }

  lemma {:induction false} GoodOrderMeans(table: map<string, Plugin>, o: seq<Plugin>)
    requires GoodOrder(table, o)
    ensures UniqueNames(o) && InOrder(o) && forall p :: p in o ==> p.name in table && table[p.name] == p
  {
    if |o| != 0 {
      var front := o[..|o| - 1];
      GoodOrderMeans(table, front);
      assert o == front + [o[|o| - 1]];
      assert forall i :: 0 <= i < |o| ==> o[..i] == front[..i];
    }
  }

  /** The closure's captured variables: `state` (an absent name is unvisited)
      and `ordered`, over the fixed name table. */
  class Sorter {
    ghost const plugins: seq<Plugin>
    const byName: map<string, Plugin>
    var color: map<string, Color>
    var ordered: seq<Plugin>

    ghost predicate TableOk() {
      && byName.Keys == NamesOf(plugins)
      && (forall n :: n in byName ==> byName[n].name == n && byName[n] in plugins)
    }

    ghost predicate OutputOk()
      reads this
    {
      GoodOrder(byName, ordered)
    }

    /** Names being visited are exactly those on the current path. */
    ghost predicate ColorsOk(path: seq<string>)
      reads this
    {
      && color.Keys <= byName.Keys
      && (forall n :: n in NamesOf(ordered) <==> n in color && color[n] == Done)
      && (forall n :: n in path <==> n in color && color[n] == Visiting)
    }

    constructor (ghost ps: seq<Plugin>, table: map<string, Plugin>)
      requires table.Keys == NamesOf(ps) && forall n :: n in table ==> table[n].name == n && table[n] in ps
      ensures plugins == ps && byName == table && color == map[] && ordered == []
      ensures TableOk() && OutputOk() && ColorsOk([])
    {
      plugins, byName, color, ordered := ps, table, map[], [];
    }

    ghost predicate NeedsMet(name: string, o: seq<Plugin>)
      requires name in byName
    {
      forall d :: d in byName[name].needs ==> d in NamesOf(o)
    }

    /** Marks `name` as being visited. */
    method Enter(name: string, path: seq<string>)
      requires ColorsOk(path) && name in byName && name !in color
      modifies this`color
      ensures ColorsOk(path + [name]) && color.Keys == old(color.Keys) + {name}
      ensures |byName.Keys - color.Keys| < |byName.Keys - old(color.Keys)|
    {
      color := color[name := Visiting];
      assert name in byName.Keys - old(color.Keys);
      SmallerSet(byName.Keys - color.Keys, byName.Keys - old(color.Keys));
    }

    /** Marks `name` as done and emits it. */
    method Finish(name: string, path: seq<string>)
      requires TableOk() && OutputOk() && ColorsOk(path + [name]) && name !in path
      requires name in byName && NeedsMet(name, ordered)
      modifies this`color, this`ordered
      ensures OutputOk() && ColorsOk(path) && name in color && color[name] == Done
      ensures ordered == old(ordered) + [byName[name]] && color.Keys == old(color.Keys)
    {
      assert name in path + [name];
      assert forall n :: n in path + [name] <==> n in path || n == name;
      assert (ordered + [byName[name]])[..|ordered|] == ordered;
      NamesOfAppend(ordered, byName[name]);
      color := color[name := Done];
      ordered := ordered + [byName[name]];
    }

    method Visit(name: string, path: seq<string>) returns (err: Option<SortError>)
      requires TableOk() && OutputOk() && ColorsOk(path) && name in byName
      requires IsWalk(plugins, path + [name])
      modifies this`color, this`ordered
      decreases |byName.Keys - color.Keys|, 1
      ensures err.Some? ==> Justified(plugins, err.value)
      ensures err.None? ==> OutputOk() && ColorsOk(path) && name in color && color[name] == Done
      ensures err.None? ==> old(ordered) <= ordered && old(color.Keys) <= color.Keys
      ensures name in old(color) && old(color[name]) == Done ==> err.None? && ordered == old(ordered)
      ensures name !in old(color) && NeedsMet(name, old(ordered)) ==>
                err.None? && ordered == old(ordered) + [byName[name]]
    {
      if name in color {
        if color[name] == Done { return None; }
        return Some(DependencyCycle(path, name));
      }
      err := VisitNew(name, path);
    }

    /** An unvisited name: its needs first, then itself. */
    method VisitNew(name: string, path: seq<string>) returns (err: Option<SortError>)
      requires TableOk() && OutputOk() && ColorsOk(path) && name in byName && name !in color
      requires IsWalk(plugins, path + [name])
      modifies this`color, this`ordered
      decreases |byName.Keys - color.Keys|, 0
      ensures err.Some? ==> Justified(plugins, err.value)
      ensures err.None? ==> OutputOk() && ColorsOk(path) && name in color && color[name] == Done
      ensures err.None? ==> old(ordered) <= ordered && old(color.Keys) <= color.Keys
      ensures NeedsMet(name, old(ordered)) ==> err.None? && ordered == old(ordered) + [byName[name]]
    {
      Enter(name, path);
      err := VisitNeeds(name, path + [name]);
      if err.None? { Finish(name, path); }
    }

    /** The loop of the closure, over the needs of the last name on the path. */
    method VisitNeeds(name: string, path: seq<string>) returns (err: Option<SortError>)
      requires TableOk() && OutputOk() && ColorsOk(path) && name in byName
      requires IsWalk(plugins, path) && path[|path| - 1] == name
      modifies this`color, this`ordered
      decreases |byName.Keys - color.Keys|, 3
      ensures err.Some? ==> Justified(plugins, err.value)
      ensures err.None? ==> OutputOk() && ColorsOk(path) && NeedsMet(name, ordered)
      ensures err.None? ==> old(ordered) <= ordered && old(color.Keys) <= color.Keys
      ensures NeedsMet(name, old(ordered)) ==> err.None? && ordered == old(ordered)
    {
      var p := byName[name];
      for i := 0 to |p.needs|
        invariant OutputOk() && ColorsOk(path)
        invariant old(ordered) <= ordered && old(color.Keys) <= color.Keys
        invariant |byName.Keys - color.Keys| <= |byName.Keys - old(color.Keys)|
        invariant Listed(p.needs, i, NamesOf(ordered))
        invariant NeedsMet(name, old(ordered)) ==> ordered == old(ordered)
      {
        ghost var before := NamesOf(ordered);
        err := VisitNeed(name, p.needs[i], path);
        if err.Some? { return; }
        ListedMore(p.needs, i, before, NamesOf(ordered));
      }
      ListedAll(p.needs, NamesOf(ordered));
      err := None;
    }

    /** One pass of that loop. */
    method VisitNeed(name: string, dep: string, path: seq<string>) returns (err: Option<SortError>)
      requires TableOk() && OutputOk() && ColorsOk(path) && name in byName && dep in byName[name].needs
      requires IsWalk(plugins, path) && path[|path| - 1] == name
      modifies this`color, this`ordered
      decreases |byName.Keys - color.Keys|, 2
      ensures err.Some? ==> Justified(plugins, err.value)
      ensures err.None? ==> OutputOk() && ColorsOk(path) && dep in NamesOf(ordered)
      ensures err.None? ==> old(ordered) <= ordered && old(color.Keys) <= color.Keys
      ensures err.None? ==> |byName.Keys - color.Keys| <= |byName.Keys - old(color.Keys)|
      ensures err.None? ==> NamesOf(old(ordered)) <= NamesOf(ordered)
      ensures dep in NamesOf(old(ordered)) ==> err.None? && ordered == old(ordered)
    {
      ExtendWalk(plugins, path, byName[name], dep);
      if dep !in byName { return Some(UnknownNeed(name, dep)); }
      err := Visit(dep, path);
      if err.None? {
        PrefixKeepsNames(old(ordered), ordered);
        SmallerSet(byName.Keys - color.Keys, byName.Keys - old(color.Keys));
      }
    }
  }

  ghost predicate Listed(needs: seq<string>, n: nat, names: set<string>) {
    n <= |needs| && forall d :: d in needs[..n] ==> d in names
  }

  lemma ListedMore(needs: seq<string>, i: nat, before: set<string>, after: set<string>)
    requires i < |needs| && Listed(needs, i, before) && before <= after && needs[i] in after
    ensures Listed(needs, i + 1, after)
  {
    assert needs[..i + 1] == needs[..i] + [needs[i]];
  }

  lemma ListedAll(needs: seq<string>, names: set<string>)
    requires Listed(needs, |needs|, names)
    ensures forall d :: d in needs ==> d in names
  {
    assert needs[..|needs|] == needs;
  }

  lemma SmallerSet<T>(a: set<T>, b: set<T>)
    requires a <= b
    ensures |a| <= |b|
    ensures a < b ==> |a| < |b|
  {
    assert b == a + (b - a);
  }

  lemma PrefixKeepsNames(a: seq<Plugin>, b: seq<Plugin>)
    requires a <= b
    ensures NamesOf(a) <= NamesOf(b)
  {
  }

  lemma ExtendWalk(ps: seq<Plugin>, w: seq<string>, p: Plugin, d: string)
    requires IsWalk(ps, w) && p in ps && p.name == w[|w| - 1] && d in p.needs
    ensures Edge(ps, p.name, d) && IsWalk(ps, w + [d])
  {
    assert (w + [d])[..|w|] == w;
  }

  datatype SortResult = Sorted(order: seq<Plugin>) | Unsorted(error: SortError)

  /** The name table, or the first name met twice. */
  method NameTable(ps: seq<Plugin>) returns (byName: map<string, Plugin>, err: Option<SortError>)
    ensures err.Some? ==> Justified(ps, err.value)
    ensures err.None? ==> UniqueNames(ps) && byName.Keys == NamesOf(ps)
    ensures err.None? ==> forall n :: n in byName ==> byName[n].name == n && byName[n] in ps
  {
    byName := map[];
    for i := 0 to |ps|
      invariant byName.Keys == NamesOf(ps[..i]) && UniqueNames(ps[..i])
      invariant forall n :: n in byName ==> byName[n].name == n && byName[n] in ps[..i]
    {
      assert ps[..i + 1] == ps[..i] + [ps[i]];
      NamesOfAppend(ps[..i], ps[i]);
      if ps[i].name in byName {
        assert exists k :: 0 <= k < |ps[..i]| && ps[..i][k].name == ps[i].name;
        return byName, Some(Duplicate(ps[i].name));
      }
      byName := byName[ps[i].name := ps[i]];
    }
    assert ps[..|ps|] == ps;
    err := None;
  }

  method VisitNth(ps: seq<Plugin>, i: nat, dfs: Sorter) returns (err: Option<SortError>)
    requires i < |ps| && dfs.plugins == ps && UniqueNames(ps) && dfs.TableOk()
    requires dfs.OutputOk() && dfs.ColorsOk([])
    modifies dfs`color, dfs`ordered
    ensures err.Some? ==> Justified(ps, err.value)
    ensures err.None? ==> dfs.OutputOk() && dfs.ColorsOk([])
    ensures err.None? ==> NamesOf(old(dfs.ordered)) + {ps[i].name} <= NamesOf(dfs.ordered)
    ensures InOrder(ps) && old(dfs.ordered) == ps[..i] ==> err.None? && dfs.ordered == ps[..i] + [ps[i]]
  {
    assert [] + [ps[i].name] == [ps[i].name];
    NotYetListed(ps, i);
    TableHoldsPlugin(ps, dfs.byName, i);
    err := dfs.Visit(ps[i].name, []);
    if err.None? { PrefixKeepsNames(old(dfs.ordered), dfs.ordered); }
  }

  /** Visits every plugin in registration order. */
  method VisitAll(ps: seq<Plugin>, dfs: Sorter) returns (err: Option<SortError>)
    requires dfs.plugins == ps && UniqueNames(ps) && dfs.TableOk()
    requires dfs.OutputOk() && dfs.ColorsOk([]) && dfs.ordered == []
    modifies dfs`color, dfs`ordered
    ensures err.Some? ==> Justified(ps, err.value)
    ensures err.None? ==> dfs.OutputOk() && NamesOf(ps) <= NamesOf(dfs.ordered)
    ensures InOrder(ps) ==> err.None? && dfs.ordered == ps
  {
    ghost var sorted := InOrder(ps);
    for i := 0 to |ps|
      invariant dfs.OutputOk() && dfs.ColorsOk([])
      invariant NamesOf(ps[..i]) <= NamesOf(dfs.ordered)
      invariant sorted ==> dfs.ordered == ps[..i]
    {
      err := VisitNth(ps, i, dfs);
      if err.Some? { return; }
      PrefixNames(ps, i);
    }
    assert ps[..|ps|] == ps;
    err := None;
  }

  lemma TableHoldsPlugin(ps: seq<Plugin>, table: map<string, Plugin>, i: nat)
    requires UniqueNames(ps) && i < |ps| && table.Keys == NamesOf(ps)
    requires forall n :: n in table ==> table[n].name == n && table[n] in ps
    ensures ps[i].name in table && table[ps[i].name] == ps[i]
  {
    assert ps[i].name in NamesOf(ps);
    var j :| 0 <= j < |ps| && ps[j] == table[ps[i].name];
    assert j == i;
  }

  lemma OutputIsPermutation(ps: seq<Plugin>, o: seq<Plugin>, table: map<string, Plugin>)
    requires UniqueNames(ps) && table.Keys == NamesOf(ps) && NamesOf(ps) <= NamesOf(o)
    requires forall n :: n in table ==> table[n].name == n && table[n] in ps
    requires UniqueNames(o) && forall p :: p in o ==> p.name in table && table[p.name] == p
    ensures multiset(ps) == multiset(o)
  {
    forall p ensures p in ps <==> p in o {
      if p in ps {
        var i :| 0 <= i < |ps| && ps[i] == p;
        TableHoldsPlugin(ps, table, i);
        assert p.name in NamesOf(ps);
        var j :| 0 <= j < |o| && o[j].name == p.name;
        assert o[j] in o;
      }
    }
    SamePlugins(ps, o);
  }

  /** `topoSort`: succeeds exactly on the sortable inputs, then with a
      permutation in dependency order; an error names a real offence; an input
      already in dependency order comes back unchanged. */
  method TopoSort(ps: seq<Plugin>) returns (r: SortResult)
    ensures r.Sorted? <==> Sortable(ps)
    ensures r.Sorted? ==> multiset(r.order) == multiset(ps) && UniqueNames(r.order) && InOrder(r.order)
    ensures r.Unsorted? ==> Justified(ps, r.error)
    ensures UniqueNames(ps) && InOrder(ps) ==> r == Sorted(ps)
  {
    InOrderIsSortable(ps);
    var byName, err := NameTable(ps);
    if err.Some? {
      ErrorMeansUnsortable(ps, err.value);
      return Unsorted(err.value);
    }
    var dfs := new Sorter(ps, byName);
    err := VisitAll(ps, dfs);
    if err.Some? {
      ErrorMeansUnsortable(ps, err.value);
      return Unsorted(err.value);
    }
    GoodOrderMeans(byName, dfs.ordered);
    OutputIsPermutation(ps, dfs.ordered, byName);
    ReorderedSortable(ps, dfs.ordered);
    return Sorted(dfs.ordered);
  }

  lemma NotYetListed(ps: seq<Plugin>, i: nat)
    requires UniqueNames(ps) && i < |ps|
    ensures ps[i].name !in NamesOf(ps[..i])
  {
  }

  lemma InOrderIsSortable(ps: seq<Plugin>)
    ensures UniqueNames(ps) && InOrder(ps) ==> Sortable(ps)
  {
    if UniqueNames(ps) && InOrder(ps) { ReorderedSortable(ps, ps); }
  }

  // ----------------------------------------------------------- lifecycle

  datatype Action = Inited(name: string) | InitFailed(name: string)
                  | Started(name: string) | StartFailed(name: string) | Stopped(name: string)

  datatype Outcome = NotSorted(error: SortError) | InitError(at: nat) | StartError(at: nat) | Served

  function Effect(live: set<string>, a: Action): set<string> {
    match a
    case Inited(n) => live + {n}
    case Stopped(n) => live - {n}
    case _ => live
  }

  /** Plugins initialised and not stopped after a sequence of actions. */
  ghost function Live(log: seq<Action>): set<string> {
    if |log| == 0 then {} else Effect(Live(log[..|log| - 1]), log[|log| - 1])
  }

  ghost predicate Closed(ps: seq<Plugin>, live: set<string>) {
    forall p, d :: p in ps && p.name in live && d in p.needs ==> d in live
  }

  /** At every moment of the run nothing live lacks a live dependency. */
  ghost predicate AlwaysClosed(ps: seq<Plugin>, log: seq<Action>) {
    forall k :: 0 <= k <= |log| ==> Closed(ps, Live(log[..k]))
  }

  lemma PrefixClosed(o: seq<Plugin>, i: nat)
    requires UniqueNames(o) && InOrder(o) && i <= |o|
    ensures Closed(o, NamesOf(o[..i]))
  {
    forall p, d | p in o && p.name in NamesOf(o[..i]) && d in p.needs ensures d in NamesOf(o[..i]) {
      var j :| 0 <= j < |o| && o[j] == p;
      var k :| 0 <= k < |o[..i]| && o[..i][k].name == p.name;
      assert j == k;
      assert d in NamesOf(o[..j]);
      var l :| 0 <= l < |o[..j]| && o[..j][l].name == d;
      assert o[..i][l].name == d;
    }
  }

  lemma PrefixNames(o: seq<Plugin>, i: nat)
    requires UniqueNames(o) && i < |o|
    ensures o[..i + 1] == o[..i] + [o[i]] && NamesOf(o[..i + 1]) == NamesOf(o[..i]) + {o[i].name}
    ensures NamesOf(o[..i + 1]) - {o[i].name} == NamesOf(o[..i])
  {
    assert o[..i + 1] == o[..i] + [o[i]];
    NamesOfAppend(o[..i], o[i]);
    NotYetListed(o, i);
  }

  lemma Record(ps: seq<Plugin>, log: seq<Action>, a: Action)
    requires AlwaysClosed(ps, log) && Closed(ps, Effect(Live(log), a))
    ensures AlwaysClosed(ps, log + [a])
    ensures Live(log + [a]) == Effect(Live(log), a)
  {
    assert (log + [a])[..|log|] == log;
    forall k | 0 <= k <= |log + [a]| ensures Closed(ps, Live((log + [a])[..k])) {
      if k <= |log| { assert (log + [a])[..k] == log[..k]; }
      else { assert (log + [a])[..k] == log + [a]; }
    }
  }

  function Inits(o: seq<Plugin>): seq<Action> {
    if |o| == 0 then [] else Inits(o[..|o| - 1]) + [Inited(o[|o| - 1].name)]
  }

  function Starts(o: seq<Plugin>): seq<Action> {
    if |o| == 0 then [] else Starts(o[..|o| - 1]) + [Started(o[|o| - 1].name)]
  }

  /** Stops in reverse order. */
  function Stops(o: seq<Plugin>): seq<Action> {
    if |o| == 0 then [] else [Stopped(o[|o| - 1].name)] + Stops(o[..|o| - 1])
  }

  /** The Init loop: stops at the first plugin that fails. */
  method InitAll(ps: seq<Plugin>, order: seq<Plugin>, fails: set<string>) returns (log: seq<Action>, n: nat)
    requires UniqueNames(order) && InOrder(order) && multiset(ps) == multiset(order)
    ensures n <= |order| && AlwaysClosed(ps, log) && Live(log) == NamesOf(order[..n])
    ensures forall i :: 0 <= i < n ==> order[i].name !in fails
    ensures n < |order| ==> order[n].name in fails && log == Inits(order[..n]) + [InitFailed(order[n].name)]
    ensures n == |order| ==> log == Inits(order)
  {
    SameClosure(ps, order);
    log, n := [], 0;
    while n < |order|
      invariant 0 <= n <= |order|
      invariant AlwaysClosed(ps, log) && log == Inits(order[..n]) && Live(log) == NamesOf(order[..n])
      invariant forall i :: 0 <= i < n ==> order[i].name !in fails
    {
      PrefixClosed(order, n);
      if order[n].name in fails {
        Record(ps, log, InitFailed(order[n].name));
        log := log + [InitFailed(order[n].name)];
        return;
      }
      PrefixNames(order, n);
      PrefixClosed(order, n + 1);
      assert order[..n + 1][..n] == order[..n];
      Record(ps, log, Inited(order[n].name));
      log := log + [Inited(order[n].name)];
      n := n + 1;
    }
    assert order[..n] == order;
  }

  /** The Start loop: stops at the first plugin that fails. */
  method StartAll(ps: seq<Plugin>, order: seq<Plugin>, fails: set<string>, booted: seq<Action>)
    returns (log: seq<Action>, n: nat)
    requires AlwaysClosed(ps, booted) && Closed(ps, Live(booted))
    ensures n <= |order| && AlwaysClosed(ps, log) && Live(log) == Live(booted)
    ensures forall i :: 0 <= i < n ==> order[i].name !in fails
    ensures n < |order| ==> order[n].name in fails && log == booted + Starts(order[..n]) + [StartFailed(order[n].name)]
    ensures n == |order| ==> log == booted + Starts(order)
  {
    log, n := booted, 0;
    while n < |order|
      invariant 0 <= n <= |order|
      invariant AlwaysClosed(ps, log) && log == booted + Starts(order[..n]) && Live(log) == Live(booted)
      invariant forall i :: 0 <= i < n ==> order[i].name !in fails
    {
      if order[n].name in fails {
        Record(ps, log, StartFailed(order[n].name));
        log := log + [StartFailed(order[n].name)];
        return;
      }
      assert order[..n + 1][..n] == order[..n];
      Record(ps, log, Started(order[n].name));
      log := log + [Started(order[n].name)];
      n := n + 1;
    }
    assert order[..n] == order;
  }

  /** `stopAll`: every plugin, in reverse order, whatever its Stop returns. */
  method StopAll(ps: seq<Plugin>, order: seq<Plugin>, serving: seq<Action>) returns (log: seq<Action>)
    requires UniqueNames(order) && InOrder(order) && multiset(ps) == multiset(order)
    requires AlwaysClosed(ps, serving) && Live(serving) == NamesOf(order)
    ensures AlwaysClosed(ps, log) && Live(log) == {} && log == serving + Stops(order)
  {
    log := serving;
    var i := |order|;
    assert order[..i] == order;
    while i > 0
      invariant 0 <= i <= |order|
      invariant AlwaysClosed(ps, log) && Live(log) == NamesOf(order[..i])
      invariant serving + Stops(order) == log + Stops(order[..i])
    {
      i := i - 1;
      StopOne(ps, order, log, i);
      assert serving + Stops(order) == (log + [Stopped(order[i].name)]) + Stops(order[..i]);
      log := log + [Stopped(order[i].name)];
    }
  }

  lemma StopOne(ps: seq<Plugin>, order: seq<Plugin>, log: seq<Action>, i: nat)
    requires UniqueNames(order) && InOrder(order) && multiset(ps) == multiset(order) && i < |order|
    requires AlwaysClosed(ps, log) && Live(log) == NamesOf(order[..i + 1])
    ensures var next := log + [Stopped(order[i].name)];
      AlwaysClosed(ps, next) && Live(next) == NamesOf(order[..i])
    ensures Stops(order[..i + 1]) == [Stopped(order[i].name)] + Stops(order[..i])
  {
    assert order[..i + 1][..i] == order[..i];
    SameClosure(ps, order);
    PrefixNames(order, i);
    PrefixClosed(order, i);
    Record(ps, log, Stopped(order[i].name));
  }

  ghost predicate NoneIn(ps: seq<Plugin>, names: set<string>) { forall p :: p in ps ==> p.name !in names }

  lemma SameMembers(ps: seq<Plugin>, o: seq<Plugin>, names: set<string>)
    requires multiset(ps) == multiset(o)
    ensures NoneIn(ps, names) <==> NoneIn(o, names)
  {
    forall p ensures p in ps <==> p in o { assert p in ps <==> p in multiset(ps); assert p in o <==> p in multiset(o); }
  }

  /** `Run` over plugins whose Init or Start fail on the given names. At every
      moment the live plugins are closed under Requires. It serves, and then
      stops everything in reverse order, exactly if the plugins can be sorted
      and none fails. A failed Init or Start ends the run without stopping
      anything, so plugins are left live exactly if some plugin fails and it is
      not already the first Init. */
  method Run(ps: seq<Plugin>, initFails: set<string>, startFails: set<string>)
    returns (log: seq<Action>, outcome: Outcome, order: seq<Plugin>)
    ensures outcome.NotSorted? <==> !Sortable(ps)
    ensures outcome.InitError? <==> Sortable(ps) && !NoneIn(ps, initFails)
    ensures outcome.StartError? <==> Sortable(ps) && NoneIn(ps, initFails) && !NoneIn(ps, startFails)
    ensures outcome.Served? <==> Sortable(ps) && NoneIn(ps, initFails) && NoneIn(ps, startFails)
    ensures outcome.NotSorted? ==> log == []
    ensures !outcome.NotSorted? ==> multiset(order) == multiset(ps) && UniqueNames(order) && InOrder(order)
    ensures AlwaysClosed(ps, log)
    ensures outcome.Served? ==> log == Inits(order) + Starts(order) + Stops(order)
    ensures outcome.InitError? ==>
      && outcome.at < |order| && order[outcome.at].name in initFails && NoneIn(order[..outcome.at], initFails)
      && log == Inits(order[..outcome.at]) + [InitFailed(order[outcome.at].name)]
    ensures outcome.StartError? ==>
      && outcome.at < |order| && order[outcome.at].name in startFails && NoneIn(order[..outcome.at], startFails)
      && log == Inits(order) + Starts(order[..outcome.at]) + [StartFailed(order[outcome.at].name)]
    ensures Live(log) != {} <==> Sortable(ps) && !NoneIn(ps, initFails + startFails) && order != [] && order[0].name !in initFails
  {
    log, order := [], [];
    var sorted := TopoSort(ps);
    if sorted.Unsorted? {
      return log, NotSorted(sorted.error), order;
    }
    order := sorted.order;
    SameMembers(ps, order, initFails);
    SameMembers(ps, order, startFails);
    var n;
    log, n := InitAll(ps, order, initFails);
    if n < |order| {
      assert order[n] in order;
      assert n > 0 ==> order[..n][0].name in NamesOf(order[..n]);
      return log, InitError(n), order;
    }
    assert order[..n] == order;
    PrefixClosed(order, n);
    SameClosure(ps, order);
    log, n := StartAll(ps, order, startFails, log);
    if n < |order| {
      assert order[n] in order && order[0].name in NamesOf(order);
      return log, StartError(n), order;
    }
    log := StopAll(ps, order, log);
    outcome := Served;
  }

  /** One plugin whose Start fails stays live when Run has returned. */
  method FailedStartStaysLive() returns (log: seq<Action>, outcome: Outcome)
    ensures outcome == StartError(0) && Live(log) == {"a"} && Stopped("a") !in log
  {
    var ps, order := [Plugin("a", [])], [];
    assert UniqueNames(ps) && InOrder(ps) && ps[0] in ps;
    InOrderIsSortable(ps);
    log, outcome, order := Run(ps, {}, {"a"});
    OnlyOrder(ps[0], order);
    LiveAfterFailedStart(ps[0]);
    assert log == Inits(order) + Starts([]) + [StartFailed("a")];
  }

  lemma LiveAppend(log: seq<Action>, a: Action)
    ensures Live(log + [a]) == Effect(Live(log), a)
  {
    assert (log + [a])[..|log|] == log;
  }

  lemma InitsOfOne(p: Plugin)
    ensures Inits([p]) == [] + [Inited(p.name)]
  {
    assert [p][..0] == [];
  }

  lemma LiveAfterFailedStart(p: Plugin)
    ensures var log := Inits([p]) + Starts([]) + [StartFailed(p.name)];
      log == [Inited(p.name), StartFailed(p.name)] && Live(log) == {p.name}
  {
    InitsOfOne(p);
    LiveAppend([], Inited(p.name));
    LiveAppend(Inits([p]), StartFailed(p.name));
    assert Inits([p]) + Starts([]) == Inits([p]);
  }

  lemma OnlyOrder(p: Plugin, order: seq<Plugin>)
    requires multiset(order) == multiset([p])
    ensures order == [p]
  {
    assert |order| == |multiset(order)| == 1;
    assert order[0] in multiset(order);
  }

  lemma SameClosure(ps: seq<Plugin>, o: seq<Plugin>)
    requires multiset(ps) == multiset(o)
    ensures forall live :: Closed(o, live) ==> Closed(ps, live)
  {
    forall p ensures p in ps <==> p in o { assert p in ps <==> p in multiset(ps); assert p in o <==> p in multiset(o); }
  }
}
