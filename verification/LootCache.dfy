/** The read-through cache over the insert-only loot tables. Every cache or
    source call is one step; cache calls may fail, entries may expire or become
    unreadable at any moment, and any number of reads and creates overlap. */
module LootCache {
  import opened Common

  datatype Table = Table(id: string, description: string, entries: seq<string>)

  /** Bytes in the cache: an encoded table, or something that does not decode. */
  datatype Bytes = Encoded(table: Table) | Corrupt

  datatype Result = Found(table: Table) | NotFound | Failed | Created

  /** Where a call stands; `absent` tells whether the id was missing from the
      source when the call began. */
  datatype Call =
    | ReadCache(id: string, absent: bool)
    | ReadSource(id: string, absent: bool)
    | FillCache(id: string, absent: bool, table: Table)
    | Insert(table: Table)
    | Invalidate(table: Table)
    | ReadDone(id: string, absent: bool, result: Result)
    | CreateDone(table: Table, result: Result)

  datatype State = State(source: map<string, Table>, cache: map<string, Bytes>, calls: map<nat, Call>)

  datatype Event =
    | BeginRead(c: nat, id: string)
    | BeginCreate(c: nat, table: Table)
    | StepOf(c: nat, fails: bool)
    | Expire(id: string)
    | Spoil(id: string)

  predicate Enabled(s: State, e: Event) {
    match e
    case BeginRead(c, _) => c !in s.calls
    case BeginCreate(c, _) => c !in s.calls
    case StepOf(c, _) => c in s.calls
    case _ => true
  }

  /** The tables and the call after one step of it; `fails` makes the step's
      cache or source operation fail. */
  datatype Next = Next(source: map<string, Table>, cache: map<string, Bytes>, call: Call)

  function Advance(source: map<string, Table>, cache: map<string, Bytes>, call: Call, fails: bool): Next {
    match call
    case ReadCache(id, absent) =>
      if !fails && id in cache && cache[id].Encoded? then Next(source, cache, ReadDone(id, absent, Found(cache[id].table)))
      else Next(source, cache, ReadSource(id, absent))
    case ReadSource(id, absent) =>
      if fails then Next(source, cache, ReadDone(id, absent, Failed))
      else if id !in source then Next(source, cache, ReadDone(id, absent, NotFound))
      else Next(source, cache, FillCache(id, absent, source[id]))
    case FillCache(id, absent, table) =>
      Next(source, if fails then cache else cache[id := Encoded(table)], ReadDone(id, absent, Found(table)))
    case Insert(table) =>
      if fails || table.id in source then Next(source, cache, CreateDone(table, Failed))
      else Next(source[table.id := table], cache, Invalidate(table))
    case Invalidate(table) =>
      Next(source, if fails then cache else cache - {table.id}, CreateDone(table, Created))
    case _ => Next(source, cache, call)
  }

  function Apply(s: State, e: Event): State
    requires Enabled(s, e)
  {
    match e
    case BeginRead(c, id) => s.(calls := s.calls[c := ReadCache(id, id !in s.source)])
    case BeginCreate(c, table) => s.(calls := s.calls[c := Insert(table)])
    case StepOf(c, fails) =>
      var n := Advance(s.source, s.cache, s.calls[c], fails);
      State(n.source, n.cache, s.calls[c := n.call])
    case Expire(id) => s.(cache := s.cache - {id})
    case Spoil(id) => s.(cache := s.cache[id := Corrupt])
  }

  predicate ValidRun(s: State, es: seq<Event>)
    decreases |es|
  {
    |es| == 0 || (Enabled(s, es[0]) && ValidRun(Apply(s, es[0]), es[1..]))
  }

  function Run(s: State, es: seq<Event>): State
    requires ValidRun(s, es)
    decreases |es|
  {
    if |es| == 0 then s else Run(Apply(s, es[0]), es[1..])
  }

  // -------------------------------------------------------------- invariant

  predicate HasRow(source: map<string, Table>, id: string, t: Table) { id in source && source[id] == t }

  /** Rows are keyed by their own id. */
  ghost predicate Keyed(source: map<string, Table>) { forall id :: id in source ==> source[id].id == id }

  /** Every readable cache entry is the source's table. */
  ghost predicate Coherent(source: map<string, Table>, cache: map<string, Bytes>) {
    forall id :: id in cache && cache[id].Encoded? ==> HasRow(source, id, cache[id].table)
  }

  /** What a call holds or has returned is the source's, and whoever found
      nothing began when there was nothing. */
  predicate CallOk(source: map<string, Table>, call: Call) {
    match call
    case ReadCache(id, absent) => !absent ==> id in source
    case ReadSource(id, absent) => !absent ==> id in source
    case FillCache(id, _, table) => HasRow(source, id, table)
    case Insert(_) => true
    case Invalidate(table) => HasRow(source, table.id, table)
    case ReadDone(id, absent, r) => !r.Created? && (r.Found? ==> HasRow(source, id, r.table)) && (r.NotFound? ==> absent)
    case CreateDone(table, r) => (r.Created? ==> HasRow(source, table.id, table)) && (r.Created? || r.Failed?)
  }

  ghost predicate CallsOk(source: map<string, Table>, calls: map<nat, Call>) {
    forall c :: c in calls ==> CallOk(source, calls[c])
  }

  /** The call that has put a row into the source. */
  predicate Inserted(call: Call, id: string) {
    (call.Invalidate? || (call.CreateDone? && call.result.Created?)) && call.table.id == id
  }

  ghost predicate OneCreator(calls: map<nat, Call>) {
    forall c, d, id :: c in calls && d in calls && Inserted(calls[c], id) && Inserted(calls[d], id) ==> c == d
  }

  ghost predicate CreatorsStored(source: map<string, Table>, calls: map<nat, Call>) {
    forall c, id :: c in calls && Inserted(calls[c], id) ==> id in source
  }

  ghost predicate Inv(s: State) {
    && Keyed(s.source) && Coherent(s.source, s.cache) && CallsOk(s.source, s.calls)
    && OneCreator(s.calls) && CreatorsStored(s.source, s.calls)
  }

  /** The source only gains rows. */
  predicate Grows(a: map<string, Table>, b: map<string, Table>) { forall id :: id in a ==> HasRow(b, id, a[id]) }

  lemma AdvanceIsSound(source: map<string, Table>, cache: map<string, Bytes>, call: Call, fails: bool)
    requires Keyed(source) && Coherent(source, cache) && CallOk(source, call)
    ensures var n := Advance(source, cache, call, fails);
      Grows(source, n.source) && Keyed(n.source) && Coherent(n.source, n.cache) && CallOk(n.source, n.call)
  {}

  lemma GrowthKeepsCall(a: map<string, Table>, b: map<string, Table>, call: Call)
    requires Grows(a, b) && CallOk(a, call)
    ensures CallOk(b, call)
  {}

  lemma StepKeepsCalls(s: State, c: nat, fails: bool)
    requires Inv(s) && c in s.calls
    ensures var t := Apply(s, StepOf(c, fails));
      Keyed(t.source) && Coherent(t.source, t.cache) && CallsOk(t.source, t.calls) && Grows(s.source, t.source)
  {
    AdvanceIsSound(s.source, s.cache, s.calls[c], fails);
    var t := Apply(s, StepOf(c, fails));
    forall d | d in t.calls ensures CallOk(t.source, t.calls[d]) {
      if d != c { GrowthKeepsCall(s.source, t.source, s.calls[d]); }
    }
  }

  /** A step makes its call a creator only by adding the row. */
  lemma AdvanceInserts(source: map<string, Table>, cache: map<string, Bytes>, call: Call, fails: bool, id: string)
    ensures var n := Advance(source, cache, call, fails);
      Inserted(n.call, id) ==> Inserted(call, id) || (id !in source && id in n.source)
  {}

  lemma StepKeepsCreators(s: State, c: nat, fails: bool)
    requires Inv(s) && c in s.calls
    ensures var t := Apply(s, StepOf(c, fails)); OneCreator(t.calls) && CreatorsStored(t.source, t.calls)
  {
    var t := Apply(s, StepOf(c, fails));
    StepKeepsCalls(s, c, fails);
    forall d, id | d in t.calls && Inserted(t.calls[d], id) ensures id in t.source && (d == c || (Inserted(s.calls[d], id) && id in s.source)) {
      AdvanceInserts(s.source, s.cache, s.calls[c], fails, id);
    }
    forall d, e, id | d in t.calls && e in t.calls && Inserted(t.calls[d], id) && Inserted(t.calls[e], id) ensures d == e {
      AdvanceInserts(s.source, s.cache, s.calls[c], fails, id);
    }
  }

  lemma StepKeepsInv(s: State, e: Event)
    requires Inv(s) && Enabled(s, e)
    ensures Inv(Apply(s, e)) && Grows(s.source, Apply(s, e).source)
  {
    match e
    case StepOf(c, fails) =>
      StepKeepsCalls(s, c, fails);
      StepKeepsCreators(s, c, fails);
    case _ =>
  }

  lemma {:induction false} RunKeepsInv(s: State, es: seq<Event>)
    requires Inv(s) && ValidRun(s, es)
    ensures Inv(Run(s, es)) && Grows(s.source, Run(s, es).source)
    decreases |es|
  {
    if |es| != 0 {
      StepKeepsInv(s, es[0]);
      RunKeepsInv(Apply(s, es[0]), es[1..]);
    }
  }

  // --------------------------------------------------------------- theorems

  /** No call in progress; the cache may be warm. */
  ghost predicate Init(s: State) { Keyed(s.source) && Coherent(s.source, s.cache) && s.calls == map[] }

  /** In every interleaving, any table returned is the source's table for that
      id, then and ever after; and not-found is returned only if the id was
      absent when the call began. */
  lemma EveryReadIsFaithful(s0: State, es: seq<Event>, c: nat)
    requires Init(s0) && ValidRun(s0, es)
    requires c in Run(s0, es).calls && Run(s0, es).calls[c].ReadDone?
    ensures var s := Run(s0, es); var call := s.calls[c];
      && (call.result.Found? ==> call.id in s.source && s.source[call.id] == call.result.table && call.result.table.id == call.id)
      && (call.result.NotFound? ==> call.absent)
  {
    RunKeepsInv(s0, es);
    assert CallOk(Run(s0, es).source, Run(s0, es).calls[c]);
  }

  /** Whatever happens to the cache, each id is created by at most one call, the
      row is that call's table, and rows never change. */
  lemma EveryCreateIsFinal(s0: State, es: seq<Event>, c: nat, d: nat)
    requires Init(s0) && ValidRun(s0, es)
    requires var calls := Run(s0, es).calls; c in calls && d in calls && calls[c].CreateDone? && calls[d].CreateDone?
    ensures var s := Run(s0, es);
      && (s.calls[c].result.Created? ==> HasRow(s.source, s.calls[c].table.id, s.calls[c].table))
      && (s.calls[c].result.Created? && s.calls[d].result.Created? && s.calls[c].table.id == s.calls[d].table.id ==> c == d)
      && Grows(s0.source, s.source)
  {
    RunKeepsInv(s0, es);
    var s := Run(s0, es);
    assert CallOk(s.source, s.calls[c]);
    if s.calls[c].result.Created? && s.calls[d].result.Created? && s.calls[c].table.id == s.calls[d].table.id {
      assert Inserted(s.calls[c], s.calls[c].table.id) && Inserted(s.calls[d], s.calls[c].table.id);
    }
  }

  lemma {:induction false} ReadKeepsStart(s: State, es: seq<Event>, c: nat)
    requires ValidRun(s, es) && c in s.calls && !s.calls[c].Insert? && !s.calls[c].Invalidate? && !s.calls[c].CreateDone?
    ensures c in Run(s, es).calls
    ensures var call := Run(s, es).calls[c];
      && !call.Insert? && !call.Invalidate? && !call.CreateDone?
      && call.absent == s.calls[c].absent && call.id == s.calls[c].id
    decreases |es|
  {
    if |es| != 0 { ReadKeepsStart(Apply(s, es[0]), es[1..], c); }
  }

  /** A read that begins after the row is there, say because its create has
      returned, never reports not-found. */
  lemma ReadAfterCreateFinds(s0: State, es: seq<Event>, c: nat, id: string, more: seq<Event>)
    requires Init(s0) && ValidRun(s0, es) && c !in Run(s0, es).calls && id in Run(s0, es).source
    requires ValidRun(Apply(Run(s0, es), BeginRead(c, id)), more)
    ensures var t := Run(Apply(Run(s0, es), BeginRead(c, id)), more);
      && c in t.calls
      && t.calls[c] != ReadDone(id, false, NotFound) && t.calls[c] != ReadDone(id, true, NotFound)
      && (t.calls[c].ReadDone? && t.calls[c].result.Found? ==> t.calls[c].result.table == Run(s0, es).source[id])
  {
    var s := Run(s0, es);
    var u := Apply(s, BeginRead(c, id));
    RunKeepsInv(s0, es);
    StepKeepsInv(s, BeginRead(c, id));
    RunKeepsInv(u, more);
    ReadKeepsStart(u, more, c);
    var t := Run(u, more);
    assert CallOk(t.source, t.calls[c]);
    assert HasRow(t.source, id, s.source[id]);
  }

  // ------------------------------------------------------ the code's own form

  /** A read whose steps nothing interrupts: its result and the cache it leaves. */
  function ReadAlone(source: map<string, Table>, cache: map<string, Bytes>, id: string, getFails: bool, sourceFails: bool, setFails: bool)
    : (Result, map<string, Bytes>)
  {
    var a := Advance(source, cache, ReadCache(id, id !in source), getFails);
    if a.call.ReadDone? then (a.call.result, a.cache)
    else
      var b := Advance(source, a.cache, a.call, sourceFails);
      if b.call.ReadDone? then (b.call.result, b.cache)
      else
        var c := Advance(source, b.cache, b.call, setFails);
        (if c.call.ReadDone? then c.call.result else Failed, c.cache)
  }

  function CreateAlone(source: map<string, Table>, cache: map<string, Bytes>, t: Table, insertFails: bool, deleteFails: bool): Next {
    var a := Advance(source, cache, Insert(t), insertFails);
    if a.call.CreateDone? then a else Advance(a.source, a.cache, a.call, deleteFails)
  }

  class CachedRepository {
    var source: map<string, Table>
    var cache: map<string, Bytes>

    ghost predicate Valid()
      reads this
    {
      Keyed(source) && Coherent(source, cache)
    }

    constructor ()
      ensures Valid() && source == map[] && cache == map[]
    {
      source, cache := map[], map[];
    }

    method InnerGet(id: string, fails: bool) returns (r: Result)
      ensures r == if fails then Failed else if id in source then Found(source[id]) else NotFound
    {
      if fails { return Failed; }
      if id !in source { return NotFound; }
      return Found(source[id]);
    }

    /** With nothing in between, the cache is invisible: the answer is the
        source's, unless the source is needed and fails. */
    method GetLootTable(id: string, getFails: bool, sourceFails: bool, setFails: bool) returns (r: Result)
      requires Valid()
      modifies this`cache
      ensures Valid()
      ensures (r, cache) == ReadAlone(source, old(cache), id, getFails, sourceFails, setFails)
      ensures r.Found? || r.NotFound? || r.Failed?
      ensures r.Found? ==> HasRow(source, id, r.table)
      ensures r.NotFound? <==> id !in source && !sourceFails
      ensures r.Failed? <==> sourceFails && (getFails || id !in old(cache) || old(cache)[id].Corrupt?)
      ensures var missed := getFails || id !in old(cache) || old(cache)[id].Corrupt?;
        cache == if missed && r.Found? && !setFails then old(cache)[id := Encoded(r.table)] else old(cache)
    {
      if !getFails && id in cache {
        var b := cache[id];
        if b.Encoded? { return Found(b.table); }
      }
      r := InnerGet(id, sourceFails);
      if !r.Found? { return; }
      if !setFails { cache := cache[id := Encoded(r.table)]; }
    }

    method CreateLootTable(t: Table, insertFails: bool, deleteFails: bool) returns (r: Result)
      requires Valid()
      modifies this
      ensures Valid()
      ensures Next(source, cache, CreateDone(t, r)) == CreateAlone(old(source), old(cache), t, insertFails, deleteFails)
      ensures r == if insertFails || t.id in old(source) then Failed else Created
      ensures source == if r.Created? then old(source)[t.id := t] else old(source)
      ensures cache == if r.Created? && !deleteFails then old(cache) - {t.id} else old(cache)
    {
      if insertFails || t.id in source { return Failed; }
      source := source[t.id := t];
      if !deleteFails { cache := cache - {t.id}; }
      return Created;
    }
  }
}
