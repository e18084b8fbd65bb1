/** Live health and mana pools. The registry never hands out a pool it keeps,
    so a map of pool values stands for its map of pool pointers. */
module Vitals {
  import opened Common

  datatype Pool = Pool(hp: real, maxHp: real, mp: real, maxMp: real, dead: bool)

  type Pools = map<int, Pool>

  function Started(m: Pools, id: int, maxHp: real, maxMp: real): Pools {
    m[id := Pool(maxHp, maxHp, maxMp, maxMp, false)]
  }

  function Hurt(p: Pool, amount: real): Pool {
    if p.hp - amount <= 0.0 then p.(hp := 0.0, dead := true) else p.(hp := p.hp - amount)
  }

  predicate Alive(m: Pools, id: int) { id in m && !m[id].dead }

  function Deducted(m: Pools, id: int, amount: real): Pools {
    if Alive(m, id) then m[id := Hurt(m[id], amount)] else m
  }

  /** Whether a deduction lands the killing blow. */
  predicate Kills(m: Pools, id: int, amount: real) { Alive(m, id) && m[id].hp <= amount }

  function Healed(m: Pools, id: int, amount: real): Pools {
    if Alive(m, id)
    then m[id := m[id].(hp := if m[id].hp + amount > m[id].maxHp then m[id].maxHp else m[id].hp + amount)]
    else m
  }

  predicate CanSpend(m: Pools, id: int, amount: real) { id in m && m[id].mp >= amount }

  function Spent(m: Pools, id: int, amount: real): Pools {
    if CanSpend(m, id, amount) then m[id := m[id].(mp := m[id].mp - amount)] else m
  }

  function Revived(m: Pools, id: int): Pools {
    if id in m then m[id := m[id].(hp := m[id].maxHp, dead := false)] else m
  }

  // -------------------------------------------------------- range invariant

  predicate Ok(p: Pool) {
    && 0.0 <= p.hp <= p.maxHp
    && 0.0 <= p.mp <= p.maxMp
    && (p.dead ==> p.hp == 0.0)
  }

  predicate AllOk(m: Pools) { forall id :: id in m ==> Ok(m[id]) }

  lemma StartKeepsRangeIff(m: Pools, id: int, maxHp: real, maxMp: real)
    requires AllOk(m)
    ensures AllOk(Started(m, id, maxHp, maxMp)) <==> maxHp >= 0.0 && maxMp >= 0.0
  {
    assert AllOk(Started(m, id, maxHp, maxMp)) ==> Ok(Started(m, id, maxHp, maxMp)[id]);
  }

  /** A deduction breaks the range exactly when a negative amount lifts a living
      pool above its maximum. */
  lemma DeductKeepsRangeIff(m: Pools, id: int, amount: real)
    requires AllOk(m)
    ensures AllOk(Deducted(m, id, amount)) <==> (Alive(m, id) ==> m[id].hp - amount <= m[id].maxHp)
  {
    if Alive(m, id) { assert AllOk(Deducted(m, id, amount)) ==> Ok(Deducted(m, id, amount)[id]); }
  }

  lemma HealKeepsRangeIff(m: Pools, id: int, amount: real)
    requires AllOk(m)
    ensures AllOk(Healed(m, id, amount)) <==> (Alive(m, id) ==> m[id].hp + amount >= 0.0)
  {
    if Alive(m, id) { assert AllOk(Healed(m, id, amount)) ==> Ok(Healed(m, id, amount)[id]); }
  }

  lemma SpendKeepsRangeIff(m: Pools, id: int, amount: real)
    requires AllOk(m)
    ensures AllOk(Spent(m, id, amount)) <==> (CanSpend(m, id, amount) ==> m[id].mp - amount <= m[id].maxMp)
  {
    if CanSpend(m, id, amount) { assert AllOk(Spent(m, id, amount)) ==> Ok(Spent(m, id, amount)[id]); }
  }

  lemma ReviveKeepsRange(m: Pools, id: int)
    requires AllOk(m)
    ensures AllOk(Revived(m, id))
    ensures id in m ==> Alive(Revived(m, id), id)
  {}

  // ------------------------------------------------------ the code's own form

  class Registry {
    var pools: Pools

    constructor ()
      ensures pools == map[]
    {
      pools := map[];
    }

    method Start(id: int, maxHp: real, maxMp: real) returns (p: Pool)
      modifies this
      ensures pools == Started(old(pools), id, maxHp, maxMp)
      ensures p == Pool(maxHp, maxHp, maxMp, maxMp, false) && pools == old(pools)[id := p]
    {
      p := Pool(maxHp, maxHp, maxMp, maxMp, false);
      pools := pools[id := p];
    }

    method Get(id: int) returns (p: Option<Pool>)
      ensures p == if id in pools then Some(pools[id]) else None
    {
      if id !in pools { return None; }
      return Some(pools[id]);
    }

    method End(id: int)
      modifies this
      ensures pools == old(pools) - {id}
    {
      pools := pools - {id};
    }

    method DeductAndReserveKill(id: int, amount: real) returns (hp: real, dead: bool, killedNow: bool)
      modifies this
      ensures pools == Deducted(old(pools), id, amount)
      ensures pools.Keys == old(pools).Keys && forall k :: k in pools && k != id ==> pools[k] == old(pools)[k]
      ensures id in pools && old(pools)[id].dead ==> pools[id] == old(pools)[id]
      ensures id in pools && !old(pools)[id].dead ==>
        var was := old(pools)[id];
        pools[id] == if was.hp - amount <= 0.0 then was.(hp := 0.0, dead := true) else was.(hp := was.hp - amount)
      ensures killedNow <==> Kills(old(pools), id, amount)
      ensures killedNow <==> id in pools && !old(pools)[id].dead && pools[id].dead
      ensures dead <==> id in pools && pools[id].dead
      ensures hp == if id in pools && !pools[id].dead then pools[id].hp else 0.0
    {
      if id !in pools { return 0.0, false, false; }
      var p := pools[id];
      if p.dead { return 0.0, true, false; }
      killedNow := false;
      p := p.(hp := p.hp - amount);
      if p.hp <= 0.0 {
        p := p.(hp := 0.0, dead := true);
        killedNow := true;
      }
      pools := pools[id := p];
      return p.hp, p.dead, killedNow;
    }

    method DeductHP(id: int, amount: real) returns (hp: real, dead: bool)
      modifies this
      ensures pools == Deducted(old(pools), id, amount)
      ensures pools.Keys == old(pools).Keys && forall k :: k in pools && k != id ==> pools[k] == old(pools)[k]
      ensures id in pools && old(pools)[id].dead ==> pools[id] == old(pools)[id]
      ensures id in pools && !old(pools)[id].dead ==>
        var was := old(pools)[id];
        pools[id] == if was.hp - amount <= 0.0 then was.(hp := 0.0, dead := true) else was.(hp := was.hp - amount)
      ensures dead <==> id in pools && pools[id].dead
      ensures hp == if id in pools && !pools[id].dead then pools[id].hp else 0.0
    {
      if id !in pools { return 0.0, false; }
      var p := pools[id];
      if p.dead { return 0.0, true; }
      p := p.(hp := p.hp - amount);
      if p.hp <= 0.0 { p := p.(hp := 0.0, dead := true); }
      pools := pools[id := p];
      return p.hp, p.dead;
    }

    method Heal(id: int, amount: real) returns (hp: real, ok: bool)
      modifies this
      ensures pools == Healed(old(pools), id, amount)
      ensures pools.Keys == old(pools).Keys && forall k :: k in pools && k != id ==> pools[k] == old(pools)[k]
      ensures id in pools && old(pools)[id].dead ==> pools[id] == old(pools)[id]
      ensures id in pools && !old(pools)[id].dead ==>
        var was := old(pools)[id];
        pools[id] == was.(hp := if was.hp + amount > was.maxHp then was.maxHp else was.hp + amount)
      ensures (ok <==> Alive(old(pools), id)) && (ok ==> hp == pools[id].hp)
    {
      if id !in pools || pools[id].dead { return 0.0, false; }
      var p := pools[id];
      p := p.(hp := p.hp + amount);
      if p.hp > p.maxHp { p := p.(hp := p.maxHp); }
      pools := pools[id := p];
      return p.hp, true;
    }

    method SpendMP(id: int, amount: real) returns (ok: bool)
      modifies this
      ensures pools == Spent(old(pools), id, amount)
      ensures ok <==> id in old(pools) && old(pools)[id].mp >= amount
      ensures pools == if ok then old(pools)[id := old(pools)[id].(mp := old(pools)[id].mp - amount)] else old(pools)
    {
      if id !in pools || pools[id].mp < amount { return false; }
      pools := pools[id := pools[id].(mp := pools[id].mp - amount)];
      return true;
    }

    method Revive(id: int) returns (ok: bool)
      modifies this
      ensures pools == Revived(old(pools), id) && (ok <==> id in old(pools))
      ensures pools == if ok then old(pools)[id := old(pools)[id].(hp := old(pools)[id].maxHp, dead := false)] else old(pools)
    {
      if id !in pools { return false; }
      pools := pools[id := pools[id].(hp := pools[id].maxHp, dead := false)];
      return true;
    }
  }
}
