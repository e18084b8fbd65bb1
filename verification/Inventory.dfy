/** The inventory of one character: rows of the `inventories` table with a slot
    each, the SQL statements on them, and AddItem and MoveItem as functions.

    The table is modelled WITHOUT its UNIQUE (character_id, slot_index)
    constraint, so that uniqueness has to be proved: no statement would ever be
    rejected by the database. */
module Inventory {
  import opened Common

  type RowId = nat

  const MIN_BAG_SLOT := 0
  const MAX_BAG_SLOT := 99
  const WEAPON_SLOT := 1000
  const ACCESSORY_SLOT := 1005
  const PARKING_SLOT := -99

  datatype Item = Item(slotType: string, minLevel: int, classes: seq<string>, quantity: int)

  datatype Row = Row(slot: int, item: Item)

  type Bag = map<RowId, Row>

  datatype Error = SlotOutOfBounds | ItemNotFound | InvalidEquipmentSlot | LevelRestricted | ClassRestricted | StoreFailure

  type Outcome = Option<Error>   // None is success

  // ------------------------------------------------------------ the rules

  predicate IsEquipmentSlot(slot: int) { WEAPON_SLOT <= slot <= ACCESSORY_SLOT }

  predicate IsValidSlot(slot: int) { MIN_BAG_SLOT <= slot <= MAX_BAG_SLOT || IsEquipmentSlot(slot) }

  function Fold(c: char): char {
    if 'A' <= c <= 'Z' then c - 'A' + 'a' else c
  }

  predicate EqualFold(a: string, b: string) {
    |a| == |b| && forall i :: 0 <= i < |a| ==> Fold(a[i]) == Fold(b[i])
  }

  function SlotTypeOf(slot: int): string {
    if slot == 1000 then "WEAPON"
    else if slot == 1001 then "BODY_ARMOR"
    else if slot == 1002 then "HELMET"
    else if slot == 1003 then "SHIELD"
    else if slot == 1004 then "SHOES"
    else if slot == 1005 then "ACCESSORY"
    else ""
  }

  /** `validateEquipmentRequirements`, first failing rule first. */
  function Validate(item: Item, slot: int, level: int, cls: string): Outcome {
    if !IsEquipmentSlot(slot) || item.slotType != SlotTypeOf(slot) then Some(InvalidEquipmentSlot)
    else if level < item.minLevel then Some(LevelRestricted)
    else if |item.classes| > 0 && !(exists i :: 0 <= i < |item.classes| && EqualFold(item.classes[i], cls)) then
      Some(ClassRestricted)
    else None
  }

  /** Equal, or the same letter in upper and lower case. */
  predicate SameLetter(a: char, b: char) {
    || a == b
    || ('A' <= a <= 'Z' && b as int == a as int + 32)
    || ('A' <= b <= 'Z' && a as int == b as int + 32)
  }

  lemma EqualFoldMeans(a: string, b: string)
    ensures EqualFold(a, b) <==> |a| == |b| && forall i :: 0 <= i < |a| ==> SameLetter(a[i], b[i])
  {
    forall i | 0 <= i < |a| && i < |b| ensures Fold(a[i]) == Fold(b[i]) <==> SameLetter(a[i], b[i]) {}
  }

  /** The kind of item that each equipment slot takes. */
  predicate SlotFits(item: Item, slot: int) {
    || (slot == 1000 && item.slotType == "WEAPON")
    || (slot == 1001 && item.slotType == "BODY_ARMOR")
    || (slot == 1002 && item.slotType == "HELMET")
    || (slot == 1003 && item.slotType == "SHIELD")
    || (slot == 1004 && item.slotType == "SHOES")
    || (slot == 1005 && item.slotType == "ACCESSORY")
  }

  /** An item without restrictions fits every class. */
  predicate ClassFits(item: Item, cls: string) {
    item.classes == [] ||
    exists i :: 0 <= i < |item.classes| && |item.classes[i]| == |cls| && forall k :: 0 <= k < |cls| ==> SameLetter(item.classes[i][k], cls[k])
  }

  predicate Wearable(item: Item, slot: int, level: int, cls: string) {
    SlotFits(item, slot) && level >= item.minLevel && ClassFits(item, cls)
  }

  /** Which error the rules give, the first broken one first. */
  lemma ValidateRules(item: Item, slot: int, level: int, cls: string)
    ensures Validate(item, slot, level, cls) == Some(InvalidEquipmentSlot) <==> !SlotFits(item, slot)
    ensures Validate(item, slot, level, cls) == Some(LevelRestricted) <==> SlotFits(item, slot) && level < item.minLevel
    ensures Validate(item, slot, level, cls) == Some(ClassRestricted) <==>
            SlotFits(item, slot) && level >= item.minLevel && !ClassFits(item, cls)
    ensures Validate(item, slot, level, cls).None? <==> Wearable(item, slot, level, cls)
  {
    FoldClass(item, cls);
  }

  lemma FoldClass(item: Item, cls: string)
    ensures ClassFits(item, cls) <==>
      item.classes == [] || exists i :: 0 <= i < |item.classes| && EqualFold(item.classes[i], cls)
  {
    forall i | 0 <= i < |item.classes|
      ensures EqualFold(item.classes[i], cls) <==>
        |item.classes[i]| == |cls| && forall k :: 0 <= k < |cls| ==> SameLetter(item.classes[i][k], cls[k])
    {
      EqualFoldMeans(item.classes[i], cls);
    }
  }

  lemma ValidateMonotone(item: Item, slot: int, low: int, high: int, cls: string)
    requires low <= high && Validate(item, slot, low, cls).None?
    ensures Validate(item, slot, high, cls).None?
  {
  }

  // ------------------------------------------------------- SQL statements

  ghost predicate UniqueSlots(bag: Bag) {
    forall a, b :: a in bag && b in bag && bag[a].slot == bag[b].slot ==> a == b
  }

  ghost predicate SlotsValid(bag: Bag) {
    forall a :: a in bag ==> IsValidSlot(bag[a].slot)
  }

  ghost predicate BagOk(bag: Bag) { UniqueSlots(bag) && SlotsValid(bag) }

  predicate Occupied(bag: Bag, slot: int) { exists id :: id in bag && bag[id].slot == slot }

  function Slots(bag: Bag): set<int> { set id | id in bag :: bag[id].slot }

  /** GetBySlot; deterministic on a bag with unique slots. */
  ghost function RowAt(bag: Bag, slot: int): (id: RowId)
    requires Occupied(bag, slot)
    ensures id in bag && bag[id].slot == slot
  {
    var id :| id in bag && bag[id].slot == slot; id
  }

  ghost function ItemAt(bag: Bag, slot: int): Item
    requires Occupied(bag, slot)
  {
    bag[RowAt(bag, slot)].item
  }

  /** UPDATE inventories SET slot_index = to WHERE slot_index = from. */
  function Relabel(bag: Bag, from: int, to: int): Bag {
    map id | id in bag :: if bag[id].slot == from then bag[id].(slot := to) else bag[id]
  }

  /** What a swap means: the occupants of the two slots trade places. */
  function SwapSlots(bag: Bag, a: int, b: int): Bag {
    map id | id in bag ::
      bag[id].(slot := if bag[id].slot == a then b else if bag[id].slot == b then a else bag[id].slot)
  }

  /** Which items exist, forgetting where they lie. */
  function Contents(bag: Bag): map<RowId, Item> { map id | id in bag :: bag[id].item }

  lemma RelabelKeepsUnique(bag: Bag, from: int, to: int)
    requires UniqueSlots(bag) && !Occupied(bag, to)
    ensures UniqueSlots(Relabel(bag, from, to))
    ensures from != to ==> !Occupied(Relabel(bag, from, to), from)
  {
  }

  lemma RelabelKeepsContents(bag: Bag, from: int, to: int)
    ensures Contents(Relabel(bag, from, to)) == Contents(bag)
    ensures SlotsValid(bag) && IsValidSlot(to) ==> SlotsValid(Relabel(bag, from, to))
  {
  }

  lemma SwapKeepsUnique(bag: Bag, a: int, b: int)
    requires UniqueSlots(bag)
    ensures UniqueSlots(SwapSlots(bag, a, b))
  {
  }

  lemma SwapKeepsContents(bag: Bag, a: int, b: int)
    ensures Contents(SwapSlots(bag, a, b)) == Contents(bag)
    ensures SlotsValid(bag) && IsValidSlot(a) && IsValidSlot(b) ==> SlotsValid(SwapSlots(bag, a, b))
  {
  }

  lemma StatementsSwap(bag: Bag, a: int, b: int)
    requires SlotsValid(bag) && IsValidSlot(a) && IsValidSlot(b)
    ensures Relabel(Relabel(Relabel(bag, a, PARKING_SLOT), b, a), PARKING_SLOT, b) == SwapSlots(bag, a, b)
  {
    var parked := Relabel(bag, a, PARKING_SLOT);
    var half := Relabel(parked, b, a);
    var done := Relabel(half, PARKING_SLOT, b);
    forall id | id in bag ensures done[id] == SwapSlots(bag, a, b)[id] {
      assert id in parked && id in half && IsValidSlot(bag[id].slot);
    }
  }

  /** The three statements through the parking slot are a swap, also of a slot
      with itself, and no two rows share a slot between the statements. */
  lemma SwapStatements(bag: Bag, a: int, b: int)
    requires BagOk(bag) && IsValidSlot(a) && IsValidSlot(b)
    ensures UniqueSlots(Relabel(bag, a, PARKING_SLOT))
    ensures UniqueSlots(Relabel(Relabel(bag, a, PARKING_SLOT), b, a))
    ensures Relabel(Relabel(Relabel(bag, a, PARKING_SLOT), b, a), PARKING_SLOT, b) == SwapSlots(bag, a, b)
  {
    RelabelKeepsUnique(bag, a, PARKING_SLOT);
    RelabelKeepsUnique(Relabel(bag, a, PARKING_SLOT), b, a);
    StatementsSwap(bag, a, b);
  }

  // -------------------------------------------- the operations, as effects

  function FreeFrom(occupied: set<int>, i: int): int
    requires i <= MAX_BAG_SLOT + 1
    decreases MAX_BAG_SLOT + 1 - i
  {
    if i > MAX_BAG_SLOT then -1 else if i !in occupied then i else FreeFrom(occupied, i + 1)
  }

  function FirstFree(occupied: set<int>): int { FreeFrom(occupied, MIN_BAG_SLOT) }

  lemma FreeFromIsLeast(occupied: set<int>, i: int)
    requires 0 <= i <= MAX_BAG_SLOT + 1
    ensures var f := FreeFrom(occupied, i);
      && (f == -1 ==> forall s :: i <= s <= MAX_BAG_SLOT ==> s in occupied)
      && (f != -1 ==> i <= f <= MAX_BAG_SLOT && f !in occupied && forall s :: i <= s < f ==> s in occupied)
    decreases MAX_BAG_SLOT + 1 - i
  {
  }

  datatype Op = Add(item: Item) | Move(from: int, to: int)

  /** One call: what was asked, the row id the insert draws from the sequence,
      and the levels the two equipment checks read. */
  datatype Call = Call(op: Op, id: RowId, cls: string, levelTo: int, levelBack: int)

  ghost function Effect(bag: Bag, c: Call): (Bag, Outcome) {
    match c.op
    case Add(item) =>
      var slot := FirstFree(Slots(bag));
      if slot == -1 then (bag, Some(SlotOutOfBounds)) else (bag[c.id := Row(slot, item)], None)
    case Move(from, to) =>
      if !IsValidSlot(from) || !IsValidSlot(to) then (bag, Some(SlotOutOfBounds))
      else if !Occupied(bag, from) then (bag, Some(ItemNotFound))
      else if IsEquipmentSlot(to) && Validate(ItemAt(bag, from), to, c.levelTo, c.cls).Some? then
        (bag, Validate(ItemAt(bag, from), to, c.levelTo, c.cls))
      else if !Occupied(bag, to) then (Relabel(bag, from, to), None)
      else if IsEquipmentSlot(from) && IsEquipmentSlot(to) && Validate(ItemAt(bag, to), from, c.levelBack, c.cls).Some? then
        (bag, Validate(ItemAt(bag, to), from, c.levelBack, c.cls))
      else (SwapSlots(bag, from, to), None)
  }

  lemma MoveWrites(bag: Bag, c: Call)
    requires c.op.Move?
    ensures var (after, r) := Effect(bag, c);
      && (r.Some? ==> after == bag)
      && (r.None? ==> IsValidSlot(c.op.from) && IsValidSlot(c.op.to))
      && (r.None? && Occupied(bag, c.op.to) ==> after == SwapSlots(bag, c.op.from, c.op.to))
      && (r.None? && !Occupied(bag, c.op.to) ==> after == Relabel(bag, c.op.from, c.op.to))
  {
  }

  lemma RelabelKeepsBag(bag: Bag, from: int, to: int)
    requires BagOk(bag) && IsValidSlot(to) && !Occupied(bag, to)
    ensures BagOk(Relabel(bag, from, to)) && Contents(Relabel(bag, from, to)) == Contents(bag)
  {
    RelabelKeepsUnique(bag, from, to);
    RelabelKeepsContents(bag, from, to);
  }

  lemma SwapKeepsBag(bag: Bag, a: int, b: int)
    requires BagOk(bag) && IsValidSlot(a) && IsValidSlot(b)
    ensures BagOk(SwapSlots(bag, a, b)) && Contents(SwapSlots(bag, a, b)) == Contents(bag)
  {
    SwapKeepsUnique(bag, a, b);
    SwapKeepsContents(bag, a, b);
  }

  lemma MoveKeepsBag(bag: Bag, c: Call)
    requires BagOk(bag) && c.op.Move?
    ensures BagOk(Effect(bag, c).0) && Contents(Effect(bag, c).0) == Contents(bag)
  {
    MoveWrites(bag, c);
    if Effect(bag, c).1.None? {
      if Occupied(bag, c.op.to) { SwapKeepsBag(bag, c.op.from, c.op.to); } else { RelabelKeepsBag(bag, c.op.from, c.op.to); }
    }
  }

  lemma AddKeepsBag(bag: Bag, c: Call)
    requires BagOk(bag) && c.op.Add? && c.id !in bag
    ensures var (after, r) := Effect(bag, c);
      && BagOk(after)
      && (r.None? ==> Contents(after) == Contents(bag)[c.id := c.op.item])
      && (r.Some? ==> after == bag && r == Some(SlotOutOfBounds))
      && (r.Some? <==> forall s :: MIN_BAG_SLOT <= s <= MAX_BAG_SLOT ==> Occupied(bag, s))
  {
    FreeFromIsLeast(Slots(bag), 0);
    var slot := FirstFree(Slots(bag));
    if slot != -1 {
      assert !Occupied(bag, slot) by { assert slot !in Slots(bag); }
    } else {
      forall s | MIN_BAG_SLOT <= s <= MAX_BAG_SLOT ensures Occupied(bag, s) {
        assert s in Slots(bag);
      }
    }
  }

  predicate BagOrEquipment(slot: int) { 0 <= slot <= 99 || 1000 <= slot <= 1005 }

  /** The item at `from` may go to `to`, at the level of the first check. */
  ghost predicate GoesTo(bag: Bag, c: Call)
    requires c.op.Move? && Occupied(bag, c.op.from)
  {
    1000 <= c.op.to <= 1005 ==> Wearable(ItemAt(bag, c.op.from), c.op.to, c.levelTo, c.cls)
  }

  /** What lies at `to` may come back, where that is checked. */
  ghost predicate ComesBack(bag: Bag, c: Call)
    requires c.op.Move?
  {
    Occupied(bag, c.op.to) && 1000 <= c.op.from <= 1005 && 1000 <= c.op.to <= 1005 ==>
      Wearable(ItemAt(bag, c.op.to), c.op.from, c.levelBack, c.cls)
  }

  /** When a move succeeds, and what it reports otherwise. */
  lemma MoveOutcome(bag: Bag, c: Call)
    requires c.op.Move?
    ensures var r, ok := Effect(bag, c).1, BagOrEquipment(c.op.from) && BagOrEquipment(c.op.to);
      && (r == Some(SlotOutOfBounds) <==> !ok)
      && (r == Some(ItemNotFound) <==> ok && !Occupied(bag, c.op.from))
      && (r.None? <==> ok && Occupied(bag, c.op.from) && GoesTo(bag, c) && ComesBack(bag, c))
      && (ok && Occupied(bag, c.op.from) && !GoesTo(bag, c) ==> r == Broken(ItemAt(bag, c.op.from), c.op.to, c.levelTo))
      && (ok && Occupied(bag, c.op.from) && GoesTo(bag, c) && !ComesBack(bag, c) ==>
            r == Broken(ItemAt(bag, c.op.to), c.op.from, c.levelBack))
  {
    if Occupied(bag, c.op.from) { ValidateRules(ItemAt(bag, c.op.from), c.op.to, c.levelTo, c.cls); }
    if Occupied(bag, c.op.to) { ValidateRules(ItemAt(bag, c.op.to), c.op.from, c.levelBack, c.cls); }
  }

  /** The error for an item that may not be worn. */
  function Broken(item: Item, slot: int, level: int): Outcome {
    Some(if !SlotFits(item, slot) then InvalidEquipmentSlot else if level < item.minLevel then LevelRestricted else ClassRestricted)
  }

  /** A successful move puts the item of `from` at `to` and what lay there at
      `from`, and touches nothing else. */
  lemma MoveTrades(bag: Bag, c: Call)
    requires BagOk(bag) && c.op.Move? && Effect(bag, c).1.None?
    ensures var after := Effect(bag, c).0;
      && Occupied(bag, c.op.from)
      && after[RowAt(bag, c.op.from)].slot == c.op.to
      && (Occupied(bag, c.op.to) ==> after[RowAt(bag, c.op.to)].slot == c.op.from)
      && (forall id :: id in bag && bag[id].slot != c.op.from && bag[id].slot != c.op.to ==> after[id] == bag[id])
  {
  }

  /** Moving there and back restores the bag, when both moves succeed. */
  lemma MoveBackUndoes(bag: Bag, c: Call, d: Call)
    requires BagOk(bag) && c.op.Move? && d.op == Move(c.op.to, c.op.from)
    requires Effect(bag, c).1.None? && Effect(Effect(bag, c).0, d).1.None?
    ensures Effect(Effect(bag, c).0, d).0 == bag
  {
    MoveTrades(bag, c);
  }

  // ------------------------------------------------------------- loadouts

  /** Every equipped item passes its slot, level and class rules. */
  ghost predicate Loadout(bag: Bag, level: int, cls: string) {
    forall id :: id in bag && IsEquipmentSlot(bag[id].slot) ==> Validate(bag[id].item, bag[id].slot, level, cls).None?
  }

  /** The unchecked branch: an equipped item goes onto an occupied bag slot
      whose item is not fit for the equipment slot it is swapped into. */
  ghost predicate UnfitSwap(bag: Bag, c: Call, level: int) {
    && c.op.Move? && IsEquipmentSlot(c.op.from) && IsValidSlot(c.op.to) && !IsEquipmentSlot(c.op.to)
    && Occupied(bag, c.op.from) && Occupied(bag, c.op.to)
    && Validate(ItemAt(bag, c.op.to), c.op.from, level, c.cls).Some?
  }

  lemma AddKeepsLoadout(bag: Bag, c: Call, level: int)
    requires Loadout(bag, level, c.cls) && c.op.Add?
    ensures Loadout(Effect(bag, c).0, level, c.cls)
  {
    FreeFromIsLeast(Slots(bag), 0);
  }

  lemma FitMoveKeepsLoadout(bag: Bag, c: Call, level: int)
    requires BagOk(bag) && Loadout(bag, level, c.cls) && c.op.Move?
    requires c.levelTo <= level && c.levelBack <= level && !UnfitSwap(bag, c, level)
    ensures Loadout(Effect(bag, c).0, level, c.cls)
  {
    var after := Effect(bag, c).0;
    var from, to := c.op.from, c.op.to;
    if Effect(bag, c).1.None? {
      MoveTrades(bag, c);
      var x := RowAt(bag, from);
      if IsEquipmentSlot(to) { ValidateMonotone(bag[x].item, to, c.levelTo, level, c.cls); }
      if Occupied(bag, to) {
        var y := RowAt(bag, to);
        if IsEquipmentSlot(from) && IsEquipmentSlot(to) {
          ValidateMonotone(bag[y].item, from, c.levelBack, level, c.cls);
        }
      }
    }
  }

  lemma UnfitSwapBreaksLoadout(bag: Bag, c: Call, level: int)
    requires BagOk(bag) && UnfitSwap(bag, c, level)
    ensures !Loadout(Effect(bag, c).0, level, c.cls)
  {
    assert Effect(bag, c).1.None?;
    MoveTrades(bag, c);
    var y := RowAt(bag, c.op.to);
    assert Effect(bag, c).0[y].item == bag[y].item;
  }

  /** From a valid loadout, a move keeps the loadout valid exactly when it does
      not run into the unchecked branch with an unfit item. */
  lemma MoveKeepsLoadoutIff(bag: Bag, c: Call, level: int)
    requires BagOk(bag) && Loadout(bag, level, c.cls) && c.op.Move?
    requires c.levelTo <= level && c.levelBack <= level
    ensures Loadout(Effect(bag, c).0, level, c.cls) <==> !UnfitSwap(bag, c, level)
  {
    if UnfitSwap(bag, c, level) { UnfitSwapBreaksLoadout(bag, c, level); } else { FitMoveKeepsLoadout(bag, c, level); }
  }

  /** One move that equips a potion as a weapon. */
  lemma LoadoutCounterexample()
    ensures exists bag: Bag, c: Call ::
      BagOk(bag) && Loadout(bag, 1, c.cls) && Effect(bag, c).1.None? && !Loadout(Effect(bag, c).0, 1, c.cls)
  {
    var sword, potion := Item("WEAPON", 1, [], 1), Item("CONSUMABLE", 1, [], 5);
    var bag: Bag := map[0 := Row(1000, sword), 1 := Row(0, potion)];
    var c := Call(Move(1000, 0), 2, "", 1, 1);
    assert bag[0].slot == 1000 && bag[1].slot == 0;
    assert Occupied(bag, 1000) && Occupied(bag, 0);
    assert RowAt(bag, 0) == 1;
    assert Effect(bag, c).1.None?;
    UnfitSwapBreaksLoadout(bag, c, 1);
  }

  // ------------------------------------------------- the code's own form

  /** The search loop of AddItem. */
  method FindEmptySlot(occupied: set<int>) returns (emptySlot: int)
    ensures emptySlot == FirstFree(occupied)
    ensures emptySlot == -1 <==> forall s :: MIN_BAG_SLOT <= s <= MAX_BAG_SLOT ==> s in occupied
    ensures emptySlot != -1 ==> MIN_BAG_SLOT <= emptySlot <= MAX_BAG_SLOT && emptySlot !in occupied
    ensures forall s :: MIN_BAG_SLOT <= s < emptySlot ==> s in occupied
  {
    emptySlot := -1;
    FreeFromIsLeast(occupied, 0);
    for i := MIN_BAG_SLOT to MAX_BAG_SLOT + 1
      invariant emptySlot == -1 && FirstFree(occupied) == FreeFrom(occupied, i)
      invariant forall s :: MIN_BAG_SLOT <= s < i ==> s in occupied
    {
      if i !in occupied {
        emptySlot := i;
        break;
      }
    }
  }

  lemma OccupiedSlots(bag: Bag)
    ensures forall slot :: Occupied(bag, slot) <==> slot in Slots(bag)
  {
  }

  /** One character's rows behind the repository, and the service over it. */
  class InventoryService {
    var bag: Bag
    var nextId: RowId

    ghost predicate Valid()
      reads this
    {
      BagOk(bag) && forall id :: id in bag ==> id < nextId
    }

    method GetBySlot(slot: int) returns (found: Option<RowId>)
      requires Valid()
      ensures found.Some? <==> Occupied(bag, slot)
      ensures found.Some? ==> found.value == RowAt(bag, slot)
    {
      if Occupied(bag, slot) {
        var id :| id in bag && bag[id].slot == slot;
        return Some(id);
      }
      return None;
    }

    method Swap(a: int, b: int)
      requires Valid() && IsValidSlot(a) && IsValidSlot(b)
      modifies this`bag
      ensures Valid() && bag == SwapSlots(old(bag), a, b)
    {
      SwapStatements(bag, a, b);
      SwapKeepsUnique(bag, a, b);
      SwapKeepsContents(bag, a, b);
      bag := Relabel(bag, a, PARKING_SLOT);
      assert UniqueSlots(bag);
      bag := Relabel(bag, b, a);
      assert UniqueSlots(bag);
      bag := Relabel(bag, PARKING_SLOT, b);
    }

    method AddItem(item: Item) returns (r: Outcome)
      requires Valid()
      modifies this
      ensures Valid()
      ensures (bag, r) == Effect(old(bag), Call(Add(item), old(nextId), "", 0, 0))
      ensures r.None? <==> exists slot :: 0 <= slot <= 99 && !Occupied(old(bag), slot)
      ensures r.None? ==>
        && old(nextId) in bag && bag == old(bag)[old(nextId) := bag[old(nextId)]] && bag[old(nextId)].item == item
        && var slot := bag[old(nextId)].slot;
           0 <= slot <= 99 && !Occupied(old(bag), slot) && forall lower :: 0 <= lower < slot ==> Occupied(old(bag), lower)
      ensures r.Some? ==> r == Some(SlotOutOfBounds) && bag == old(bag)
    {
      OccupiedSlots(bag);
      AddKeepsBag(bag, Call(Add(item), nextId, "", 0, 0));
      var emptySlot := FindEmptySlot(Slots(bag));
      if emptySlot == -1 { return Some(SlotOutOfBounds); }
      bag := bag[nextId := Row(emptySlot, item)];
      nextId := nextId + 1;
      return None;
    }

    method MoveItem(from: int, to: int, level: int, cls: string) returns (r: Outcome)
      requires Valid()
      modifies this`bag
      ensures Valid()
      ensures (bag, r) == Effect(old(bag), Call(Move(from, to), 0, cls, level, level))
      ensures r == Some(SlotOutOfBounds) <==> !(BagOrEquipment(from) && BagOrEquipment(to))
      ensures r == Some(ItemNotFound) <==> BagOrEquipment(from) && BagOrEquipment(to) && !Occupied(old(bag), from)
      ensures r.None? && 1000 <= to <= 1005 ==> Wearable(old(ItemAt(bag, from)), to, level, cls)
      ensures BagOrEquipment(from) && BagOrEquipment(to) && Occupied(old(bag), from) && !Occupied(old(bag), to) ==>
        r == if 1000 <= to <= 1005 && !Wearable(old(ItemAt(bag, from)), to, level, cls)
             then Broken(old(ItemAt(bag, from)), to, level) else None
      ensures r.Some? ==> bag == old(bag)
    {
      MoveOutcome(bag, Call(Move(from, to), 0, cls, level, level));
      MoveKeepsBag(bag, Call(Move(from, to), 0, cls, level, level));
      if !IsValidSlot(from) || !IsValidSlot(to) { return Some(SlotOutOfBounds); }
      var item := GetBySlot(from);
      if item.None? { return Some(ItemNotFound); }
      if IsEquipmentSlot(to) {
        r := Validate(bag[item.value].item, to, level, cls);
        if r.Some? { return; }
      }
      var dest := GetBySlot(to);
      if dest.None? {
        bag := Relabel(bag, from, to);
      } else {
        if IsEquipmentSlot(from) && IsEquipmentSlot(to) {
          r := Validate(bag[dest.value].item, from, level, cls);
          if r.Some? { return; }
        }
        Swap(from, to);
      }
      return None;
    }
  }
}
