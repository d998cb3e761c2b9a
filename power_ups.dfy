/**
 * components/game/power-ups.tsx: the six power-ups, their prices and the purchase rule. The
 * inventory record is the one the page keeps and the game board consumes.
 */
module PowerUpShop {

  datatype PowerUpKind = MiniBomb | StandardBomb | ExtraMoves | Eraser | StartBonus | BoardRefresh

  /** The `powerUps` record: how many of each power-up the player holds. */
  datatype Inventory = Inventory(
    miniBomb: int,
    standardBomb: int,
    extraMoves: int,
    eraser: int,
    startBonus: int,
    boardRefresh: int)

  /** The inventory the page starts with: none of anything. */
  const NO_POWER_UPS := Inventory(0, 0, 0, 0, 0, 0)

  /** `powerUps[kind]` */
  function Count(inv: Inventory, kind: PowerUpKind): int
  {
    match kind
    case MiniBomb => inv.miniBomb
    case StandardBomb => inv.standardBomb
    case ExtraMoves => inv.extraMoves
    case Eraser => inv.eraser
    case StartBonus => inv.startBonus
    case BoardRefresh => inv.boardRefresh
  }

  /** `{ ...powerUps, [kind]: powerUps[kind] + delta }` */
  function Adjust(inv: Inventory, kind: PowerUpKind, delta: int): (r: Inventory)
    ensures Count(r, kind) == Count(inv, kind) + delta
    ensures forall other :: other != kind ==> Count(r, other) == Count(inv, other)
  {
    match kind
    case MiniBomb => inv.(miniBomb := inv.miniBomb + delta)
    case StandardBomb => inv.(standardBomb := inv.standardBomb + delta)
    case ExtraMoves => inv.(extraMoves := inv.extraMoves + delta)
    case Eraser => inv.(eraser := inv.eraser + delta)
    case StartBonus => inv.(startBonus := inv.startBonus + delta)
    case BoardRefresh => inv.(boardRefresh := inv.boardRefresh + delta)
  }

  /** Two inventories holding the same count of every kind are the same record. */
  lemma InventoryExt(a: Inventory, b: Inventory)
    requires forall kind :: Count(a, kind) == Count(b, kind)
    ensures a == b
  {
    assert Count(a, MiniBomb) == Count(b, MiniBomb);
    assert Count(a, StandardBomb) == Count(b, StandardBomb);
    assert Count(a, ExtraMoves) == Count(b, ExtraMoves);
    assert Count(a, Eraser) == Count(b, Eraser);
    assert Count(a, StartBonus) == Count(b, StartBonus);
    assert Count(a, BoardRefresh) == Count(b, BoardRefresh);
  }

  /** Taking back what was added restores the inventory. */
  lemma AdjustUndo(inv: Inventory, kind: PowerUpKind, delta: int)
    ensures Adjust(Adjust(inv, kind, delta), kind, -delta) == inv
  {
    InventoryExt(Adjust(Adjust(inv, kind, delta), kind, -delta), inv);
  }

  /** The `price` column of `powerUpItems`. */
  function Price(kind: PowerUpKind): (p: nat)
    ensures 300 <= p <= 1500
  {
    match kind
    case MiniBomb => 500
    case StandardBomb => 1000
    case ExtraMoves => 750
    case Eraser => 300
    case StartBonus => 1500
    case BoardRefresh => 800
  }

  /** `canAfford`: the buy button is enabled exactly when this holds. */
  predicate CanAfford(gold: int, kind: PowerUpKind)
  {
    gold >= Price(kind)
  }

  /** What one press of a buy button does. */
  datatype Purchase =
    | NotEnoughGold                              // the "not enough gold" alert, nothing else
    | Declined                                   // the confirmation was refused
    | Bought(cost: nat, powerUps: Inventory)     // `onPurchase(cost)` then `onPowerUpAdd(powerUps)`

  /** `handleBuy(item)`, with `confirmed` the answer to the confirmation dialog. */
  function HandleBuy(gold: int, inv: Inventory, kind: PowerUpKind, confirmed: bool): (r: Purchase)
    ensures r == NotEnoughGold <==> !CanAfford(gold, kind)
    ensures r == Declined <==> CanAfford(gold, kind) && !confirmed
    ensures r.Bought? <==> CanAfford(gold, kind) && confirmed
    ensures r.Bought? ==> r.cost == Price(kind) && gold - r.cost >= 0
    ensures r.Bought? ==> Count(r.powerUps, kind) == Count(inv, kind) + 1
    ensures r.Bought? ==> forall other :: other != kind ==> Count(r.powerUps, other) == Count(inv, other)
  {
    if gold < Price(kind) then NotEnoughGold
    else if confirmed then Bought(Price(kind), Adjust(inv, kind, 1))
    else Declined
  }
}
