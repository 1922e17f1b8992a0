/** The economy table and the catch resolver of the fishing game: fish prices and
    catch rewards, upgrade prices, the inventory and upgrade records, the catch
    chance and the rarity draw. Probabilities and random draws are integer
    hundredths: a draw `d` with 0 <= d < 100 stands for Math.random() in
    [d/100, (d+1)/100). */
module Economy {
  import opened Util

  datatype Rarity = Common | Rare | Epic | Legendary

  /** The inventory's keys in the order the game enumerates them. */
  const RARITIES: seq<Rarity> := [Common, Rare, Epic, Legendary]

  datatype UpgradeKind = Rod | Bait | Line

  const MAX_LEVEL: int := 5

  /** Sale price of one fish (the `prices` table). */
  function FishPrice(r: Rarity): (p: int)
    ensures p == CatchScore(r)
  {
    match r
    case Common => 10
    case Rare => 50
    case Epic => 200
    case Legendary => 1000
  }

  /** Score awarded for catching one fish (the `scoreMap` table of catchFish). */
  function CatchScore(r: Rarity): (s: int)
    ensures 10 <= s <= 1000 && s % 10 == 0
  {
    match r
    case Common => 10
    case Rare => 50
    case Epic => 200
    case Legendary => 1000
  }

  /** A rarer fish is worth more, both as a catch and on sale. */
  lemma RarerFishPayMore(a: Rarity, b: Rarity)
    requires Tier(a) < Tier(b)
    ensures CatchScore(a) < CatchScore(b) && FishPrice(a) < FishPrice(b)
  {
  }

  /** Base price of an upgrade (the `prices` table). */
  function BasePrice(k: UpgradeKind): (p: int)
    ensures 200 <= p <= 500 && p % 100 == 0
  {
    match k
    case Rod => 500
    case Bait => 200
    case Line => 300
  }

  /** Price of the next level of an upgrade: the base price scaled by the current level.
      It is always a multiple of ten, so the bonus score `price / 10` is a whole number. */
  function UpgradePrice(k: UpgradeKind, level: int): (p: int)
    ensures p % 10 == 0
    ensures 1 <= level ==> BasePrice(k) <= p
  {
    BasePrice(k) * level
  }

  /** Rank of a rarity, from the most to the least common. */
  function Tier(r: Rarity): nat {
    match r
    case Common => 0
    case Rare => 1
    case Epic => 2
    case Legendary => 3
  }

  datatype Inventory = Inventory(common: int, rare: int, epic: int, legendary: int) {
    function Count(r: Rarity): int {
      match r
      case Common => common
      case Rare => rare
      case Epic => epic
      case Legendary => legendary
    }

    /** The inventory with the count of `r` replaced by `n`. */
    function With(r: Rarity, n: int): (inv: Inventory)
      ensures inv.Count(r) == n
      ensures forall o :: o != r ==> inv.Count(o) == Count(o)
    {
      match r
      case Common => this.(common := n)
      case Rare => this.(rare := n)
      case Epic => this.(epic := n)
      case Legendary => this.(legendary := n)
    }

    predicate Valid() {
      common >= 0 && rare >= 0 && epic >= 0 && legendary >= 0
    }
  }

  const EMPTY_INVENTORY: Inventory := Inventory(0, 0, 0, 0)

  datatype Upgrades = Upgrades(rod: int, bait: int, line: int) {
    function Level(k: UpgradeKind): int {
      match k
      case Rod => rod
      case Bait => bait
      case Line => line
    }

    /** The upgrades with the level of `k` replaced by `n`. */
    function With(k: UpgradeKind, n: int): (u: Upgrades)
      ensures u.Level(k) == n
      ensures forall o :: o != k ==> u.Level(o) == Level(o)
    {
      match k
      case Rod => this.(rod := n)
      case Bait => this.(bait := n)
      case Line => this.(line := n)
    }

    predicate Valid() {
      1 <= rod <= MAX_LEVEL && 1 <= bait <= MAX_LEVEL && 1 <= line <= MAX_LEVEL
    }
  }

  const STARTING_UPGRADES: Upgrades := Upgrades(1, 1, 1)

  // ---------------------------------------------------------------------------
  // Catch resolver

  /** Chance, in hundredths, that reeling in lands the fish: the smaller of
      70 + 5 * rod and 95. */
  function CatchChance(rod: int): (c: int)
    ensures c <= 95 && c <= 70 + 5 * rod
    ensures c == 95 || c == 70 + 5 * rod
  {
    if 70 + 5 * rod < 95 then 70 + 5 * rod else 95
  }

  /** A better rod never lowers the catch chance. */
  lemma CatchChanceMonotone(rod1: int, rod2: int)
    requires rod1 <= rod2
    ensures CatchChance(rod1) <= CatchChance(rod2)
  {
  }

  /** Rarity of a caught fish for a draw in hundredths: the cumulative thresholds
      60, 85 + 5 * bait and 95 + 5 * bait, tested in that order. */
  function RarityOf(draw: int, bait: int): (r: Rarity)
    ensures r == Common <==> draw < 60
    ensures r == Legendary ==> 95 + 5 * bait <= draw
  {
    if draw < 60 then Common
    else if draw < 85 + 5 * bait then Rare
    else if draw < 95 + 5 * bait then Epic
    else Legendary
  }

  /** A larger draw never yields a more common fish. */
  lemma RarityMonotone(draw1: int, draw2: int, bait: int)
    requires draw1 <= draw2
    ensures Tier(RarityOf(draw1, bait)) <= Tier(RarityOf(draw2, bait))
  {
  }

  /** From bait level 3 on, the rare threshold 85 + 5 * bait is at least 100, so
      every draw yields a common or a rare fish. */
  lemma HighBaitOnlyCommonOrRare(draw: int, bait: int)
    requires 3 <= bait && 0 <= draw < 100
    ensures RarityOf(draw, bait) == Common || RarityOf(draw, bait) == Rare
  {
  }

  /** Already at bait level 1 the epic threshold 95 + 5 * bait reaches 100, so no
      draw yields a legendary fish at any level the game allows. */
  lemma LegendaryUnreachable(draw: int, bait: int)
    requires 1 <= bait && 0 <= draw < 100
    ensures RarityOf(draw, bait) != Legendary
  {
  }

  // ---------------------------------------------------------------------------
  // Selling

  /** What selling the fish of rarity `r` brings in: only a positive count is sold. */
  function Proceeds(inv: Inventory, r: Rarity): int {
    if inv.Count(r) > 0 then inv.Count(r) * FishPrice(r) else 0
  }

  /** Total proceeds of selling the rarities `rs` of `inv`, in the order given. */
  function SaleValue(inv: Inventory, rs: seq<Rarity>): (total: int)
    ensures total >= 0
    ensures total == 0 <== forall i :: 0 <= i < |rs| ==> inv.Count(rs[i]) <= 0
  {
    if rs == [] then 0
    else SaleValue(inv, rs[..|rs| - 1]) + Proceeds(inv, rs[|rs| - 1])
  }

  /** Selling a whole inventory pays every fish at its price. */
  lemma {:induction false} SaleValueOfInventory(inv: Inventory)
    requires inv.Valid()
    ensures SaleValue(inv, RARITIES)
            == 10 * inv.common + 50 * inv.rare + 200 * inv.epic + 1000 * inv.legendary
  {
    var one, two, three := [Common], [Common, Rare], [Common, Rare, Epic];
    assert one[..0] == [] && two[..1] == one && three[..2] == two && RARITIES[..3] == three;
    assert SaleValue(inv, one) == 10 * inv.common;
    assert SaleValue(inv, two) == 10 * inv.common + 50 * inv.rare;
    assert SaleValue(inv, three) == 10 * inv.common + 50 * inv.rare + 200 * inv.epic;
  }

  /** A whole inventory sells for nothing exactly when it holds no fish. */
  lemma SaleValueZeroIffEmpty(inv: Inventory)
    requires inv.Valid()
    ensures SaleValue(inv, RARITIES) == 0 <==> inv == EMPTY_INVENTORY
  {
    SaleValueOfInventory(inv);
  }

  // ---------------------------------------------------------------------------
  // Buying upgrades

  datatype ShopError = NotEnoughMoney | MaxLevelReached

  /** Why buying the next level of `k` fails, if it does. Funds are checked before
      the level, so at the maximum level with too little money the answer is
      NotEnoughMoney. */
  function PurchaseError(money: int, level: int, k: UpgradeKind): (e: Option<ShopError>)
    ensures e == Some(NotEnoughMoney) <==> money < UpgradePrice(k, level)
    ensures e == Some(MaxLevelReached) <==> UpgradePrice(k, level) <= money && MAX_LEVEL <= level
    ensures e == None <==> UpgradePrice(k, level) <= money && level < MAX_LEVEL
  {
    if money < UpgradePrice(k, level) then Some(NotEnoughMoney)
    else if level >= MAX_LEVEL then Some(MaxLevelReached)
    else None
  }

  /** Nothing can be bought at the maximum level, whatever the funds. */
  lemma MaxLevelNeverUpgrades(money: int, k: UpgradeKind)
    ensures PurchaseError(money, MAX_LEVEL, k).Some?
  {
  }
}
