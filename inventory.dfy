/** The inventory view: a fixed list of alloy stocks (the list is never
    updated, and its +/- buttons have no handlers), each classified as
    critical / low / high / normal, with the total stock value and the
    critical and low counts. */
module Inventory {
  import opened Common

  /** An inventory item; its last restock date is not modelled. */
  datatype InventoryItem = InventoryItem(
    id: string,
    name: string,
    currentStock: real,
    minThreshold: real,
    maxCapacity: real,
    unit: string,
    costPerUnit: real,
    supplier: string,
    usage24h: real,
    estimatedDaysLeft: int)

  function SeedInventory(): seq<InventoryItem> {
    [ InventoryItem("1", "FeSi 75%", 250.0, 100.0, 500.0, "kg", 14.80, "Alloy Corp", 12.5, 20),
      InventoryItem("2", "Mn Metal", 45.0, 50.0, 200.0, "kg", 18.50, "Manganese Ltd", 3.2, 14),
      InventoryItem("3", "FeCr LC", 180.0, 80.0, 300.0, "kg", 22.30, "Chrome Solutions", 8.7, 21),
      InventoryItem("4", "SiC (Silicon Carbide)", 25.0, 30.0, 100.0, "kg", 35.60, "Silicon Tech", 2.1, 12),
      InventoryItem("5", "Al Wire", 320.0, 150.0, 500.0, "kg", 8.90, "Aluminum Co", 15.2, 21) ]
  }

  datatype StockStatus = Critical | Low | High | Normal

  /** `stock / capacity * 100 <= 30` as JavaScript evaluates it: with a zero
      capacity the percentage is -Infinity (true), NaN or +Infinity (false). */
  predicate PercentAtMost30(stock: real, capacity: real) {
    if capacity == 0.0 then stock < 0.0 else stock / capacity * 100.0 <= 30.0
  }

  /** `stock / capacity * 100 >= 80` likewise: only +Infinity passes at zero capacity. */
  predicate PercentAtLeast80(stock: real, capacity: real) {
    if capacity == 0.0 then stock > 0.0 else stock / capacity * 100.0 >= 80.0
  }

  /** getStockStatus: the threshold check comes first, then the percentage
      of capacity, low before high. */
  function GetStockStatus(item: InventoryItem): (s: StockStatus)
    ensures s == Critical <==> item.currentStock <= item.minThreshold
    ensures s == Low <==>
      item.currentStock > item.minThreshold &&
      PercentAtMost30(item.currentStock, item.maxCapacity)
    ensures s == High <==>
      item.currentStock > item.minThreshold &&
      !PercentAtMost30(item.currentStock, item.maxCapacity) &&
      PercentAtLeast80(item.currentStock, item.maxCapacity)
  {
    if item.currentStock <= item.minThreshold then Critical
    else if PercentAtMost30(item.currentStock, item.maxCapacity) then Low
    else if PercentAtLeast80(item.currentStock, item.maxCapacity) then High
    else Normal
  }

  /** For a positive capacity the status is decided by the stock's fraction of
      capacity: low up to 3/10, high from 4/5, normal strictly between. */
  lemma StockStatusByFraction(item: InventoryItem)
    requires item.maxCapacity > 0.0
    ensures GetStockStatus(item) == Low <==>
      item.currentStock > item.minThreshold && 10.0 * item.currentStock <= 3.0 * item.maxCapacity
    ensures GetStockStatus(item) == High <==>
      item.currentStock > item.minThreshold && 10.0 * item.currentStock > 3.0 * item.maxCapacity &&
      5.0 * item.currentStock >= 4.0 * item.maxCapacity
    ensures GetStockStatus(item) == Normal <==>
      item.currentStock > item.minThreshold &&
      3.0 * item.maxCapacity < 10.0 * item.currentStock < 8.0 * item.maxCapacity
  {
    var c := item.maxCapacity;
    var st := item.currentStock;
    var q := st / c;
    assert q * c == st;
    PositiveScaleSign(10.0 * q - 3.0, c);
    assert (10.0 * q - 3.0) * c == 10.0 * st - 3.0 * c;
    PositiveScaleSign(5.0 * q - 4.0, c);
    assert (5.0 * q - 4.0) * c == 5.0 * st - 4.0 * c;
  }

  /** A stock at or below its threshold is critical whatever its capacity,
      even one with no capacity at all. */
  lemma CriticalTakesPrecedence(item: InventoryItem)
    requires item.currentStock <= item.minThreshold
    ensures GetStockStatus(item) == Critical
    ensures GetStockStatus(item.(maxCapacity := 0.0)) == Critical
  {
  }

  datatype BadgeVariant = Destructive | Secondary | Default

  /** getStatusBadgeVariant: critical is destructive, low secondary, the rest default. */
  function GetStatusBadgeVariant(s: StockStatus): (v: BadgeVariant)
    ensures v == Destructive <==> s == Critical
    ensures v == Secondary <==> s == Low
    ensures v == Default <==> s == High || s == Normal
  {
    match s
    case Critical => Destructive
    case Low => Secondary
    case _ => Default
  }

  function StockValues(items: seq<InventoryItem>): seq<real> {
    seq(|items|, i requires 0 <= i < |items| => items[i].currentStock * items[i].costPerUnit)
  }

  /** totalInventoryValue: the sum of stock times unit cost. */
  function TotalInventoryValue(items: seq<InventoryItem>): (total: real)
    ensures items == [] ==> total == 0.0
  {
    Sum(StockValues(items))
  }

  /** With nonnegative stocks and costs the total is nonnegative. */
  lemma TotalValueNonnegative(items: seq<InventoryItem>)
    requires forall i :: 0 <= i < |items| ==> items[i].currentStock >= 0.0 && items[i].costPerUnit >= 0.0
    ensures TotalInventoryValue(items) >= 0.0
  {
    var v := StockValues(items);
    forall i | 0 <= i < |v|
      ensures 0.0 <= v[i]
    {
      assert v[i] == items[i].currentStock * items[i].costPerUnit;
    }
    SumAtLeast(v, 0.0);
  }

  function IsCritical(items: seq<InventoryItem>): seq<bool> {
    seq(|items|, i requires 0 <= i < |items| => GetStockStatus(items[i]) == Critical)
  }

  function IsLow(items: seq<InventoryItem>): seq<bool> {
    seq(|items|, i requires 0 <= i < |items| => GetStockStatus(items[i]) == Low)
  }

  /** criticalItems: the items whose stock reads critical; none exactly when no item does. */
  function CriticalItems(items: seq<InventoryItem>): (n: nat)
    ensures n <= |items|
    ensures n == 0 <==> forall i :: 0 <= i < |items| ==> GetStockStatus(items[i]) != Critical
  {
    var flags := IsCritical(items);
    assert forall i :: 0 <= i < |items| ==> (flags[i] <==> GetStockStatus(items[i]) == Critical);
    CountTrueAtMostLength(flags);
    CountTrueNone(flags);
    CountTrue(flags)
  }

  /** lowStockItems: the items whose stock reads low; none exactly when no item does. */
  function LowStockItems(items: seq<InventoryItem>): (n: nat)
    ensures n <= |items|
    ensures n == 0 <==> forall i :: 0 <= i < |items| ==> GetStockStatus(items[i]) != Low
  {
    var flags := IsLow(items);
    assert forall i :: 0 <= i < |items| ==> (flags[i] <==> GetStockStatus(items[i]) == Low);
    CountTrueAtMostLength(flags);
    CountTrueNone(flags);
    CountTrue(flags)
  }

  /** No item is counted both critical and low. */
  lemma CountsDisjoint(items: seq<InventoryItem>)
    ensures CriticalItems(items) + LowStockItems(items) <= |items|
  {
    CountTrueDisjoint(IsCritical(items), IsLow(items));
  }

  /** The seed stock: Mn Metal and SiC are critical, nothing is low, and the
      stock is worth 12284.5. */
  lemma SeedSummary()
    ensures CriticalItems(SeedInventory()) == 2
    ensures LowStockItems(SeedInventory()) == 0
    ensures TotalInventoryValue(SeedInventory()) == 12284.5
  {
    var inv := SeedInventory();
    StockStatusByFraction(inv[0]);
    StockStatusByFraction(inv[2]);
    StockStatusByFraction(inv[4]);
    var c := IsCritical(inv);
    assert c == [false, true, false, true, false];
    assert CountTrue(c[..1]) == 0 by { assert c[..1][..0] == []; }
    assert CountTrue(c[..2]) == 1 by { assert c[..2][..1] == c[..1]; }
    assert CountTrue(c[..3]) == 1 by { assert c[..3][..2] == c[..2]; }
    assert CountTrue(c[..4]) == 2 by { assert c[..4][..3] == c[..3]; }
    assert CountTrue(c) == 2 by { assert c[..4] == c[..|c| - 1]; }
    var l := IsLow(inv);
    CountTrueNone(l);
    var v := StockValues(inv);
    assert v == [3700.0, 832.5, 4014.0, 890.0, 2848.0];
    assert Sum(v[..1]) == 3700.0 by { assert v[..1][..0] == []; }
    assert Sum(v[..2]) == 4532.5 by { assert v[..2][..1] == v[..1]; }
    assert Sum(v[..3]) == 8546.5 by { assert v[..3][..2] == v[..2]; }
    assert Sum(v[..4]) == 9436.5 by { assert v[..4][..3] == v[..3]; }
    assert Sum(v) == 12284.5 by { assert v[..4] == v[..|v| - 1]; }
  }
}
