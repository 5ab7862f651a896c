/**
 The five scenarios that exercise the ledger, each run on a freshly reset
 ledger. Each item is stocked as "Canned Goods", quantity 100, donation 1,
 expiring at `expiry`, which the ledger never inspects.
 */
module InventoryScenarios {
  import opened InventoryContract

  /** Adding to a reset ledger yields id 1, a count of 1 and an available record. */
  method AddsInventoryItem(admin: Principal, expiry: int)
    returns (itemId: int, count: int, item: Option<Item>)
    ensures itemId == 1 && count == 1
    ensures item == Some(Item("Canned Goods", 100, expiry, 1, true))
  {
    var ledger := new Ledger(admin);
    itemId := ledger.AddInventoryItem("Canned Goods", 100, expiry, 1, admin);
    count := ledger.GetInventoryCount();
    item := ledger.GetInventoryItem(1);
  }

  /** The administrator changes the quantity of item 1 from 100 to 75. */
  method AdminUpdatesQuantity(admin: Principal, expiry: int)
    returns (r: Result<bool>, item: Option<Item>)
    ensures r == Ok(true)
    ensures item.Some? && item.value.quantity == 75
  {
    var ledger := new Ledger(admin);
    var _ := ledger.AddInventoryItem("Canned Goods", 100, expiry, 1, admin);
    r := ledger.UpdateQuantity(1, 75, admin);
    item := ledger.GetInventoryItem(1);
  }

  /** Another caller is refused with code 100 and the quantity stays 100. */
  method NonAdminCannotUpdateQuantity(admin: Principal, nonAdmin: Principal, expiry: int)
    returns (r: Result<bool>, item: Option<Item>)
    requires nonAdmin != admin
    ensures r.Err? && ErrorCode(r.error) == 100
    ensures item.Some? && item.value.quantity == 100
  {
    var ledger := new Ledger(admin);
    var _ := ledger.AddInventoryItem("Canned Goods", 100, expiry, 1, admin);
    r := ledger.UpdateQuantity(1, 75, nonAdmin);
    item := ledger.GetInventoryItem(1);
  }

  /** The administrator marks item 1 unavailable. */
  method AdminMarksUnavailable(admin: Principal, expiry: int)
    returns (r: Result<bool>, item: Option<Item>)
    ensures r == Ok(true)
    ensures item.Some? && !item.value.available
  {
    var ledger := new Ledger(admin);
    var _ := ledger.AddInventoryItem("Canned Goods", 100, expiry, 1, admin);
    r := ledger.MarkUnavailable(1, admin);
    item := ledger.GetInventoryItem(1);
  }

  /** Another caller is refused with code 100 and item 1 stays available. */
  method NonAdminCannotMarkUnavailable(admin: Principal, nonAdmin: Principal, expiry: int)
    returns (r: Result<bool>, item: Option<Item>)
    requires nonAdmin != admin
    ensures r.Err? && ErrorCode(r.error) == 100
    ensures item.Some? && item.value.available
  {
    var ledger := new Ledger(admin);
    var _ := ledger.AddInventoryItem("Canned Goods", 100, expiry, 1, admin);
    r := ledger.MarkUnavailable(1, nonAdmin);
    item := ledger.GetInventoryItem(1);
  }
}
