/**
 The inventory ledger of the food bank: a single-writer state machine that
 stores perishable-goods records under densely allocated ids, lets anyone add
 a record, and lets only the administrator change a stored record.
 */
module InventoryContract {

  /** An absent-or-present value, used for lookups that may miss. */
  datatype Option<+T> = None | Some(value: T)

  /** The two ways a mutating call can be refused. */
  datatype Error = Unauthorized | NotFound

  /** The reply of a mutating call: a value, or the reason it was refused. */
  datatype Result<+T> = Ok(value: T) | Err(error: Error)

  /** A caller or administrator identity; only compared for equality. */
  type Principal = string

  /** One stored record. `expirationDate` and `donationId` are never inspected. */
  datatype Item = Item(
    foodType: string,
    quantity: int,
    expirationDate: int,
    donationId: int,
    available: bool)

  /** The whole state of the ledger, as a value. */
  datatype State = State(inventoryCount: int, inventory: map<int, Item>, admin: Principal)

  /** A new state together with the reply the call hands back. */
  datatype Transition<+T> = Transition(next: State, reply: T)

  /** The numeric code under which each error is reported to callers. */
  function ErrorCode(e: Error): (code: int)
    ensures code == 100 <==> e == Unauthorized
    ensures code == 102 <==> e == NotFound
  {
    match e
    case Unauthorized => 100
    case NotFound => 102
  }

  /** The state of a freshly reset ledger administered by `admin`. */
  function Init(admin: Principal): (r: State)
    ensures Dense(r) && |r.inventory| == 0 && r.admin == admin
  {
    State(0, map[], admin)
  }

  /** Ids are dense: the stored keys are exactly 1 .. inventoryCount. */
  ghost predicate Dense(s: State)
  {
    && s.inventoryCount >= 0
    && forall id :: id in s.inventory <==> 1 <= id <= s.inventoryCount
  }

  /** Specification of addInventoryItem: allocate the next id and store an available record. */
  function AddStep(s: State, foodType: string, quantity: int, expirationDate: int,
                   donationId: int, sender: Principal): (r: Transition<int>)
    ensures r.reply == s.inventoryCount + 1 && r.next.inventoryCount == r.reply
    ensures r.next.admin == s.admin
    ensures r.next.inventory.Keys == s.inventory.Keys + {r.reply}
    ensures r.next.inventory[r.reply] == Item(foodType, quantity, expirationDate, donationId, true)
    ensures forall id :: id in s.inventory && id != r.reply ==> r.next.inventory[id] == s.inventory[id]
  {
    var itemId := s.inventoryCount + 1;
    var item := Item(foodType, quantity, expirationDate, donationId, true);
    Transition(s.(inventory := s.inventory[itemId := item], inventoryCount := itemId), itemId)
  }

  /** Specification of updateQuantity: authorization, then existence, then the change. */
  function UpdateQuantityStep(s: State, itemId: int, newQuantity: int, sender: Principal): (r: Transition<Result<bool>>)
    ensures sender != s.admin ==> r.reply == Err(Unauthorized)
    ensures sender == s.admin && itemId !in s.inventory ==> r.reply == Err(NotFound)
    ensures r.reply.Ok? <==> sender == s.admin && itemId in s.inventory
    ensures r.reply.Err? ==> r.next == s
    ensures r.reply.Ok? ==> && r.reply.value
                            && r.next.inventoryCount == s.inventoryCount
                            && r.next.admin == s.admin
                            && r.next.inventory.Keys == s.inventory.Keys
                            && r.next.inventory[itemId] == s.inventory[itemId].(quantity := newQuantity)
    ensures forall id :: id in s.inventory && id != itemId ==> r.next.inventory[id] == s.inventory[id]
  {
    if sender != s.admin then Transition(s, Err(Unauthorized))
    else if itemId !in s.inventory then Transition(s, Err(NotFound))
    else
      var item := s.inventory[itemId].(quantity := newQuantity);
      Transition(s.(inventory := s.inventory[itemId := item]), Ok(true))
  }

  /** Specification of markUnavailable: authorization, then existence, then the change. */
  function MarkUnavailableStep(s: State, itemId: int, sender: Principal): (r: Transition<Result<bool>>)
    ensures sender != s.admin ==> r.reply == Err(Unauthorized)
    ensures sender == s.admin && itemId !in s.inventory ==> r.reply == Err(NotFound)
    ensures r.reply.Ok? <==> sender == s.admin && itemId in s.inventory
    ensures r.reply.Err? ==> r.next == s
    ensures r.reply.Ok? ==> && r.reply.value
                            && r.next.inventoryCount == s.inventoryCount
                            && r.next.admin == s.admin
                            && r.next.inventory.Keys == s.inventory.Keys
                            && r.next.inventory[itemId] == s.inventory[itemId].(available := false)
    ensures forall id :: id in s.inventory && id != itemId ==> r.next.inventory[id] == s.inventory[id]
  {
    if sender != s.admin then Transition(s, Err(Unauthorized))
    else if itemId !in s.inventory then Transition(s, Err(NotFound))
    else
      var item := s.inventory[itemId].(available := false);
      Transition(s.(inventory := s.inventory[itemId := item]), Ok(true))
  }

  /** Specification of getInventoryItem: the stored record, or None when the id is not stored. */
  function ItemOf(s: State, itemId: int): (r: Option<Item>)
    ensures r.None? <==> itemId !in s.inventory
    ensures r.Some? ==> r.value == s.inventory[itemId]
  {
    if itemId in s.inventory then Some(s.inventory[itemId]) else None
  }

  /** A set of ids that is exactly 1 .. n has n elements. */
  lemma {:induction false} IdRangeSize(ids: set<int>, n: nat)
    requires forall id :: id in ids <==> 1 <= id <= n
    ensures |ids| == n
  {
    if n > 0 {
      IdRangeSize(ids - {n}, n - 1);
    } else {
      assert forall id :: id !in ids;
      assert ids == {};
    }
  }

  /** In a dense ledger the counter is the number of stored items. */
  lemma CountIsSize(s: State)
    ensures Dense(s) ==> |s.inventory| == s.inventoryCount
  {
    if Dense(s) {
      IdRangeSize(s.inventory.Keys, s.inventoryCount);
    }
  }

  /** Adding to a dense ledger uses an id not yet taken and keeps the ledger dense. */
  lemma AddStepKeepsDense(s: State, foodType: string, quantity: int, expirationDate: int,
                          donationId: int, sender: Principal)
    requires Dense(s)
    ensures var t := AddStep(s, foodType, quantity, expirationDate, donationId, sender);
            && t.reply !in s.inventory
            && Dense(t.next)
  {
  }

  /** updateQuantity never adds or removes a key, so it keeps the ledger dense. */
  lemma UpdateQuantityKeepsKeys(s: State, itemId: int, newQuantity: int, sender: Principal)
    ensures UpdateQuantityStep(s, itemId, newQuantity, sender).next.inventory.Keys == s.inventory.Keys
    ensures Dense(s) ==> Dense(UpdateQuantityStep(s, itemId, newQuantity, sender).next)
  {
  }

  /** markUnavailable never adds or removes a key, so it keeps the ledger dense. */
  lemma MarkUnavailableKeepsKeys(s: State, itemId: int, sender: Principal)
    ensures MarkUnavailableStep(s, itemId, sender).next.inventory.Keys == s.inventory.Keys
    ensures Dense(s) ==> Dense(MarkUnavailableStep(s, itemId, sender).next)
  {
  }

  /**
   A caller who is not the administrator learns nothing about which ids exist:
   both mutators answer Unauthorized for every id and change nothing.
   */
  lemma NonAdminCannotProbe(s: State, id1: int, id2: int, q1: int, q2: int, sender: Principal)
    requires sender != s.admin
    ensures UpdateQuantityStep(s, id1, q1, sender) == UpdateQuantityStep(s, id2, q2, sender)
                                                  == Transition(s, Err(Unauthorized))
    ensures MarkUnavailableStep(s, id1, sender) == MarkUnavailableStep(s, id2, sender)
                                             == Transition(s, Err(Unauthorized))
  {
  }

  /**
   A repeated markUnavailable, by anyone, gives the same reply and the same
   state as the first one.
   */
  lemma MarkUnavailableIdempotent(s: State, itemId: int, sender: Principal)
    ensures var t := MarkUnavailableStep(s, itemId, sender);
            MarkUnavailableStep(t.next, itemId, sender) == t
  {
  }

  /**
   The ledger object. Its fields are those of the source's `state` record;
   `admin` is fixed when the ledger is constructed.
   */
  class Ledger {
    var inventoryCount: int
    var inventory: map<int, Item>
    const admin: Principal

    /** The current state as a value. */
    function Snapshot(): State
      reads this
    {
      State(inventoryCount, inventory, admin)
    }

    /** The ledger invariant: ids are dense. */
    ghost predicate Valid()
      reads this
    {
      Dense(Snapshot())
    }

    /** A reset ledger: no items, counter 0, the given administrator. */
    constructor (admin: Principal)
      ensures Valid()
      ensures Snapshot() == Init(admin)
    {
      this.inventoryCount := 0;
      this.inventory := map[];
      this.admin := admin;
    }

    /**
     Stores a new available record under the next id and returns that id.
     Anyone may call it; `sender` does not influence the outcome.
     */
    method AddInventoryItem(foodType: string, quantity: int, expirationDate: int,
                            donationId: int, sender: Principal) returns (itemId: int)
      requires Valid()
      modifies this
      ensures Valid()
      ensures Transition(Snapshot(), itemId)
              == AddStep(old(Snapshot()), foodType, quantity, expirationDate, donationId, sender)
      ensures itemId == old(inventoryCount) + 1 && inventoryCount == itemId
      ensures itemId !in old(inventory)
      ensures inventory == old(inventory)[itemId := Item(foodType, quantity, expirationDate, donationId, true)]
    {
      AddStepKeepsDense(Snapshot(), foodType, quantity, expirationDate, donationId, sender);
      itemId := inventoryCount + 1;
      inventory := inventory[itemId := Item(foodType, quantity, expirationDate, donationId, true)];
      inventoryCount := itemId;
    }

    /**
     Replaces the quantity of a stored record. Only the administrator may, and
     the authorization check comes before the existence check.
     */
    method UpdateQuantity(itemId: int, newQuantity: int, sender: Principal) returns (r: Result<bool>)
      requires Valid()
      modifies this
      ensures Valid()
      ensures Transition(Snapshot(), r) == UpdateQuantityStep(old(Snapshot()), itemId, newQuantity, sender)
      ensures sender != admin ==> r == Err(Unauthorized) && Snapshot() == old(Snapshot())
      ensures sender == admin && itemId !in old(inventory) ==> r == Err(NotFound) && Snapshot() == old(Snapshot())
      ensures r.Ok? <==> sender == admin && itemId in old(inventory)
      ensures r.Ok? ==> && r.value
                        && inventoryCount == old(inventoryCount)
                        && inventory == old(inventory)[itemId := old(inventory)[itemId].(quantity := newQuantity)]
    {
      if sender != admin {
        return Err(Unauthorized);
      }
      if itemId !in inventory {
        return Err(NotFound);
      }
      var item := inventory[itemId];
      inventory := inventory[itemId := item.(quantity := newQuantity)];
      r := Ok(true);
    }

    /**
     Marks a stored record unavailable. Only the administrator may, the
     authorization check comes first, and marking an unavailable record again
     still succeeds.
     */
    method MarkUnavailable(itemId: int, sender: Principal) returns (r: Result<bool>)
      requires Valid()
      modifies this
      ensures Valid()
      ensures Transition(Snapshot(), r) == MarkUnavailableStep(old(Snapshot()), itemId, sender)
      ensures sender != admin ==> r == Err(Unauthorized) && Snapshot() == old(Snapshot())
      ensures sender == admin && itemId !in old(inventory) ==> r == Err(NotFound) && Snapshot() == old(Snapshot())
      ensures r.Ok? <==> sender == admin && itemId in old(inventory)
      ensures r.Ok? ==> && r.value
                        && inventoryCount == old(inventoryCount)
                        && inventory == old(inventory)[itemId := old(inventory)[itemId].(available := false)]
    {
      if sender != admin {
        return Err(Unauthorized);
      }
      if itemId !in inventory {
        return Err(NotFound);
      }
      var item := inventory[itemId];
      inventory := inventory[itemId := item.(available := false)];
      r := Ok(true);
    }

    /** The stored record, or None exactly when no record has that id. */
    function GetInventoryItem(itemId: int): (r: Option<Item>)
      reads this
      ensures r == ItemOf(Snapshot(), itemId)
      ensures r.None? <==> itemId !in inventory
      ensures r.Some? ==> r.value == inventory[itemId]
    {
      if itemId in inventory then Some(inventory[itemId]) else None
    }

    /** The counter, which in a valid ledger is the number of stored items. */
    function GetInventoryCount(): (count: int)
      reads this
      ensures count == inventoryCount
      ensures Valid() ==> count == |inventory|
    {
      CountIsSize(Snapshot());
      inventoryCount
    }
  }
}
