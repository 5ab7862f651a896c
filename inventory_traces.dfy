/**
 Sequences of calls on the ledger. Every call is applied atomically, one after
 another; these lemmas state what holds after any such sequence.
 */
module InventoryTraces {
  import opened InventoryContract

  /** One call of the ledger's call surface, with its arguments. */
  datatype Call =
    | AddCall(foodType: string, quantity: int, expirationDate: int, donationId: int, sender: Principal)
    | UpdateCall(itemId: int, newQuantity: int, sender: Principal)
    | MarkCall(itemId: int, sender: Principal)
    | ItemQuery(itemId: int)
    | CountQuery

  /** The state after one call; the two queries leave it as it is. */
  function Apply(s: State, c: Call): State
  {
    match c
    case AddCall(f, q, e, d, sender) => AddStep(s, f, q, e, d, sender).next
    case UpdateCall(id, q, sender) => UpdateQuantityStep(s, id, q, sender).next
    case MarkCall(id, sender) => MarkUnavailableStep(s, id, sender).next
    case ItemQuery(_) => s
    case CountQuery => s
  }

  /** The state after the calls, applied first to last. */
  function Run(s: State, calls: seq<Call>): State
    decreases |calls|
  {
    if calls == [] then s else Apply(Run(s, calls[..|calls| - 1]), calls[|calls| - 1])
  }

  /** How many of the calls create an item. */
  function Adds(calls: seq<Call>): nat
    decreases |calls|
  {
    if calls == [] then 0
    else Adds(calls[..|calls| - 1]) + (if calls[|calls| - 1].AddCall? then 1 else 0)
  }

  /** No mutator in the calls is issued by `admin`. */
  predicate NoMutationBy(calls: seq<Call>, admin: Principal)
  {
    forall i :: 0 <= i < |calls| && (calls[i].UpdateCall? || calls[i].MarkCall?) ==> calls[i].sender != admin
  }

  /** Every call keeps the ledger dense. */
  lemma ApplyKeepsDense(s: State, c: Call)
    requires Dense(s)
    ensures Dense(Apply(s, c))
  {
    match c
    case AddCall(f, q, e, d, sender) => AddStepKeepsDense(s, f, q, e, d, sender);
    case UpdateCall(id, q, sender) => UpdateQuantityKeepsKeys(s, id, q, sender);
    case MarkCall(id, sender) => MarkUnavailableKeepsKeys(s, id, sender);
    case ItemQuery(_) =>
    case CountQuery =>
  }

  /** Invariant: after any calls on a dense ledger, the keys are exactly 1 .. inventoryCount. */
  lemma {:induction false} RunKeepsDense(s: State, calls: seq<Call>)
    requires Dense(s)
    ensures Dense(Run(s, calls))
  {
    if calls != [] {
      RunKeepsDense(s, calls[..|calls| - 1]);
      ApplyKeepsDense(Run(s, calls[..|calls| - 1]), calls[|calls| - 1]);
    }
  }

  /**
   Nothing is ever removed and the administrator never changes: the counter
   only grows and every stored id stays stored.
   */
  lemma {:induction false} RunKeepsIds(s: State, calls: seq<Call>)
    ensures Run(s, calls).admin == s.admin
    ensures Run(s, calls).inventoryCount >= s.inventoryCount
    ensures s.inventory.Keys <= Run(s, calls).inventory.Keys
  {
    if calls != [] {
      var prefix := calls[..|calls| - 1];
      RunKeepsIds(s, prefix);
      var c := calls[|calls| - 1];
      if c.UpdateCall? {
        UpdateQuantityKeepsKeys(Run(s, prefix), c.itemId, c.newQuantity, c.sender);
      } else if c.MarkCall? {
        MarkUnavailableKeepsKeys(Run(s, prefix), c.itemId, c.sender);
      }
    }
  }

  /** The counter advances by exactly the number of creations. */
  lemma {:induction false} RunCountsAdds(s: State, calls: seq<Call>)
    ensures Run(s, calls).inventoryCount == s.inventoryCount + Adds(calls)
  {
    if calls != [] {
      RunCountsAdds(s, calls[..|calls| - 1]);
    }
  }

  /**
   On a reset ledger the k-th call, when it is a creation, receives the id
   that equals the number of creations so far (itself included); so the first
   item gets id 1, and the counter always equals the number of creations.
   */
  lemma {:induction false} KthAddGetsK(admin: Principal, calls: seq<Call>, k: nat)
    requires k < |calls| && calls[k].AddCall?
    ensures var before := Run(Init(admin), calls[..k]);
            var c := calls[k];
            && AddStep(before, c.foodType, c.quantity, c.expirationDate, c.donationId, c.sender).reply
               == Adds(calls[..k + 1])
            && Run(Init(admin), calls).inventoryCount == Adds(calls)
  {
    RunCountsAdds(Init(admin), calls[..k]);
    RunCountsAdds(Init(admin), calls);
    assert calls[..k + 1][..k] == calls[..k];
  }

  /**
   Availability is one-way: once an item of a dense ledger is unavailable, it
   stays stored and unavailable after any further calls.
   */
  lemma {:induction false} RunKeepsUnavailable(s: State, calls: seq<Call>, id: int)
    requires Dense(s)
    requires id in s.inventory && !s.inventory[id].available
    ensures id in Run(s, calls).inventory && !Run(s, calls).inventory[id].available
  {
    if calls != [] {
      var prefix := calls[..|calls| - 1];
      RunKeepsUnavailable(s, prefix, id);
      RunKeepsDense(s, prefix);
      var c := calls[|calls| - 1];
      if c.AddCall? {
        AddStepKeepsDense(Run(s, prefix), c.foodType, c.quantity, c.expirationDate, c.donationId, c.sender);
      }
    }
  }

  /**
   When no mutator is issued by the administrator, every item already stored
   in a dense ledger keeps exactly its record; creations only add new ids.
   */
  lemma {:induction false} NonAdminCannotChangeItems(s: State, calls: seq<Call>, id: int)
    requires Dense(s) && NoMutationBy(calls, s.admin)
    requires id in s.inventory
    ensures id in Run(s, calls).inventory && Run(s, calls).inventory[id] == s.inventory[id]
  {
    if calls != [] {
      var prefix := calls[..|calls| - 1];
      assert NoMutationBy(prefix, s.admin) by {
        forall i | 0 <= i < |prefix| ensures prefix[i] == calls[i] { }
      }
      NonAdminCannotChangeItems(s, prefix, id);
      RunKeepsDense(s, prefix);
      RunKeepsIds(s, prefix);
      var c := calls[|calls| - 1];
      if c.AddCall? {
        AddStepKeepsDense(Run(s, prefix), c.foodType, c.quantity, c.expirationDate, c.donationId, c.sender);
      }
    }
  }

  /**
   After any calls on a reset ledger, getInventoryItem finds a record exactly
   for the ids 1 .. n, where n is the number of creations so far, and
   getInventoryCount answers n.
   */
  lemma {:induction false} QueriesAfterReset(admin: Principal, calls: seq<Call>, id: int)
    ensures ItemOf(Run(Init(admin), calls), id).Some? <==> 1 <= id <= Adds(calls)
    ensures Run(Init(admin), calls).inventoryCount == Adds(calls)
  {
    RunKeepsDense(Init(admin), calls);
    RunCountsAdds(Init(admin), calls);
  }
}
