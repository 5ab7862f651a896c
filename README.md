# Food bank inventory ledger, modelled in Dafny

The food bank's inventory ledger is a small state machine that stands in for
a Clarity contract. It has an item counter, a table of perishable-goods records
keyed by id, and one fixed administrator. Anyone may add a record. The ledger
gives it id `count + 1`, marks it available and advances the counter. Only the
administrator may change a stored record's quantity or mark it unavailable.
Both mutators check authorization (error 100) before existence (error 102).
Two reads return a record (or nothing) and the counter.

The project has three modules:

- `InventoryContract` (`inventory_contract.dfy`): the records, the two error
  kinds and their codes, and the ledger state as a value (`State`). It has one
  specification function per mutating call (`AddStep`, `UpdateQuantityStep`,
  `MarkUnavailableStep`) and the ledger invariant `Dense`: the keys are exactly
  `1 .. inventoryCount`. It also has the `Ledger` class. Its fields
  `inventoryCount`, `inventory` and `admin` are those of the source's `state`
  object. Its methods update them in place. Each method's postcondition states
  the whole new state and the reply, and ties both to the specification
  function. The class invariant `Valid()` is `Dense` of the current state. The
  constructor establishes it and every method keeps it, so every ledger built
  by the constructor and changed only through its methods satisfies the
  methods' `requires Valid()`.
- `InventoryTraces` (`inventory_traces.dfy`): arbitrary sequences of calls
  (`Run`), and what holds after any of them. Density is preserved. Ids are
  never removed. The counter equals the number of creations, and the k-th
  creation gets id k. Unavailability is permanent. Calls by non-administrators
  change no stored record. On a reset ledger, a lookup finds a record exactly
  for the ids 1 .. n, where n is the number of creations. The two reads are
  `reads this` functions of the class, so they cannot change the state.
- `InventoryScenarios` (`inventory_scenarios.dfy`): the five test scenarios,
  each on a freshly constructed ledger.

Caller and administrator identities are opaque strings, compared only for
equality. `expirationDate` and `donationId` are plain integers that the ledger
stores but never inspects. The source's `{ value: … }` / `{ error: code }`
replies are `Result<bool>` values, with `ErrorCode` giving the numeric code.
`addInventoryItem` always succeeds and returns the id. A missing record is
`None`, not `null`.

The source validates none of its inputs, so the model takes any `int` for the
quantity, the date and the donation id.

## Model

| member | source | states |
|---|---|---|
| `InventoryContract.ErrorCode` | tests/inventory-management.test.ts:27-33 | Unauthorized is reported as code 100 and NotFound as code 102, and no other error has either code |
| `InventoryContract.Init` | tests/inventory-management.test.ts:5-9 | the reset state has counter 0, no items and the given administrator, and is dense; the Ledger constructor is proved to produce exactly this state |
| `InventoryContract.AddStep` | tests/inventory-management.test.ts:11-24 | returns the old counter plus 1 and sets the counter to it, adds exactly that key, stores the given fields with available = true under it, and leaves the administrator and every other record unchanged; `Ledger.AddInventoryItem` is proved equal to it |
| `InventoryContract.UpdateQuantityStep` | tests/inventory-management.test.ts:26-40 | a non-admin gets Unauthorized whether or not the id exists; an admin gets NotFound for a missing id; any error leaves the state unchanged; it succeeds exactly for an admin and a stored id, replies true, and changes only that record's quantity; `Ledger.UpdateQuantity` is proved equal to it |
| `InventoryContract.MarkUnavailableStep` | tests/inventory-management.test.ts:42-56 | same gating and error order as updateQuantity; on success it replies true and changes only that record's available flag, to false; `Ledger.MarkUnavailable` is proved equal to it |
| `InventoryContract.ItemOf` | tests/inventory-management.test.ts:58-60 | the lookup gives None exactly when the id is not stored, and otherwise the stored record |
| `InventoryContract.CountIsSize` | tests/inventory-management.test.ts:12-22 | in a ledger whose keys are exactly 1..count, the counter equals the number of stored items |
| `InventoryContract.AddStepKeepsDense` | tests/inventory-management.test.ts:11-24 | on a dense ledger, a creation takes an id that is not yet stored and leaves the keys exactly 1..count |
| `InventoryContract.UpdateQuantityKeepsKeys` | tests/inventory-management.test.ts:26-40 | updateQuantity never adds or removes a key, so it keeps the ledger dense |
| `InventoryContract.MarkUnavailableKeepsKeys` | tests/inventory-management.test.ts:42-56 | markUnavailable never adds or removes a key, so it keeps the ledger dense |
| `InventoryContract.NonAdminCannotProbe` | tests/inventory-management.test.ts:26-49 | for a non-admin caller, both mutators give Unauthorized and leave the state unchanged, whatever the id and quantity, so the reply does not reveal whether an id exists |
| `InventoryContract.MarkUnavailableIdempotent` | tests/inventory-management.test.ts:42-56 | repeating markUnavailable with the same arguments gives the same reply and the same state as the first call, for any caller |
| `InventoryContract.Ledger.constructor` | tests/inventory-management.test.ts:5-9 | a new ledger has counter 0, no items and the given administrator, and satisfies the invariant |
| `InventoryContract.Ledger.AddInventoryItem` | tests/inventory-management.test.ts:11-24 | returns the old counter plus 1, sets the counter to it, stores exactly the given fields with available = true under that previously unused id, and changes no other entry; keeps the invariant |
| `InventoryContract.Ledger.UpdateQuantity` | tests/inventory-management.test.ts:26-40 | non-admin: Unauthorized with no change (even for a missing id); admin and missing id: NotFound with no change; otherwise Ok(true), only that item's quantity replaced, counter untouched; keeps the invariant |
| `InventoryContract.Ledger.MarkUnavailable` | tests/inventory-management.test.ts:42-56 | non-admin: Unauthorized with no change; admin and missing id: NotFound with no change; otherwise Ok(true), only that item's available set to false, counter untouched; keeps the invariant |
| `InventoryContract.Ledger.GetInventoryItem` | tests/inventory-management.test.ts:58-60 | equals `ItemOf` of the current state: None exactly when the id is not stored, and otherwise the stored record; a `reads this` function, so it changes nothing |
| `InventoryContract.Ledger.GetInventoryCount` | tests/inventory-management.test.ts:62-64 | returns the counter, which in a valid ledger is the number of stored items; a `reads this` function, so it changes nothing |
| `InventoryTraces.ApplyKeepsDense` | tests/inventory-management.test.ts:11-64 | every single call (creation, either mutator, either read) keeps the keys exactly 1..count |
| `InventoryTraces.RunKeepsDense` | tests/inventory-management.test.ts:11-64 | after any sequence of calls on a dense ledger, the keys are still exactly 1..count |
| `InventoryTraces.RunKeepsIds` | tests/inventory-management.test.ts:11-64 | after any sequence of calls, the administrator is the same, the counter is not smaller and every id stored before is still stored |
| `InventoryTraces.RunCountsAdds` | tests/inventory-management.test.ts:12-22 | after any sequence of calls, the counter has advanced by exactly the number of creations in it |
| `InventoryTraces.KthAddGetsK` | tests/inventory-management.test.ts:11-24 | on a reset ledger, the k-th creation returns the number of creations up to and including it, and the final counter equals the number of creations |
| `InventoryTraces.RunKeepsUnavailable` | tests/inventory-management.test.ts:11-56 | once an item of a dense ledger is unavailable, no sequence of calls removes it or makes it available again |
| `InventoryTraces.NonAdminCannotChangeItems` | tests/inventory-management.test.ts:11-56 | if no mutator in a sequence is issued by the administrator, every record stored in a dense ledger keeps exactly its fields |
| `InventoryTraces.QueriesAfterReset` | tests/inventory-management.test.ts:11-64 | after any sequence of calls on a reset ledger, getInventoryItem finds a record exactly for the ids 1..n, where n is the number of creations, and getInventoryCount answers n |
| `InventoryScenarios.AddsInventoryItem` | tests/inventory-management.test.ts:78-93 | on a reset ledger, adding "Canned Goods" x100 returns id 1, the count becomes 1, and item 1 holds those fields with available = true |
| `InventoryScenarios.AdminUpdatesQuantity` | tests/inventory-management.test.ts:95-107 | the administrator's update of item 1 to 75 returns Ok(true) and item 1's quantity becomes 75 |
| `InventoryScenarios.NonAdminCannotUpdateQuantity` | tests/inventory-management.test.ts:109-121 | a non-admin's update returns error code 100 and item 1's quantity stays 100 |
| `InventoryScenarios.AdminMarksUnavailable` | tests/inventory-management.test.ts:123-135 | the administrator's markUnavailable of item 1 returns Ok(true) and item 1 becomes unavailable |
| `InventoryScenarios.NonAdminCannotMarkUnavailable` | tests/inventory-management.test.ts:137-149 | a non-admin's markUnavailable returns error code 100 and item 1 stays available |

## Left out

- The test framework (`describe`, `it`, `expect`). The reset before each test (tests/inventory-management.test.ts:71-76) is modelled by constructing a fresh `Ledger` with the given administrator.
- The timestamps built with `Date.now()` and `Math.floor` (lines 79-80, 97, 111, 125 and 139), because they read the clock. The scenarios take the expiry as a parameter.
- The concrete address strings (lines 8 and 68-69). Identities are opaque strings compared for equality, and the scenarios take any two distinct ones.
- The `sender` argument of `addInventoryItem` is kept in the signature, but, as in the source, nothing depends on it.
- The source overwrites fields of the object it already stores and then stores the same object again. With JavaScript aliasing, any outside reference to that object sees the change too. The model stores immutable records and replaces them in the map, so it does not capture aliasing of records a caller obtained earlier.
- The `|| null` in `getInventoryItem`. A stored record is always an object, so this only turns a missed lookup into `null`; the model returns `None`.
- JavaScript numbers are modelled as unbounded integers. Ids near 2^53 lose precision in the source, and the model does not capture that.
