# GreenWave ticketing core in Dafny

A model of the core of the GreenWave event-ticketing system: the domain
records (`src/models.py`), the keyed store that holds them (`src/storage.py`)
and the business operations on top of it (`src/logic.py`).

- **Models** (`models.dfy`): attendees with their password digest and the
  ids of their tickets, reservations and payments. Also exhibitions, workshops
  with seat arithmetic, tickets with the guarded upgrade, reservations and
  payments. The password hash is a function-valued parameter. E-mail
  comparison lower-cases ASCII letters. Python's `list.remove` is `RemoveFirst`.
- **Dicts** (`dicts.dfy`): an insertion-ordered dictionary. It is used for the
  attendee and payment collections, which the core walks in order:
  - `find_attendee_by_email` returns the first match.
  - `daily_sales` iterates the payments.
- **Storage** (`storage.dfy`): the `Store` class holds the six collections.
  - `Valid()` states that every record is stored under its own id.
  - The constructor takes the collections read back from disk. It seeds the
    demo data (EX1..EX3, each with workshops WSi1..WSi3 of capacity 15, 20
    and 25) exactly when no workshops were loaded.
  - Adding or replacing a record is a method that updates one field.
  - `FindAttendeeByEmail`, `UpgradeTicket` and `DailySales` are proved against
    specification functions.
- **Logic** (`logic.dfy`):
  - `CreateAccount`, `SimulatePayment` and `PurchaseTicket`.
  - `ReserveWorkshop` and `CancelReservation`.
  - Each failure is an `Error` value returned before anything in the store
    changes.
  - Reserving and cancelling are described by the ghost functions
    `ReserveEffect` and `CancelEffect` on the store's collections. The
    reserve-then-cancel round trip and the seat-capacity invariant are lemmas
    about those functions.

The model keeps the behaviour of the code:
- Upgrading an all-access pass appends the id and charges.
- A pass for several distinct exhibitions charges 50 for every selection plus
  50 again for each exhibition after the first. For example, two distinct
  exhibitions cost 150.
- A reservation does not check that the ticket belongs to the attendee.
- Exhibition ids are not validated.
- Cancelling an already cancelled reservation succeeds again.

Fresh ids (`uuid4` in the source) and the current time are parameters of the
operations that need them.

## Model

| member | source | states |
|---|---|---|
| `Models.CheckPasswordOfNew` | src/models.py:10-24 | a new attendee starts with no tickets, reservations or payments, and the password it was created with passes `check_password` |
| `Models.CheckPasswordRefuses` | src/models.py:16-17 | a candidate whose digest differs from the stored one is refused |
| `Models.NewWorkshopHasAllSeatsFree` | src/models.py:36-46 | a new workshop has as many free seats as its capacity |
| `Models.AvailableSpots` | src/models.py:45-46 | free seats are never negative; they are capacity minus held seats while the workshop is not over-full, and 0 once it is full |
| `Models.UpgradeAddExhibition` | src/models.py:56-61 | the upgrade succeeds exactly when the id is not yet in the access list; then the id is appended and the extra price charged; otherwise the ticket is unchanged; afterwards the id is always in the list |
| `Models.UpgradeTwice` | src/models.py:56-61 | upgrading twice with the same exhibition charges only once: the second attempt is refused and leaves the ticket as the first left it |
| `Models.UpgradeKeepsNoDuplicates` | src/models.py:56-61 | an upgrade never puts a duplicate into the access list |
| `Models.ExhibitionPassGrantsOnlySelected` | src/models.py:63-67 | a new exhibition pass admits to the selected exhibition and no other, and re-adding that exhibition is refused |
| `Models.AllAccessGrantsEverything` | src/models.py:69-75 | an all-access pass (access list `["ALL"]`) admits to every exhibition |
| `Models.AllAccessUpgradeCharges` | src/models.py:56-75 | upgrading an all-access pass with an exhibition id still appends the id and charges the extra price |
| `Models.FirstIndex` | src/logic.py:76-77 | the position found holds the id, and no earlier position does |
| `Models.RemoveFirst` | src/logic.py:76-81 | `list.remove` guarded by membership: drops the first occurrence of the id and keeps the other elements in their order (length down by one, multiset minus the id); a list without the id is left unchanged |
| `Models.RemoveFirstOfAppended` | src/logic.py:65-81 | removing an id appended to a list that did not hold it gives back the original list |
| `Models.Lower` | src/storage.py:74 | lower-casing keeps the length and lower-cases each character |
| `Models.EmailMatchIgnoresCase` | src/storage.py:72-76 | matching an e-mail is the same test whatever the letter case of the query |
| `Dicts.Dict.Put` | src/storage.py:68-69 | `d[k] = v`: the map gets the new value; an existing key keeps its position; a new key goes last; the key order stays duplicate-free and covers exactly the map's keys |
| `Storage.Store.constructor` | src/storage.py:35-45 | the loaded attendees, tickets, payments and reservations are kept; non-empty loaded workshops are kept, with no exhibitions; with no workshops loaded, the store holds exactly the demo data; seats within capacity are preserved |
| `Storage.Store.SeedDemoData` | src/storage.py:47-58 | replaces the empty workshops and exhibitions by the demo data and changes nothing else |
| `Storage.Store.DemoData` | src/storage.py:47-58 | the demo data is built by the nested loops: workshop `WSij` belongs to `EXi`, has capacity 10+5j and no seats taken; `EXi` lists `[WSi1, WSi2, WSi3]`; nothing else is stored |
| `Storage.Store.SeedRow` | src/storage.py:49-58 | one pass of the outer seeding loop adds exhibition i and its three workshops to what earlier passes built |
| `Storage.DemoDataWithinCapacity` | src/storage.py:47-58 | the demo workshops are within capacity |
| `Storage.Store.AddAttendee` | src/storage.py:68-70 | stores the attendee under its user id; nothing else changes |
| `Storage.Store.AddTicket` | src/storage.py:78-80 | stores the ticket under its id; nothing else changes |
| `Storage.Store.AddPayment` | src/storage.py:82-84 | stores the payment under its id; nothing else changes |
| `Storage.Store.AddReservation` | src/storage.py:86-88 | stores the reservation under its id; nothing else changes |
| `Storage.Store.UpdateWorkshop` | src/storage.py:90-92 | stores the workshop under its id; nothing else changes |
| `Storage.Store.FindAttendeeByEmail` | src/storage.py:72-76 | returns nothing exactly when no stored attendee's e-mail matches ignoring case; otherwise returns the first matching attendee in insertion order |
| `Storage.Store.UpgradeTicket` | src/storage.py:94-102 | an unknown ticket gives false; a known ticket goes through the upgrade guard (default extra price 20); the result is whether it was granted, and the store changes only when it was |
| `Storage.Store.DailySales` | src/storage.py:104-110 | the report's keys are exactly the payment dates; each value is the sum of that date's payment amounts; the store is not modified |
| `Storage.DailySalesAddUp` | src/storage.py:104-110 | the report's values sum to the total of all payment amounts |
| `Logic.CreateAccount` | src/logic.py:9-15 | fails exactly when the e-mail is already registered in any letter case, changing nothing; otherwise stores a new attendee with the digest of the password, after which the e-mail counts as registered |
| `Logic.SimulatePayment` | src/logic.py:17-25 | records a payment of the ticket's price with the given method (default "Card") and appends its id to the owner's purchase history when the owner exists |
| `Logic.BuildExhibitionPass` | src/logic.py:35-37 | the pass bought for a selection lists the distinct selected exhibitions in first-occurrence order and costs 50 per selection plus 50 per further distinct exhibition |
| `Logic.ExhibitionPassAccess` | src/logic.py:32-37 | the pass lists each selected exhibition exactly once, the first selection first, and costs at least 50 per selection |
| `Logic.ExhibitionPassGrants` | src/logic.py:32-37 | unless "ALL" is selected, the pass admits to exactly the selected exhibitions |
| `Logic.TwoExhibitionPassPrice` | src/logic.py:35-37 | a pass for two distinct exhibitions costs 150 |
| `Logic.PurchaseTicket` | src/logic.py:27-46 | a missing attendee, an exhibition pass with no selection, or an unknown type fails, changing nothing; otherwise the ticket is stored, listed by the attendee, and paid by card at its price (all-access 150 with access `["ALL"]`) |
| `Logic.ReserveWorkshop` | src/logic.py:48-69 | errors in the source's order (attendee, ticket, workshop, no free seat, no access), each changing nothing; on success a confirmed reservation is stored, its id takes a seat and joins the attendee's list; one seat fewer is free and the workshop stays within capacity; seats within capacity is preserved |
| `Logic.CancelReservation` | src/logic.py:71-85 | fails exactly for an unknown id, changing nothing; otherwise frees the seat and drops the id from the attendee where present, marks the record cancelled and keeps it, so a second cancel succeeds too; seats within capacity is preserved |
| `Logic.ReserveThenCancelRestores` | tests/tests.py:29-32 | reserving with a new id and cancelling it gives back the workshop's seats and the attendee's reservations; only the cancelled record remains |
| `Logic.ReserveKeepsSeatsWithinCapacity` | src/logic.py:58-65 | a reservation that passed the seat check keeps every workshop within capacity |
| `Logic.CancelKeepsSeatsWithinCapacity` | src/logic.py:75-78 | a cancellation keeps every workshop within capacity |

## Left out

- Persistence is left out: pickling, `save_all`, `safe_save`, `safe_load`, `ensure_data_dir` and the data directory. The constructor takes the loaded collections as parameters.
- `uuid4` ids are left out. Fresh ids are parameters of the operations.
- The SHA-256 digest is a `Hasher` parameter of the store: any function from strings to strings.
- `datetime` is reduced to an abstract calendar date plus a second of the day. Workshop start times are not modelled, because nothing in the core reads them.
- Prices and amounts are integers rather than floats. Every price in the core is a whole number.
- The module-level `storage` singleton is not modelled. The operations take the store as a parameter.
- The GUI and `main.py` are not part of this model.
- The `Admin` class is not part of this model: nothing in the core creates one.
- The all-access pass's `priority` and `recordings` flags are not part of this model.
- The generic `Ticket` type tag is not part of this model. Tickets are either an exhibition pass or an all-access pass.
- Python exceptions are `Error` values returned instead of raised.
- Records are updated in place through shared references in the source. The model instead stores a new value under the same key. Aliasing between a record held by a caller and the stored one is not modelled.
- Storage.Store.DailySales: returns an unordered map. The source's report is a dict whose dates come in the order of each date's first payment, which the GUI displays in that order; that order is not modelled.
- Workshops, tickets, reservations and exhibitions are unordered maps. Their insertion order is not kept, because no operation of the core iterates them.
- Models.Lower: lower-cases ASCII letters only, while `str.lower` also folds other Unicode letters.
- The `ReserveThenCancelRestores` round trip assumes the new reservation id is not already held by the workshop or the attendee. The source relies on `uuid4` for this.
