# Hospital portal domain service, modelled in Dafny

This project models the domain core of a browser-local hospital front-desk
portal. The core is the hospital service and the entity records it owns. The
service holds one aggregate, `HospitalData`, with six collections: patients,
medications, dispenses, lab test types, lab orders and invoices. It handles:

- seeding the demo catalogue into empty collections;
- appending patients, medications and test types;
- dispensing medication against stock;
- creating lab orders and recording their results;
- building invoices from lab orders and dispenses;
- the sorted read views and a patient's merged, newest-first history.

Files:

- `wrappers.dfy` (module `Wrappers`): `Option`, `Result` and `Outcome`.
- `hospital_models.dfy` (module `HospitalModels`): one datatype per record. It
  also holds the computed invoice `Total`, the default values of a new invoice
  and a new lab order, and the empty aggregate.
- `sequences.dfy` (module `Sequences`): the query operators the service uses.
  `FirstIndex` is LINQ `First`, `FilterBy` is `Where`, and `SortBy` is the
  stable `OrderBy`/`OrderByDescending`.
  `LexLe` is the string order.
- `hospital_service.dfy` (module `Service`): the class `HospitalService`.
  Its field `db: HospitalData` is the aggregate. Operations that change the
  aggregate are methods with `modifies this`. The read views and the history
  are functions that read `this`.

Modelling choices:

- A `Guid` becomes an integer `Id`, a `DateTime` an integer `Timestamp`, and a
  birth date a `Date` triple.
- Money (`decimal`) is integer cents. A test type priced `12m` holds 1200. A
  pharmacy item is `2.5m` per unit, so 250 cents per unit.
- The operations that would call `Guid.NewGuid()` or `DateTime.Now` take the
  fresh identifiers and the current time as parameters.
- A failed `First` becomes the error `NoMatch`. The stock check of a dispense
  becomes `InvalidQuantity`. The source raises `InvalidOperationException`
  for both; the model tells them apart by cause. A missing medication or
  lab-order id fails like any other unmatched `First`.
- The history looks up each entry's test type or medication with `First`, so
  a dangling test-type or medication reference makes the history fail the
  same way.
- Saving to browser storage after each mutation is a no-op. `EnsureSeed` takes
  the stored aggregate as an input (`None` when storage holds none).

## Model

| member | source | states |
|---|---|---|
| `HospitalModels.SumAmountsAppend` | Models/HospitalModels.cs:62 | `Invoice.Total`, the sum of the item amounts, adds up over concatenated item lists. |
| `HospitalModels.NewInvoice` | Models/HospitalModels.cs:56-63 | A new invoice has the given header, an empty item list and a total of 0. |
| `HospitalModels.NewLabOrder` | Models/HospitalModels.cs:37-45 | A new lab order has the given ids and date, status Pending and no result text. |
| `HospitalModels.EmptyData` | Models/HospitalModels.cs:65-73 | A new aggregate has all six collections empty. |
| `Sequences.FirstIndex` | Services/HospitalService.cs:75-170 | Every `First` by id (lines 75, 111, 127, 128, 140, 141, 163 and 170): finds the index of the first element with the key, or reports that no element has it (both directions). |
| `Sequences.FilterBy` | Services/HospitalService.cs:161-174 | `Where` by patient keeps exactly the owned elements, with their multiplicities. |
| `Sequences.SortBy` | Services/HospitalService.cs:51-177 | Every `OrderBy` and `OrderByDescending` (lines 52, 62, 71, 92, 101, 119 and 177): the sort returns a permutation of its input, ordered by any total preorder. |
| `Sequences.LexLeTotal` | Services/HospitalService.cs:52 | Any two names compare under the string order. |
| `Sequences.LexLeTransitive` | Services/HospitalService.cs:52 | The string order is transitive. |
| `Sequences.NameLeIsTotalPreorder` | Services/HospitalService.cs:52 | Ordering records by a name is a total preorder. |
| `Service.Seeded` | Services/HospitalService.cs:18-42 | Each of patients, medications and test types that was empty becomes exactly its demo records, with the offered ids; one that was non-empty is unchanged. The other three collections are unchanged. |
| `Service.SeedIdempotent` | Services/HospitalService.cs:18-42 | Seeding an already seeded aggregate changes nothing, whatever identifiers are offered. |
| `Service.SeedOfEmpty` | Services/HospitalService.cs:20-41 | Seeding the empty aggregate gives 2 patients (Ana Ruiz, Carlos Pérez), 2 medications with stock 40 and 25, and test types HB, GLU and PCR priced 1200, 1000 and 3000 cents. All else stays empty. |
| `Service.ResolveLab` | Services/HospitalService.cs:127-128 | A resolved lab-order id yields an order with that id and a test type whose id is the order's test-type id. |
| `Service.ResolveLabIsFirst` | Services/HospitalService.cs:127-128 | The lookup yields the FIRST order with the id and the FIRST test type the order names. It finds nothing exactly when no order has the id, or the first such order names a test type that does not exist. |
| `Service.ResolveDispense` | Services/HospitalService.cs:140-141 | A resolved dispense id yields a dispense with that id and a medication whose id is the dispense's medication id. |
| `Service.ResolveDispenseIsFirst` | Services/HospitalService.cs:140-141 | The lookup yields the FIRST dispense with the id and the FIRST medication it names. It finds nothing exactly when no dispense has the id, or the first such dispense names a medication that does not exist. |
| `Service.LabEntries` | Services/HospitalService.cs:161-166 | Gives one history entry per lab order, in order, from its test type. Fails exactly when some order's test type does not resolve. |
| `Service.PharmacyEntries` | Services/HospitalService.cs:168-172 | Gives one history entry per dispense, in order, from its medication. Fails exactly when some dispense's medication does not resolve. |
| `Service.LabEntriesResolve` | Services/HospitalService.cs:161-166 | The patient's lab entries exist exactly when every lab order of that patient names an existing test type. |
| `Service.PharmacyEntriesResolve` | Services/HospitalService.cs:168-172 | The patient's pharmacy entries exist exactly when every dispense of that patient names an existing medication. |
| `Service.OwnedAreFiltered` | Services/HospitalService.cs:161-174 | An element is in the filtered list exactly when it is in the collection and belongs to the patient. |
| `Service.LabEntriesOfPatient` | Services/HospitalService.cs:161-166 | When the patient's lab entries exist, every lab order of the patient gives its entry (its date and its first matching test type), and every entry comes from such an order. |
| `Service.PharmacyEntriesOfPatient` | Services/HospitalService.cs:168-172 | When the patient's pharmacy entries exist, every dispense of the patient gives its entry (its date, medication name and quantity), and every entry comes from such a dispense. |
| `Service.InvoiceEntriesOfPatient` | Services/HospitalService.cs:174-175 | Every invoice of the patient gives its entry (date, id and total), and every invoice entry comes from such an invoice. |
| `Service.HospitalService.constructor` | Services/HospitalService.cs:10-12 | A new service holds the empty aggregate. |
| `Service.HospitalService.EnsureSeed` | Services/HospitalService.cs:14-45 | The aggregate becomes the stored one, or the empty one when none is stored, seeded as `Seeded` states. |
| `Service.HospitalService.GetPatients` | Services/HospitalService.cs:51-52 | Returns a permutation of the patients, ascending by full name. |
| `Service.HospitalService.GetMedications` | Services/HospitalService.cs:61-62 | Returns a permutation of the medications, ascending by name. |
| `Service.HospitalService.GetTestTypes` | Services/HospitalService.cs:91-92 | Returns a permutation of the test types, ascending by name. |
| `Service.HospitalService.GetDispenses` | Services/HospitalService.cs:70-71 | Returns a permutation of the dispenses, newest first. |
| `Service.HospitalService.GetLabOrders` | Services/HospitalService.cs:100-101 | Returns a permutation of the lab orders, newest first. |
| `Service.HospitalService.GetInvoices` | Services/HospitalService.cs:118-119 | Returns a permutation of the invoices, newest first. |
| `Service.HospitalService.AddPatient` | Services/HospitalService.cs:54-58 | The patient is appended and nothing else changes. |
| `Service.HospitalService.AddMedication` | Services/HospitalService.cs:64-68 | The medication is appended and nothing else changes. Non-negative stocks stay non-negative when the new stock is. |
| `Service.HospitalService.AddTestType` | Services/HospitalService.cs:94-98 | The test type is appended and nothing else changes. |
| `Service.HospitalService.Dispense` | Services/HospitalService.cs:73-88 | An unknown medication id fails with NoMatch; otherwise a quantity outside `0 < qty ≤ stock` fails with InvalidQuantity. Either failure leaves the aggregate unchanged. On success the first matching medication's stock drops by qty and every other medication is unchanged. Exactly one dispense with the given ids, quantity and time is appended. Non-negative stocks stay non-negative. |
| `Service.HospitalService.CreateLabOrder` | Services/HospitalService.cs:103-107 | A Pending order with the given ids and time is appended and nothing else changes. Every resulted order keeps its result text. |
| `Service.HospitalService.ResultLabOrder` | Services/HospitalService.cs:109-115 | An unknown order id fails with no change. Otherwise the first matching order becomes Resulted with the given text, replacing any earlier text. Every other order and collection is unchanged. |
| `Service.HospitalService.LabItems` | Services/HospitalService.cs:125-136 | Fails with NoMatch exactly when some lab-order id, or that order's test type, does not resolve. Otherwise gives one item per id in input order: kind "LAB", RefId the order id, Amount the test type's price. |
| `Service.HospitalService.PharmacyItems` | Services/HospitalService.cs:138-149 | Fails with NoMatch exactly when some dispense id, or that dispense's medication, does not resolve. Otherwise gives one item per id in input order: kind "FARM", RefId the dispense id, Amount 250 × quantity. |
| `Service.HospitalService.BuildInvoice` | Services/HospitalService.cs:121-150 | Succeeds exactly when every lab-order and dispense id resolves; otherwise fails with NoMatch. On success the header is the given patient and time, and the items are the LAB items followed by the FARM items (`IsInvoiceFor`). |
| `Service.InvoiceOfParts` | Services/HospitalService.cs:123-149 | A new invoice whose items are the LAB items followed by the FARM items is the invoice `IsInvoiceFor` describes. |
| `Service.InvoiceItemsShape` | Services/HospitalService.cs:125-149 | An invoice built from the aggregate has N+M items. The first N are "LAB" in input order, with RefId the order id and Amount the test type's price. The last M are "FARM" in input order, with RefId the dispense id and Amount 250 × quantity. |
| `Service.SumOfLabItems` | Services/HospitalService.cs:134 | Items priced one by one at the orders' test types sum to the total of those prices. |
| `Service.SumOfPharmacyItems` | Services/HospitalService.cs:147 | Items priced one by one at 2.50 per unit sum to 2.50 times the total quantity dispensed. |
| `Service.InvoiceTotal` | Models/HospitalModels.cs:62 | A built invoice's `Total` is the sum of its test types' prices plus 250 cents for every unit dispensed; building it implies every id resolved. |
| `Service.HospitalService.CreateInvoice` | Services/HospitalService.cs:121-154 | On success exactly the built invoice is appended, and its total is the test types' prices plus 250 cents per unit dispensed. On any unresolved id it fails and the aggregate, invoices included, is unchanged. |
| `Service.HospitalService.HistoryEntries` | Services/HospitalService.cs:159-175 | The patient's entries exist exactly when their orders' test types and dispenses' medications resolve. They number (lab orders + dispenses + invoices of the patient). Element by element (`HistoryLaidOut`): position k holds the entry of the patient's k-th lab order with its first matching test type, then come the entries of the patient's dispenses with their first matching medications, then those of the patient's invoices (helper `InvoiceEntries`), so each record gives exactly one entry. Every lab order, dispense and invoice of the patient gives its entry, and every entry is one of these. |
| `Service.HistoryLayout` | Services/HospitalService.cs:161-175 | The concatenation of the lab, pharmacy and invoice entries puts the entry of the k-th lab order at k, of the k-th dispense at (number of lab orders) + k and of the k-th invoice after both groups. |
| `Service.HospitalService.GetHistory` | Services/HospitalService.cs:157-178 | Succeeds exactly when the entries exist; otherwise fails with NoMatch. The result is a permutation of the patient's lab, pharmacy and invoice entries, one per record, in non-increasing date order. |
| `Service.NewestFirstOfThree` | Services/HospitalService.cs:177 | Three entries with strictly increasing dates, sorted newest first, come out in reverse order. |
| `Service.ExampleEntries` | Services/HospitalService.cs:159-175 | With one order, one dispense and one invoice of the patient, the unsorted history is [lab, pharmacy, invoice]. |
| `Service.HistoryOfThree` | Services/HospitalService.cs:177 | When a patient's unsorted entries are three entries with strictly increasing dates, the history lists them newest first. |
| `Service.HistoryNewestFirstExample` | Services/HospitalService.cs:157-177 | A lab order at t1, a dispense at t2 and an invoice at t3, with t1 < t2 < t3, give the history [invoice, dispense, lab order]. |

## Left out

- Browser storage: `SaveAsync` and the storage get/set calls are out, because they call a foreign async library. The source saves after every mutation; the model does nothing there. The store-and-reload round trip of the serialized aggregate is not modelled either.
- Money below a cent: amounts are whole cents, so a `decimal` price with a fraction of a cent, which `AddTestTypeAsync` would store, cannot be represented, and neither can `decimal`'s rounding of such sums.
- Asynchrony: every `Task` is modelled as a plain synchronous call.
- Fresh identifiers and the clock are caller-supplied parameters. The model neither assumes nor proves that identifiers are unique, just as the source never checks it. `First` picks the first match, and so does the model.
- Service.HospitalService.BuildInvoice: takes one fresh identifier per invoice item in `itemIds`, one per `Guid.NewGuid()` the source would call. `requires |itemIds| == |labOrderIds| + |dispenseIds|` comes from modelling ids as parameters, not from the source.
- Reference aliasing: the source's records are objects. A read view returns a new list holding the same objects. `AddPatient`, `AddMedication` and `AddTestType` store the caller's object. `CreateInvoice` returns the invoice it stored. Later changes to these objects would be visible to whoever holds them. The model uses values, so none of this sharing is captured.
- Service.HospitalService.GetPatients: .NET orders full names with culture-sensitive comparison; the model uses ordinal character-by-character order (`LexLe`).
- Service.HospitalService.GetMedications: .NET orders medication names with culture-sensitive comparison; the model uses ordinal character-by-character order (`LexLe`).
- Service.HospitalService.GetTestTypes: .NET orders test-type names with culture-sensitive comparison; the model uses ordinal character-by-character order (`LexLe`).
- Sequences.FilterBy: the contract states which elements are kept and how often, not that they keep their order in the collection. The order only decides ties among equal dates in the sorted history.
- Sequences.SortBy: the contract states order and permutation only. The insertion keeps equal elements in input order, as stable LINQ sorting does, but that stability is not stated or proved.
- History text: each history entry keeps the facts its line of text shows, as a structured `HistoryEvent`. The strings themselves are not built. An invoice line would need the first eight characters of a `Guid` and culture-dependent `0.00` formatting.
- Invoice item descriptions are built as strings ("Lab: code name", "Farmacia: name xN"), but no property is stated about them.
- `Services/IHospitalService.cs` is signatures only, and `Program.cs` is host and dependency-injection wiring. Neither has behaviour, so neither is modelled.
- The "LAB"/"FARM" kind is proved for the items `BuildInvoice` creates. Items that come from stored data can hold any string, since the source's default kind is "".
