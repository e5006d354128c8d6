/**
 * The hospital domain service: the one owner of the in-memory aggregate. It seeds
 * the demo catalogue, appends records, dispenses medication against stock,
 * records lab results, builds invoices and merges a patient's history.
 *
 * Browser storage is not modelled: loading is an input of EnsureSeed and saving
 * after each mutation is a no-op. Fresh identifiers and the current time are
 * parameters of the operations that create records.
 */
module Service {
  import opened Wrappers
  import opened HospitalModels
  import opened Sequences

  /**
   * Why an operation failed. Both are InvalidOperationException in the source:
   * NoMatch is raised by `First` when no element has the id looked up,
   * InvalidQuantity by the stock check of a dispense.
   */
  datatype Error = NoMatch | InvalidQuantity

  // Keys the lookups, filters and sorts project out of the records.

  function PatientName(p: Patient): string { p.fullName }
  function MedicationName(m: Medication): string { m.name }
  function TestTypeName(t: LabTestType): string { t.name }

  function MedicationKey(m: Medication): Id { m.id }
  function DispenseKey(d: Dispense): Id { d.id }
  function TestTypeKey(t: LabTestType): Id { t.id }
  function LabOrderKey(o: LabOrder): Id { o.id }

  function DispenseDate(d: Dispense): Timestamp { d.date }
  function LabOrderDate(o: LabOrder): Timestamp { o.date }
  function InvoiceDate(i: Invoice): Timestamp { i.date }

  function DispensePatient(d: Dispense): Id { d.patientId }
  function LabOrderPatient(o: LabOrder): Id { o.patientId }
  function InvoicePatient(i: Invoice): Id { i.patientId }

  // ---------------------------------------------------------------------------
  // Demo seeding

  function DemoPatients(a: Id, b: Id): seq<Patient>
  {
    [ Patient(a, "12345678", "Ana Ruiz", Some(Date(1990, 5, 2))),
      Patient(b, "87654321", "Carlos Pérez", Some(Date(1987, 11, 21))) ]
  }

  function DemoMedications(a: Id, b: Id): seq<Medication>
  {
    [ Medication(a, "Paracetamol 500 mg", 40),
      Medication(b, "Amoxicilina 500 mg", 25) ]
  }

  function DemoTestTypes(a: Id, b: Id, c: Id): seq<LabTestType>
  {
    [ LabTestType(a, "HB", "Hemoglobina", 1200),
      LabTestType(b, "GLU", "Glucosa", 1000),
      LabTestType(c, "PCR", "Proteína C Reactiva", 3000) ]
  }

  /**
   * `d` with each of patients, medications and test types filled with the demo
   * records when it is empty; `ids` are the seven fresh identifiers the demo
   * records receive.
   */
  function Seeded(d: HospitalData, ids: seq<Id>): (r: HospitalData)
    requires |ids| == 7
    ensures r.patients != [] && r.medications != [] && r.labTestTypes != []
    ensures d.patients != [] ==> r.patients == d.patients
    ensures d.medications != [] ==> r.medications == d.medications
    ensures d.labTestTypes != [] ==> r.labTestTypes == d.labTestTypes
    ensures d.patients == [] ==> r.patients == DemoPatients(ids[0], ids[1])
    ensures d.medications == [] ==> r.medications == DemoMedications(ids[2], ids[3])
    ensures d.labTestTypes == [] ==> r.labTestTypes == DemoTestTypes(ids[4], ids[5], ids[6])
    ensures r.dispenses == d.dispenses && r.labOrders == d.labOrders && r.invoices == d.invoices
  {
    d.(patients := if d.patients == [] then DemoPatients(ids[0], ids[1]) else d.patients,
       medications := if d.medications == [] then DemoMedications(ids[2], ids[3]) else d.medications,
       labTestTypes := if d.labTestTypes == [] then DemoTestTypes(ids[4], ids[5], ids[6]) else d.labTestTypes)
  }

  /** Seeding an aggregate that was already seeded changes nothing, whatever identifiers are offered. */
  lemma SeedIdempotent(d: HospitalData, ids: seq<Id>, ids': seq<Id>)
    requires |ids| == 7 && |ids'| == 7
    ensures Seeded(Seeded(d, ids), ids') == Seeded(d, ids)
  {
  }

  /** Seeding an empty aggregate gives the demo catalogue and nothing else. */
  lemma SeedOfEmpty(ids: seq<Id>)
    requires |ids| == 7
    ensures var r := Seeded(EmptyData(), ids);
      && |r.patients| == 2
      && r.patients[0].fullName == "Ana Ruiz" && r.patients[1].fullName == "Carlos Pérez"
      && |r.medications| == 2 && r.medications[0].stock == 40 && r.medications[1].stock == 25
      && |r.labTestTypes| == 3
      && r.labTestTypes[0].code == "HB" && r.labTestTypes[0].price == 1200
      && r.labTestTypes[1].code == "GLU" && r.labTestTypes[1].price == 1000
      && r.labTestTypes[2].code == "PCR" && r.labTestTypes[2].price == 3000
      && r.dispenses == [] && r.labOrders == [] && r.invoices == []
  {
  }

  // ---------------------------------------------------------------------------
  // Invariants the mutating operations keep

  ghost predicate StocksNonNegative(meds: seq<Medication>)
  {
    forall k :: 0 <= k < |meds| ==> meds[k].stock >= 0
  }

  /** Every resulted order carries a result text. */
  ghost predicate ResultsRecorded(orders: seq<LabOrder>)
  {
    forall k :: 0 <= k < |orders| ==> orders[k].status == Resulted ==> orders[k].resultText.Some?
  }

  // ---------------------------------------------------------------------------
  // Invoice items

  /** The per-unit demo rate of a pharmacy item, 2.50, independent of the medication. */
  const PharmacyUnitPrice: Money := 250

  function DigitChar(n: nat): char
    requires n < 10
  {
    (48 + n) as char
  }

  /** Decimal digits of `n`. */
  function NatText(n: nat): string
  {
    if n < 10 then [DigitChar(n)] else NatText(n / 10) + [DigitChar(n % 10)]
  }

  function IntText(n: int): string
  {
    if n < 0 then "-" + NatText(-n) else NatText(n)
  }

  function LabDescription(tt: LabTestType): string
  {
    "Lab: " + tt.code + " " + tt.name
  }

  function PharmacyDescription(m: Medication, quantity: int): string
  {
    "Farmacia: " + m.name + " x" + IntText(quantity)
  }

  function LabItem(itemId: Id, o: LabOrder, tt: LabTestType): InvoiceItem
  {
    InvoiceItem(itemId, LabKind, o.id, LabDescription(tt), tt.price)
  }

  function PharmacyItem(itemId: Id, d: Dispense, m: Medication): InvoiceItem
  {
    InvoiceItem(itemId, PharmacyKind, d.id, PharmacyDescription(m, d.quantity), PharmacyUnitPrice * d.quantity)
  }

  /** The first lab order with id `orderId` and the first test type with that order's test-type id. */
  function ResolveLab(d: HospitalData, orderId: Id): (r: Option<(LabOrder, LabTestType)>)
    ensures r.Some? ==> r.value.0.id == orderId && r.value.1.id == r.value.0.testTypeId
  {
    match FirstIndex(d.labOrders, LabOrderKey, orderId)
    case None => None
    case Some(i) =>
      match FirstIndex(d.labTestTypes, TestTypeKey, d.labOrders[i].testTypeId)
      case None => None
      case Some(j) => Some((d.labOrders[i], d.labTestTypes[j]))
  }

  /**
   * `ResolveLab` takes the first order with the id and the first test type it names,
   * and finds nothing exactly when no order has the id or that order's test type is missing.
   */
  lemma ResolveLabIsFirst(d: HospitalData, orderId: Id)
    ensures ResolveLab(d, orderId).Some? ==> exists i, j ::
      && IsFirst(d.labOrders, LabOrderKey, orderId, i)
      && IsFirst(d.labTestTypes, TestTypeKey, d.labOrders[i].testTypeId, j)
      && ResolveLab(d, orderId).value == (d.labOrders[i], d.labTestTypes[j])
    ensures ResolveLab(d, orderId).None? <==>
      || NoneHas(d.labOrders, LabOrderKey, orderId)
      || exists i :: IsFirst(d.labOrders, LabOrderKey, orderId, i)
                     && NoneHas(d.labTestTypes, TestTypeKey, d.labOrders[i].testTypeId)
  {
  }

  /** The first dispense with id `dispenseId` and the first medication with that dispense's medication id. */
  function ResolveDispense(d: HospitalData, dispenseId: Id): (r: Option<(Dispense, Medication)>)
    ensures r.Some? ==> r.value.0.id == dispenseId && r.value.1.id == r.value.0.medicationId
  {
    match FirstIndex(d.dispenses, DispenseKey, dispenseId)
    case None => None
    case Some(i) =>
      match FirstIndex(d.medications, MedicationKey, d.dispenses[i].medicationId)
      case None => None
      case Some(j) => Some((d.dispenses[i], d.medications[j]))
  }

  /**
   * `ResolveDispense` takes the first dispense with the id and the first medication it names,
   * and finds nothing exactly when no dispense has the id or that dispense's medication is missing.
   */
  lemma ResolveDispenseIsFirst(d: HospitalData, dispenseId: Id)
    ensures ResolveDispense(d, dispenseId).Some? ==> exists i, j ::
      && IsFirst(d.dispenses, DispenseKey, dispenseId, i)
      && IsFirst(d.medications, MedicationKey, d.dispenses[i].medicationId, j)
      && ResolveDispense(d, dispenseId).value == (d.dispenses[i], d.medications[j])
    ensures ResolveDispense(d, dispenseId).None? <==>
      || NoneHas(d.dispenses, DispenseKey, dispenseId)
      || exists i :: IsFirst(d.dispenses, DispenseKey, dispenseId, i)
                     && NoneHas(d.medications, MedicationKey, d.dispenses[i].medicationId)
  {
  }

  /** Every lab-order id and every dispense id resolves, with its test type or medication. */
  ghost predicate AllResolve(d: HospitalData, labOrderIds: seq<Id>, dispenseIds: seq<Id>)
  {
    && (forall k :: 0 <= k < |labOrderIds| ==> ResolveLab(d, labOrderIds[k]).Some?)
    && (forall k :: 0 <= k < |dispenseIds| ==> ResolveDispense(d, dispenseIds[k]).Some?)
  }

  /**
   * `inv` is the invoice built from `d`: the given header, then one lab item per
   * lab-order id in input order, then one pharmacy item per dispense id in input
   * order, the k-th item carrying identifier itemIds[k].
   */
  ghost predicate IsInvoiceFor(d: HospitalData, inv: Invoice, patientId: Id, labOrderIds: seq<Id>,
                               dispenseIds: seq<Id>, invoiceId: Id, now: Timestamp, itemIds: seq<Id>)
    requires |itemIds| == |labOrderIds| + |dispenseIds|
  {
    var n := |labOrderIds|;
    && inv.id == invoiceId && inv.patientId == patientId && inv.date == now
    && |inv.items| == n + |dispenseIds|
    && (forall k :: 0 <= k < n ==>
          ResolveLab(d, labOrderIds[k]).Some? &&
          inv.items[k] == LabItem(itemIds[k], ResolveLab(d, labOrderIds[k]).value.0,
                                  ResolveLab(d, labOrderIds[k]).value.1))
    && (forall k :: n <= k < |inv.items| ==>
          ResolveDispense(d, dispenseIds[k - n]).Some? &&
          inv.items[k] == PharmacyItem(itemIds[k], ResolveDispense(d, dispenseIds[k - n]).value.0,
                                       ResolveDispense(d, dispenseIds[k - n]).value.1))
  }

  /** An invoice whose items are the LAB items followed by the FARM items is the invoice `IsInvoiceFor` describes. */
  lemma InvoiceOfParts(d: HospitalData, inv: Invoice, patientId: Id, labOrderIds: seq<Id>, dispenseIds: seq<Id>,
                       invoiceId: Id, now: Timestamp, itemIds: seq<Id>, labs: seq<InvoiceItem>, pharmacy: seq<InvoiceItem>)
    requires |itemIds| == |labOrderIds| + |dispenseIds|
    requires |labs| == |labOrderIds| && |pharmacy| == |dispenseIds|
    requires forall k :: 0 <= k < |labOrderIds| ==> ResolveLab(d, labOrderIds[k]).Some?
    requires forall k :: 0 <= k < |dispenseIds| ==> ResolveDispense(d, dispenseIds[k]).Some?
    requires forall k :: 0 <= k < |labOrderIds| ==>
      labs[k] == LabItem(itemIds[..|labOrderIds|][k], ResolveLab(d, labOrderIds[k]).value.0,
                         ResolveLab(d, labOrderIds[k]).value.1)
    requires forall k :: 0 <= k < |dispenseIds| ==>
      pharmacy[k] == PharmacyItem(itemIds[|labOrderIds|..][k], ResolveDispense(d, dispenseIds[k]).value.0,
                                  ResolveDispense(d, dispenseIds[k]).value.1)
    requires inv == Invoice(invoiceId, patientId, now, labs + pharmacy)
    ensures IsInvoiceFor(d, inv, patientId, labOrderIds, dispenseIds, invoiceId, now, itemIds)
  {
    LabPart(d, inv.items, labOrderIds, dispenseIds, itemIds, labs, pharmacy);
    ConcatTail(inv.items, labs, pharmacy);
    PharmacyPart(d, inv.items, labOrderIds, dispenseIds, itemIds, itemIds[|labOrderIds|..], labs, pharmacy);
  }

  /** The first N items of `labs + pharmacy` are the LAB items. */
  lemma LabPart(d: HospitalData, items: seq<InvoiceItem>, labOrderIds: seq<Id>, dispenseIds: seq<Id>,
                itemIds: seq<Id>, labs: seq<InvoiceItem>, pharmacy: seq<InvoiceItem>)
    requires |itemIds| == |labOrderIds| + |dispenseIds|
    requires |labs| == |labOrderIds|
    requires forall k :: 0 <= k < |labOrderIds| ==> ResolveLab(d, labOrderIds[k]).Some?
    requires forall k :: 0 <= k < |labOrderIds| ==>
      labs[k] == LabItem(itemIds[..|labOrderIds|][k], ResolveLab(d, labOrderIds[k]).value.0,
                         ResolveLab(d, labOrderIds[k]).value.1)
    requires items == labs + pharmacy
    ensures forall k :: 0 <= k < |labOrderIds| ==>
      items[k] == LabItem(itemIds[k], ResolveLab(d, labOrderIds[k]).value.0, ResolveLab(d, labOrderIds[k]).value.1)
  {
    var n := |labOrderIds|;
    forall k | 0 <= k < n
      ensures items[k] == LabItem(itemIds[k], ResolveLab(d, labOrderIds[k]).value.0,
                                  ResolveLab(d, labOrderIds[k]).value.1)
    {
      assert items[k] == labs[k] && itemIds[..n][k] == itemIds[k];
    }
  }

  /** Past the head, a concatenation holds the tail. */
  lemma ConcatTail<T>(s: seq<T>, head: seq<T>, tail: seq<T>)
    requires s == head + tail
    ensures forall k :: |head| <= k < |s| ==> s[k] == tail[k - |head|]
  {
  }


  /** The items after the first N, which are the pharmacy items, are the FARM items. */
  lemma PharmacyPart(d: HospitalData, items: seq<InvoiceItem>, labOrderIds: seq<Id>, dispenseIds: seq<Id>,
                     itemIds: seq<Id>, tail: seq<Id>, labs: seq<InvoiceItem>, pharmacy: seq<InvoiceItem>)
    requires |itemIds| == |labOrderIds| + |dispenseIds|
    requires |labs| == |labOrderIds| && |pharmacy| == |dispenseIds| && |tail| == |dispenseIds|
    requires forall j :: 0 <= j < |tail| ==> tail[j] == itemIds[|labOrderIds| + j]
    requires forall k :: 0 <= k < |dispenseIds| ==> ResolveDispense(d, dispenseIds[k]).Some?
    requires forall k :: 0 <= k < |dispenseIds| ==>
      pharmacy[k] == PharmacyItem(tail[k], ResolveDispense(d, dispenseIds[k]).value.0,
                                  ResolveDispense(d, dispenseIds[k]).value.1)
    requires |items| == |labs| + |pharmacy|
    requires forall k :: |labs| <= k < |items| ==> items[k] == pharmacy[k - |labs|]
    ensures forall k :: |labOrderIds| <= k < |items| ==>
      items[k] == PharmacyItem(itemIds[k], ResolveDispense(d, dispenseIds[k - |labOrderIds|]).value.0,
                               ResolveDispense(d, dispenseIds[k - |labOrderIds|]).value.1)
  {
    forall k | |labOrderIds| <= k < |items|
      ensures items[k] == PharmacyItem(itemIds[k], ResolveDispense(d, dispenseIds[k - |labOrderIds|]).value.0,
                                       ResolveDispense(d, dispenseIds[k - |labOrderIds|]).value.1)
    {
      var j := k - |labs|;
      assert items[k] == pharmacy[j];
      assert tail[j] == itemIds[k];
    }
  }


  /**
   * The items of an invoice built from `d`: N "LAB" items first, in the order of
   * the lab-order ids, each referring to its order and priced at its test type;
   * then M "FARM" items in the order of the dispense ids, each referring to its
   * dispense and priced at 2.50 per unit dispensed.
   */
  lemma InvoiceItemsShape(d: HospitalData, inv: Invoice, patientId: Id, labOrderIds: seq<Id>,
                          dispenseIds: seq<Id>, invoiceId: Id, now: Timestamp, itemIds: seq<Id>)
    requires |itemIds| == |labOrderIds| + |dispenseIds|
    requires IsInvoiceFor(d, inv, patientId, labOrderIds, dispenseIds, invoiceId, now, itemIds)
    ensures |inv.items| == |labOrderIds| + |dispenseIds|
    ensures forall k :: 0 <= k < |labOrderIds| ==>
      && inv.items[k].kind == LabKind && inv.items[k].refId == labOrderIds[k]
      && inv.items[k].amount == ResolveLab(d, labOrderIds[k]).value.1.price
    ensures forall k :: |labOrderIds| <= k < |inv.items| ==>
      && inv.items[k].kind == PharmacyKind
      && inv.items[k].refId == dispenseIds[k - |labOrderIds|]
      && inv.items[k].amount == PharmacyUnitPrice * ResolveDispense(d, dispenseIds[k - |labOrderIds|]).value.0.quantity
  {
  }

  /** The sum of the prices of the test types the lab orders name. */
  function LabPrices(d: HospitalData, labOrderIds: seq<Id>): Money
    requires forall k :: 0 <= k < |labOrderIds| ==> ResolveLab(d, labOrderIds[k]).Some?
  {
    if labOrderIds == [] then 0
    else ResolveLab(d, labOrderIds[0]).value.1.price + LabPrices(d, labOrderIds[1..])
  }

  /** The total quantity the dispenses hand out. */
  function DispensedUnits(d: HospitalData, dispenseIds: seq<Id>): int
    requires forall k :: 0 <= k < |dispenseIds| ==> ResolveDispense(d, dispenseIds[k]).Some?
  {
    if dispenseIds == [] then 0
    else ResolveDispense(d, dispenseIds[0]).value.0.quantity + DispensedUnits(d, dispenseIds[1..])
  }

  /** Items priced one by one at the lab orders' test types add up to `LabPrices`. */
  lemma {:induction false} SumOfLabItems(d: HospitalData, labOrderIds: seq<Id>, items: seq<InvoiceItem>)
    requires |items| == |labOrderIds|
    requires forall k :: 0 <= k < |labOrderIds| ==> ResolveLab(d, labOrderIds[k]).Some?
    requires forall k :: 0 <= k < |labOrderIds| ==> items[k].amount == ResolveLab(d, labOrderIds[k]).value.1.price
    ensures SumAmounts(items) == LabPrices(d, labOrderIds)
  {
    if labOrderIds != [] {
      assert forall k :: 0 <= k < |labOrderIds| - 1 ==> labOrderIds[1..][k] == labOrderIds[k + 1];
      SumOfLabItems(d, labOrderIds[1..], items[1..]);
    }
  }

  /** Items priced one by one at 2.50 per dispensed unit add up to 2.50 times `DispensedUnits`. */
  lemma {:induction false} SumOfPharmacyItems(d: HospitalData, dispenseIds: seq<Id>, items: seq<InvoiceItem>)
    requires |items| == |dispenseIds|
    requires forall k :: 0 <= k < |dispenseIds| ==> ResolveDispense(d, dispenseIds[k]).Some?
    requires forall k :: 0 <= k < |dispenseIds| ==>
      items[k].amount == PharmacyUnitPrice * ResolveDispense(d, dispenseIds[k]).value.0.quantity
    ensures SumAmounts(items) == PharmacyUnitPrice * DispensedUnits(d, dispenseIds)
  {
    if dispenseIds != [] {
      assert forall k :: 0 <= k < |dispenseIds| - 1 ==> dispenseIds[1..][k] == dispenseIds[k + 1];
      SumOfPharmacyItems(d, dispenseIds[1..], items[1..]);
    }
  }

  /**
   * The total of an invoice built from `d` is the sum of the named test types'
   * prices plus 2.50 for every unit dispensed.
   */
  lemma InvoiceTotal(d: HospitalData, inv: Invoice, patientId: Id, labOrderIds: seq<Id>,
                     dispenseIds: seq<Id>, invoiceId: Id, now: Timestamp, itemIds: seq<Id>)
    requires |itemIds| == |labOrderIds| + |dispenseIds|
    requires IsInvoiceFor(d, inv, patientId, labOrderIds, dispenseIds, invoiceId, now, itemIds)
    ensures AllResolve(d, labOrderIds, dispenseIds)
    ensures inv.Total() == LabPrices(d, labOrderIds) + PharmacyUnitPrice * DispensedUnits(d, dispenseIds)
  {
    var n := |labOrderIds|;
    InvoiceItemsShape(d, inv, patientId, labOrderIds, dispenseIds, invoiceId, now, itemIds);
    var labs := inv.items[..n];
    var pharmacy := inv.items[n..];
    forall k | 0 <= k < |dispenseIds|
      ensures ResolveDispense(d, dispenseIds[k]).Some?
      ensures pharmacy[k].amount == PharmacyUnitPrice * ResolveDispense(d, dispenseIds[k]).value.0.quantity
    {
      var j := n + k;
      assert j - n == k;
      assert pharmacy[k] == inv.items[j];
    }
    assert inv.items == labs + pharmacy;
    SumAmountsAppend(labs, pharmacy);
    SumOfLabItems(d, labOrderIds, labs);
    SumOfPharmacyItems(d, dispenseIds, pharmacy);
  }

  // ---------------------------------------------------------------------------
  // Patient history

  /** What a lab entry of the history reports: still pending, or the recorded result. */
  datatype LabOutcome = AwaitingResult | Reported(text: string)

  /**
   * One event of a patient's history. The source renders each one as a line of
   * text; the model keeps the facts that line shows.
   */
  datatype HistoryEvent =
    | LabEvent(code: string, testName: string, outcome: LabOutcome)
    | PharmacyEvent(medicationName: string, quantity: int)
    | InvoiceEvent(invoiceId: Id, total: Money)

  datatype HistoryEntry = HistoryEntry(when: Timestamp, event: HistoryEvent)

  function EntryDate(e: HistoryEntry): Timestamp { e.when }

  function LabEntry(o: LabOrder, tt: LabTestType): HistoryEntry
  {
    HistoryEntry(o.date, LabEvent(tt.code, tt.name,
      if o.status == Pending then AwaitingResult else Reported(o.resultText.GetOr(""))))
  }

  function PharmacyEntry(x: Dispense, m: Medication): HistoryEntry
  {
    HistoryEntry(x.date, PharmacyEvent(m.name, x.quantity))
  }

  function InvoiceEntry(i: Invoice): HistoryEntry
  {
    HistoryEntry(i.date, InvoiceEvent(i.id, i.Total()))
  }

  /** One entry per order, in order, each with its order's test type; None when a test type does not resolve. */
  function LabEntries(orders: seq<LabOrder>, types: seq<LabTestType>): (r: Option<seq<HistoryEntry>>)
    ensures r.Some? <==> forall k :: 0 <= k < |orders| ==> FirstIndex(types, TestTypeKey, orders[k].testTypeId).Some?
    ensures r.Some? ==> |r.value| == |orders|
    ensures r.Some? ==> forall k :: 0 <= k < |orders| ==>
      r.value[k] == LabEntry(orders[k], types[FirstIndex(types, TestTypeKey, orders[k].testTypeId).value])
  {
    if orders == [] then Some([])
    else
      match FirstIndex(types, TestTypeKey, orders[0].testTypeId)
      case None => None
      case Some(j) =>
        match LabEntries(orders[1..], types)
        case None => None
        case Some(rest) => Some([LabEntry(orders[0], types[j])] + rest)
  }

  /** One entry per dispense, in order, each with its medication; None when a medication does not resolve. */
  function PharmacyEntries(dispenses: seq<Dispense>, meds: seq<Medication>): (r: Option<seq<HistoryEntry>>)
    ensures r.Some? <==> forall k :: 0 <= k < |dispenses| ==> FirstIndex(meds, MedicationKey, dispenses[k].medicationId).Some?
    ensures r.Some? ==> |r.value| == |dispenses|
    ensures r.Some? ==> forall k :: 0 <= k < |dispenses| ==>
      r.value[k] == PharmacyEntry(dispenses[k], meds[FirstIndex(meds, MedicationKey, dispenses[k].medicationId).value])
  {
    if dispenses == [] then Some([])
    else
      match FirstIndex(meds, MedicationKey, dispenses[0].medicationId)
      case None => None
      case Some(j) =>
        match PharmacyEntries(dispenses[1..], meds)
        case None => None
        case Some(rest) => Some([PharmacyEntry(dispenses[0], meds[j])] + rest)
  }

  function InvoiceEntries(invoices: seq<Invoice>): (r: seq<HistoryEntry>)
    ensures |r| == |invoices|
    ensures forall k :: 0 <= k < |invoices| ==> r[k] == InvoiceEntry(invoices[k])
  {
    if invoices == [] then []
    else [InvoiceEntry(invoices[0])] + InvoiceEntries(invoices[1..])
  }

  // ---------------------------------------------------------------------------
  // The service

  class HospitalService {
    /** The aggregate root the service owns. */
    var db: HospitalData

    constructor ()
      ensures db == EmptyData()
    {
      db := EmptyData();
    }

    /**
     * Start from the stored aggregate (`stored`, None when storage holds none),
     * then seed each empty catalogue collection with the demo records.
     */
    method EnsureSeed(stored: Option<HospitalData>, seedIds: seq<Id>)
      requires |seedIds| == 7
      modifies this
      ensures db == Seeded(stored.GetOr(EmptyData()), seedIds)
    {
      db := stored.GetOr(EmptyData());
      if db.patients == [] {
        db := db.(patients := db.patients + DemoPatients(seedIds[0], seedIds[1]));
      }
      if db.medications == [] {
        db := db.(medications := db.medications + DemoMedications(seedIds[2], seedIds[3]));
      }
      if db.labTestTypes == [] {
        db := db.(labTestTypes := db.labTestTypes + DemoTestTypes(seedIds[4], seedIds[5], seedIds[6]));
      }
    }

    // Read views: sorted copies of the collections.

    function GetPatients(): (r: seq<Patient>)
      reads this
      ensures multiset(r) == multiset(db.patients)
      ensures forall i, j :: 0 <= i < j < |r| ==> LexLe(r[i].fullName, r[j].fullName)
    {
      NameLeIsTotalPreorder(PatientName);
      var r := SortBy(db.patients, NameLe(PatientName));
      SortedByName(r, PatientName);
      r
    }

    function GetMedications(): (r: seq<Medication>)
      reads this
      ensures multiset(r) == multiset(db.medications)
      ensures forall i, j :: 0 <= i < j < |r| ==> LexLe(r[i].name, r[j].name)
    {
      NameLeIsTotalPreorder(MedicationName);
      var r := SortBy(db.medications, NameLe(MedicationName));
      SortedByName(r, MedicationName);
      r
    }

    function GetTestTypes(): (r: seq<LabTestType>)
      reads this
      ensures multiset(r) == multiset(db.labTestTypes)
      ensures forall i, j :: 0 <= i < j < |r| ==> LexLe(r[i].name, r[j].name)
    {
      NameLeIsTotalPreorder(TestTypeName);
      var r := SortBy(db.labTestTypes, NameLe(TestTypeName));
      SortedByName(r, TestTypeName);
      r
    }

    function GetDispenses(): (r: seq<Dispense>)
      reads this
      ensures multiset(r) == multiset(db.dispenses)
      ensures forall i, j :: 0 <= i < j < |r| ==> r[i].date >= r[j].date
    {
      NewestFirstIsTotalPreorder(DispenseDate);
      var r := SortBy(db.dispenses, NewestFirst(DispenseDate));
      SortedNewestFirst(r, DispenseDate);
      r
    }

    function GetLabOrders(): (r: seq<LabOrder>)
      reads this
      ensures multiset(r) == multiset(db.labOrders)
      ensures forall i, j :: 0 <= i < j < |r| ==> r[i].date >= r[j].date
    {
      NewestFirstIsTotalPreorder(LabOrderDate);
      var r := SortBy(db.labOrders, NewestFirst(LabOrderDate));
      SortedNewestFirst(r, LabOrderDate);
      r
    }

    function GetInvoices(): (r: seq<Invoice>)
      reads this
      ensures multiset(r) == multiset(db.invoices)
      ensures forall i, j :: 0 <= i < j < |r| ==> r[i].date >= r[j].date
    {
      NewestFirstIsTotalPreorder(InvoiceDate);
      var r := SortBy(db.invoices, NewestFirst(InvoiceDate));
      SortedNewestFirst(r, InvoiceDate);
      r
    }

    // Appends

    method AddPatient(p: Patient)
      modifies this
      ensures db == old(db).(patients := old(db.patients) + [p])
    {
      db := db.(patients := db.patients + [p]);
    }

    method AddMedication(m: Medication)
      modifies this
      ensures db == old(db).(medications := old(db.medications) + [m])
      ensures StocksNonNegative(old(db.medications)) && m.stock >= 0 ==> StocksNonNegative(db.medications)
    {
      db := db.(medications := db.medications + [m]);
    }

    method AddTestType(t: LabTestType)
      modifies this
      ensures db == old(db).(labTestTypes := old(db.labTestTypes) + [t])
    {
      db := db.(labTestTypes := db.labTestTypes + [t]);
    }

    // Pharmacy

    /**
     * Dispense `qty` units of the first medication with id `medicationId` to the
     * patient: allowed only when 0 < qty <= stock; debits the stock and records
     * the dispense as `dispenseId` at time `now`.
     */
    method Dispense(patientId: Id, medicationId: Id, qty: int, dispenseId: Id, now: Timestamp)
      returns (r: Outcome<Error>)
      modifies this
      ensures var found := FirstIndex(old(db.medications), MedicationKey, medicationId);
        && (found.None? ==> r == Fail(NoMatch))
        && (found.Some? ==> r == if 0 < qty <= old(db.medications)[found.value].stock then Pass else Fail(InvalidQuantity))
      ensures r.Fail? ==> db == old(db)
      ensures r.Pass? ==>
        var i := FirstIndex(old(db.medications), MedicationKey, medicationId).value;
        && db == old(db).(medications := db.medications, dispenses := db.dispenses)
        && |db.medications| == |old(db.medications)|
        && db.medications[i] == old(db.medications)[i].(stock := old(db.medications)[i].stock - qty)
        && (forall j :: 0 <= j < |db.medications| && j != i ==> db.medications[j] == old(db.medications)[j])
        && db.dispenses == old(db.dispenses) + [HospitalModels.Dispense(dispenseId, patientId, medicationId, qty, now)]
      ensures StocksNonNegative(old(db.medications)) ==> StocksNonNegative(db.medications)
    {
      var found := FirstIndex(db.medications, MedicationKey, medicationId);
      if found.None? {
        return Fail(NoMatch);
      }
      var i := found.value;
      var med := db.medications[i];
      if qty <= 0 || qty > med.stock {
        return Fail(InvalidQuantity);
      }
      db := db.(medications := db.medications[i := med.(stock := med.stock - qty)]);
      db := db.(dispenses := db.dispenses + [HospitalModels.Dispense(dispenseId, patientId, medicationId, qty, now)]);
      r := Pass;
    }

    // Laboratory

    /** Record a new Pending order `orderId` at time `now`; the ids are not checked. */
    method CreateLabOrder(patientId: Id, testTypeId: Id, orderId: Id, now: Timestamp)
      modifies this
      ensures db == old(db).(labOrders := old(db.labOrders) + [NewLabOrder(orderId, patientId, testTypeId, now)])
      ensures db.labOrders[|db.labOrders| - 1].status == Pending
      ensures ResultsRecorded(old(db.labOrders)) ==> ResultsRecorded(db.labOrders)
    {
      db := db.(labOrders := db.labOrders + [NewLabOrder(orderId, patientId, testTypeId, now)]);
    }

    /** Mark the first order with id `orderId` Resulted with `resultText`, replacing any earlier text. */
    method ResultLabOrder(orderId: Id, resultText: string) returns (r: Outcome<Error>)
      modifies this
      ensures var found := FirstIndex(old(db.labOrders), LabOrderKey, orderId);
        r == if found.None? then Fail(NoMatch) else Pass
      ensures r.Fail? ==> db == old(db)
      ensures r.Pass? ==>
        var i := FirstIndex(old(db.labOrders), LabOrderKey, orderId).value;
        && db == old(db).(labOrders := db.labOrders)
        && |db.labOrders| == |old(db.labOrders)|
        && db.labOrders[i] == old(db.labOrders)[i].(status := Resulted, resultText := Some(resultText))
        && (forall j :: 0 <= j < |db.labOrders| && j != i ==> db.labOrders[j] == old(db.labOrders)[j])
      ensures ResultsRecorded(old(db.labOrders)) ==> ResultsRecorded(db.labOrders)
    {
      var found := FirstIndex(db.labOrders, LabOrderKey, orderId);
      if found.None? {
        return Fail(NoMatch);
      }
      var i := found.value;
      var o := db.labOrders[i];
      o := o.(status := Resulted);
      o := o.(resultText := Some(resultText));
      db := db.(labOrders := db.labOrders[i := o]);
      r := Pass;
    }

    // Billing

    /**
     * The LAB items for the given lab-order ids, in input order, the k-th with
     * identifier itemIds[k]; NoMatch as soon as an order or its test type does not resolve.
     */
    method LabItems(labOrderIds: seq<Id>, itemIds: seq<Id>) returns (r: Result<seq<InvoiceItem>, Error>)
      requires |itemIds| == |labOrderIds|
      ensures r.Success? <==> forall k :: 0 <= k < |labOrderIds| ==> ResolveLab(db, labOrderIds[k]).Some?
      ensures r.Failure? ==> r.error == NoMatch
      ensures r.Success? ==> |r.value| == |labOrderIds|
      ensures r.Success? ==> forall k :: 0 <= k < |labOrderIds| ==>
        r.value[k] == LabItem(itemIds[k], ResolveLab(db, labOrderIds[k]).value.0, ResolveLab(db, labOrderIds[k]).value.1)
    {
      var items: seq<InvoiceItem> := [];
      for k := 0 to |labOrderIds|
        invariant |items| == k
        invariant forall j :: 0 <= j < k ==>
          ResolveLab(db, labOrderIds[j]).Some? &&
          items[j] == LabItem(itemIds[j], ResolveLab(db, labOrderIds[j]).value.0, ResolveLab(db, labOrderIds[j]).value.1)
      {
        var oi := FirstIndex(db.labOrders, LabOrderKey, labOrderIds[k]);
        if oi.None? {
          assert ResolveLab(db, labOrderIds[k]).None?;
          return Failure(NoMatch);
        }
        var o := db.labOrders[oi.value];
        var ti := FirstIndex(db.labTestTypes, TestTypeKey, o.testTypeId);
        if ti.None? {
          assert ResolveLab(db, labOrderIds[k]).None?;
          return Failure(NoMatch);
        }
        var tt := db.labTestTypes[ti.value];
        assert ResolveLab(db, labOrderIds[k]) == Some((o, tt));
        items := items + [LabItem(itemIds[k], o, tt)];
      }
      r := Success(items);
    }

    /**
     * The FARM items for the given dispense ids, in input order, the k-th with
     * identifier itemIds[k]; NoMatch as soon as a dispense or its medication does not resolve.
     */
    method PharmacyItems(dispenseIds: seq<Id>, itemIds: seq<Id>) returns (r: Result<seq<InvoiceItem>, Error>)
      requires |itemIds| == |dispenseIds|
      ensures r.Success? <==> forall k :: 0 <= k < |dispenseIds| ==> ResolveDispense(db, dispenseIds[k]).Some?
      ensures r.Failure? ==> r.error == NoMatch
      ensures r.Success? ==> |r.value| == |dispenseIds|
      ensures r.Success? ==> forall k :: 0 <= k < |dispenseIds| ==>
        r.value[k] == PharmacyItem(itemIds[k], ResolveDispense(db, dispenseIds[k]).value.0,
                                   ResolveDispense(db, dispenseIds[k]).value.1)
    {
      var items: seq<InvoiceItem> := [];
      for k := 0 to |dispenseIds|
        invariant |items| == k
        invariant forall j :: 0 <= j < k ==>
          ResolveDispense(db, dispenseIds[j]).Some? &&
          items[j] == PharmacyItem(itemIds[j], ResolveDispense(db, dispenseIds[j]).value.0,
                                   ResolveDispense(db, dispenseIds[j]).value.1)
      {
        var di := FirstIndex(db.dispenses, DispenseKey, dispenseIds[k]);
        if di.None? {
          assert ResolveDispense(db, dispenseIds[k]).None?;
          return Failure(NoMatch);
        }
        var x := db.dispenses[di.value];
        var mi := FirstIndex(db.medications, MedicationKey, x.medicationId);
        if mi.None? {
          assert ResolveDispense(db, dispenseIds[k]).None?;
          return Failure(NoMatch);
        }
        var med := db.medications[mi.value];
        assert ResolveDispense(db, dispenseIds[k]) == Some((x, med));
        items := items + [PharmacyItem(itemIds[k], x, med)];
      }
      r := Success(items);
    }

    /**
     * The invoice `invoiceId` dated `now` for the patient: its LAB items, then
     * its FARM items; NoMatch as soon as an id does not resolve.
     */
    method BuildInvoice(patientId: Id, labOrderIds: seq<Id>, dispenseIds: seq<Id>,
                        invoiceId: Id, now: Timestamp, itemIds: seq<Id>)
      returns (r: Result<Invoice, Error>)
      requires |itemIds| == |labOrderIds| + |dispenseIds|
      ensures r.Success? <==> AllResolve(db, labOrderIds, dispenseIds)
      ensures r.Failure? ==> r.error == NoMatch
      ensures r.Success? ==> IsInvoiceFor(db, r.value, patientId, labOrderIds, dispenseIds, invoiceId, now, itemIds)
    {
      var n := |labOrderIds|;
      var inv := NewInvoice(invoiceId, patientId, now);
      var labs := LabItems(labOrderIds, itemIds[..n]);
      if labs.Failure? {
        return Failure(labs.error);
      }
      assert inv.items + labs.value == labs.value;
      inv := inv.(items := inv.items + labs.value);
      var pharmacy := PharmacyItems(dispenseIds, itemIds[n..]);
      if pharmacy.Failure? {
        return Failure(pharmacy.error);
      }
      inv := inv.(items := inv.items + pharmacy.value);
      assert inv == Invoice(invoiceId, patientId, now, labs.value + pharmacy.value);
      InvoiceOfParts(db, inv, patientId, labOrderIds, dispenseIds, invoiceId, now, itemIds, labs.value, pharmacy.value);
      r := Success(inv);
    }

    /** Build the invoice and, only when every id resolved, append it. */
    method CreateInvoice(patientId: Id, labOrderIds: seq<Id>, dispenseIds: seq<Id>,
                         invoiceId: Id, now: Timestamp, itemIds: seq<Id>)
      returns (r: Result<Invoice, Error>)
      requires |itemIds| == |labOrderIds| + |dispenseIds|
      modifies this
      ensures r.Success? <==> AllResolve(old(db), labOrderIds, dispenseIds)
      ensures r.Failure? ==> r.error == NoMatch && db == old(db)
      ensures r.Success? ==>
        && IsInvoiceFor(old(db), r.value, patientId, labOrderIds, dispenseIds, invoiceId, now, itemIds)
        && db == old(db).(invoices := old(db.invoices) + [r.value])
      ensures r.Success? ==>
        r.value.Total() == LabPrices(old(db), labOrderIds) + PharmacyUnitPrice * DispensedUnits(old(db), dispenseIds)
    {
      r := BuildInvoice(patientId, labOrderIds, dispenseIds, invoiceId, now, itemIds);
      if r.Success? {
        InvoiceTotal(db, r.value, patientId, labOrderIds, dispenseIds, invoiceId, now, itemIds);
        db := db.(invoices := db.invoices + [r.value]);
      }
    }

    // History

    /** The patient's lab, pharmacy and invoice entries, concatenated in that order. */
    function HistoryEntries(patientId: Id): (r: Option<seq<HistoryEntry>>)
      reads this
      ensures r.Some? <==>
        && (forall o :: o in db.labOrders && o.patientId == patientId ==>
              FirstIndex(db.labTestTypes, TestTypeKey, o.testTypeId).Some?)
        && (forall x :: x in db.dispenses && x.patientId == patientId ==>
              FirstIndex(db.medications, MedicationKey, x.medicationId).Some?)
      ensures r.Some? ==> (|r.value| ==
        |FilterBy(db.labOrders, LabOrderPatient, patientId)| +
        |FilterBy(db.dispenses, DispensePatient, patientId)| +
        |FilterBy(db.invoices, InvoicePatient, patientId)|)
      ensures r.Some? ==> HistoryLaidOut(FilterBy(db.labOrders, LabOrderPatient, patientId),
                                         FilterBy(db.dispenses, DispensePatient, patientId),
                                         FilterBy(db.invoices, InvoicePatient, patientId),
                                         db.labTestTypes, db.medications, r.value)
      ensures r.Some? ==> forall o :: o in db.labOrders && o.patientId == patientId ==>
        LabEntry(o, db.labTestTypes[FirstIndex(db.labTestTypes, TestTypeKey, o.testTypeId).value]) in r.value
      ensures r.Some? ==> forall x :: x in db.dispenses && x.patientId == patientId ==>
        PharmacyEntry(x, db.medications[FirstIndex(db.medications, MedicationKey, x.medicationId).value]) in r.value
      ensures r.Some? ==> forall i :: i in db.invoices && i.patientId == patientId ==> InvoiceEntry(i) in r.value
      ensures r.Some? ==> forall e :: e in r.value ==>
        || IsLabEntryOf(db.labOrders, db.labTestTypes, patientId, e)
        || IsPharmacyEntryOf(db.dispenses, db.medications, patientId, e)
        || IsInvoiceEntryOf(db.invoices, patientId, e)
    {
      LabEntriesResolve(db.labOrders, db.labTestTypes, patientId);
      PharmacyEntriesResolve(db.dispenses, db.medications, patientId);
      LabEntriesOfPatient(db.labOrders, db.labTestTypes, patientId);
      PharmacyEntriesOfPatient(db.dispenses, db.medications, patientId);
      InvoiceEntriesOfPatient(db.invoices, patientId);
      match LabEntries(FilterBy(db.labOrders, LabOrderPatient, patientId), db.labTestTypes)
      case None => None
      case Some(labs) =>
        match PharmacyEntries(FilterBy(db.dispenses, DispensePatient, patientId), db.medications)
        case None => None
        case Some(pharmacy) =>
          HistoryLayout(FilterBy(db.labOrders, LabOrderPatient, patientId),
                        FilterBy(db.dispenses, DispensePatient, patientId),
                        FilterBy(db.invoices, InvoicePatient, patientId), db.labTestTypes, db.medications);
          Some(labs + pharmacy + InvoiceEntries(FilterBy(db.invoices, InvoicePatient, patientId)))
    }

    /**
     * The patient's history, most recent first. Fails with NoMatch when one of
     * the patient's lab orders or dispenses names a test type or medication
     * that does not exist.
     */
    function GetHistory(patientId: Id): (r: Result<seq<HistoryEntry>, Error>)
      reads this
      ensures r.Failure? ==> r.error == NoMatch
      ensures r.Success? <==> HistoryEntries(patientId).Some?
      ensures r.Success? ==> (|r.value| ==
        |FilterBy(db.labOrders, LabOrderPatient, patientId)| +
        |FilterBy(db.dispenses, DispensePatient, patientId)| +
        |FilterBy(db.invoices, InvoicePatient, patientId)|)
      ensures r.Success? ==> multiset(r.value) == multiset(HistoryEntries(patientId).value)
      ensures r.Success? ==> forall i, j :: 0 <= i < j < |r.value| ==> r.value[i].when >= r.value[j].when
    {
      match HistoryEntries(patientId)
      case None => Failure(NoMatch)
      case Some(entries) =>
        NewestFirstIsTotalPreorder(EntryDate);
        var sorted := SortBy(entries, NewestFirst(EntryDate));
        SortedNewestFirst(sorted, EntryDate);
        Success(sorted)
    }
  }

  /**
   * `e` lists, in this order, one lab entry per order of `f` (made with its
   * first matching test type), one pharmacy entry per dispense of `g` (made
   * with its first matching medication) and one invoice entry per invoice of `h`.
   */
  ghost predicate HistoryLaidOut(f: seq<LabOrder>, g: seq<Dispense>, h: seq<Invoice>,
                                 types: seq<LabTestType>, meds: seq<Medication>, e: seq<HistoryEntry>)
  {
    && |e| == |f| + |g| + |h|
    && (forall k :: 0 <= k < |f| ==>
          FirstIndex(types, TestTypeKey, f[k].testTypeId).Some? &&
          e[k] == LabEntry(f[k], types[FirstIndex(types, TestTypeKey, f[k].testTypeId).value]))
    && (forall k :: 0 <= k < |g| ==>
          FirstIndex(meds, MedicationKey, g[k].medicationId).Some? &&
          e[|f| + k] == PharmacyEntry(g[k], meds[FirstIndex(meds, MedicationKey, g[k].medicationId).value]))
    && (forall k :: 0 <= k < |h| ==> e[|f| + |g| + k] == InvoiceEntry(h[k]))
  }

  /** The `k`th element of the first part of a concatenation. */
  lemma FirstPart<T>(a: seq<T>, b: seq<T>, c: seq<T>, k: int)
    requires 0 <= k < |a|
    ensures (a + b + c)[k] == a[k]
  {
  }

  /** The `k`th element of the second part of a concatenation. */
  lemma SecondPart<T>(a: seq<T>, b: seq<T>, c: seq<T>, k: int)
    requires 0 <= k < |b|
    ensures (a + b + c)[|a| + k] == b[k]
  {
  }

  /** The `k`th element of the third part of a concatenation. */
  lemma ThirdPart<T>(a: seq<T>, b: seq<T>, c: seq<T>, k: int)
    requires 0 <= k < |c|
    ensures (a + b + c)[|a| + |b| + k] == c[k]
  {
  }

  /** Where each lab order, dispense and invoice lands in the concatenated history. */
  lemma HistoryLayout(f: seq<LabOrder>, g: seq<Dispense>, h: seq<Invoice>,
                      types: seq<LabTestType>, meds: seq<Medication>)
    requires LabEntries(f, types).Some? && PharmacyEntries(g, meds).Some?
    ensures HistoryLaidOut(f, g, h, types, meds,
                           LabEntries(f, types).value + PharmacyEntries(g, meds).value + InvoiceEntries(h))
  {
    var labs := LabEntries(f, types).value;
    var pharmacy := PharmacyEntries(g, meds).value;
    var invoices := InvoiceEntries(h);
    LabsInHistory(f, types, labs, pharmacy, invoices);
    DispensesInHistory(f, g, meds, labs, pharmacy, invoices);
    InvoicesInHistory(f, g, h, labs, pharmacy);
  }

  /** The lab entries open the history, one per order of `f`. */
  lemma LabsInHistory(f: seq<LabOrder>, types: seq<LabTestType>,
                      labs: seq<HistoryEntry>, pharmacy: seq<HistoryEntry>, invoices: seq<HistoryEntry>)
    requires LabEntries(f, types) == Some(labs)
    ensures forall k :: 0 <= k < |f| ==>
      FirstIndex(types, TestTypeKey, f[k].testTypeId).Some? &&
      (labs + pharmacy + invoices)[k] == LabEntry(f[k], types[FirstIndex(types, TestTypeKey, f[k].testTypeId).value])
  {
    forall k | 0 <= k < |f|
      ensures FirstIndex(types, TestTypeKey, f[k].testTypeId).Some?
      ensures (labs + pharmacy + invoices)[k] == LabEntry(f[k], types[FirstIndex(types, TestTypeKey, f[k].testTypeId).value])
    {
      FirstPart(labs, pharmacy, invoices, k);
    }
  }

  /** The pharmacy entries follow the lab entries, one per dispense of `g`. */
  lemma DispensesInHistory(f: seq<LabOrder>, g: seq<Dispense>, meds: seq<Medication>,
                           labs: seq<HistoryEntry>, pharmacy: seq<HistoryEntry>, invoices: seq<HistoryEntry>)
    requires |labs| == |f| && |pharmacy| == |g|
    requires forall k :: 0 <= k < |g| ==>
      FirstIndex(meds, MedicationKey, g[k].medicationId).Some? &&
      pharmacy[k] == PharmacyEntry(g[k], meds[FirstIndex(meds, MedicationKey, g[k].medicationId).value])
    ensures forall k :: 0 <= k < |g| ==>
      FirstIndex(meds, MedicationKey, g[k].medicationId).Some? &&
      (labs + pharmacy + invoices)[|f| + k] == PharmacyEntry(g[k], meds[FirstIndex(meds, MedicationKey, g[k].medicationId).value])
  {
    forall k | 0 <= k < |g|
      ensures FirstIndex(meds, MedicationKey, g[k].medicationId).Some?
      ensures (labs + pharmacy + invoices)[|f| + k] == PharmacyEntry(g[k], meds[FirstIndex(meds, MedicationKey, g[k].medicationId).value])
    {
      SecondPart(labs, pharmacy, invoices, k);
    }
  }

  /** The invoice entries close the history, one per invoice of `h`. */
  lemma InvoicesInHistory(f: seq<LabOrder>, g: seq<Dispense>, h: seq<Invoice>,
                          labs: seq<HistoryEntry>, pharmacy: seq<HistoryEntry>)
    requires |labs| == |f| && |pharmacy| == |g|
    ensures forall k :: 0 <= k < |h| ==>
      (labs + pharmacy + InvoiceEntries(h))[|f| + |g| + k] == InvoiceEntry(h[k])
  {
    forall k | 0 <= k < |h| ensures (labs + pharmacy + InvoiceEntries(h))[|f| + |g| + k] == InvoiceEntry(h[k]) {
      ThirdPart(labs, pharmacy, InvoiceEntries(h), k);
    }
  }

  /** The patient's lab entries exist exactly when each of the patient's orders names an existing test type. */
  lemma LabEntriesResolve(orders: seq<LabOrder>, types: seq<LabTestType>, p: Id)
    ensures LabEntries(FilterBy(orders, LabOrderPatient, p), types).Some? <==>
      forall o :: o in orders && o.patientId == p ==> FirstIndex(types, TestTypeKey, o.testTypeId).Some?
  {
    var f := FilterBy(orders, LabOrderPatient, p);
    OwnedAreFiltered(orders, LabOrderPatient, p);
    if forall o :: o in orders && o.patientId == p ==> FirstIndex(types, TestTypeKey, o.testTypeId).Some? {
      forall k | 0 <= k < |f| ensures FirstIndex(types, TestTypeKey, f[k].testTypeId).Some? {
        assert f[k] in f;
      }
    }
  }

  /** The patient's pharmacy entries exist exactly when each of the patient's dispenses names an existing medication. */
  lemma PharmacyEntriesResolve(dispenses: seq<Dispense>, meds: seq<Medication>, p: Id)
    ensures PharmacyEntries(FilterBy(dispenses, DispensePatient, p), meds).Some? <==>
      forall x :: x in dispenses && x.patientId == p ==> FirstIndex(meds, MedicationKey, x.medicationId).Some?
  {
    var f := FilterBy(dispenses, DispensePatient, p);
    OwnedAreFiltered(dispenses, DispensePatient, p);
    if forall x :: x in dispenses && x.patientId == p ==> FirstIndex(meds, MedicationKey, x.medicationId).Some? {
      forall k | 0 <= k < |f| ensures FirstIndex(meds, MedicationKey, f[k].medicationId).Some? {
        assert f[k] in f;
      }
    }
  }

  /** `e` is the history entry of one of the patient's lab orders, made with the order's first matching test type. */
  ghost predicate IsLabEntryOf(orders: seq<LabOrder>, types: seq<LabTestType>, p: Id, e: HistoryEntry)
  {
    exists o :: o in orders && o.patientId == p && FirstIndex(types, TestTypeKey, o.testTypeId).Some? &&
      e == LabEntry(o, types[FirstIndex(types, TestTypeKey, o.testTypeId).value])
  }

  /** `e` is the history entry of one of the patient's dispenses, made with the dispense's first matching medication. */
  ghost predicate IsPharmacyEntryOf(dispenses: seq<Dispense>, meds: seq<Medication>, p: Id, e: HistoryEntry)
  {
    exists x :: x in dispenses && x.patientId == p && FirstIndex(meds, MedicationKey, x.medicationId).Some? &&
      e == PharmacyEntry(x, meds[FirstIndex(meds, MedicationKey, x.medicationId).value])
  }

  /** `e` is the history entry of one of the patient's invoices. */
  ghost predicate IsInvoiceEntryOf(invoices: seq<Invoice>, p: Id, e: HistoryEntry)
  {
    exists i :: i in invoices && i.patientId == p && e == InvoiceEntry(i)
  }

  /** The patient's lab entries, when they exist, are exactly those of the patient's orders. */
  lemma LabEntriesOfPatient(orders: seq<LabOrder>, types: seq<LabTestType>, p: Id)
    ensures var r := LabEntries(FilterBy(orders, LabOrderPatient, p), types);
      r.Some? ==>
        && (forall o :: o in orders && o.patientId == p ==>
              FirstIndex(types, TestTypeKey, o.testTypeId).Some? &&
              LabEntry(o, types[FirstIndex(types, TestTypeKey, o.testTypeId).value]) in r.value)
        && (forall e :: e in r.value ==> IsLabEntryOf(orders, types, p, e))
  {
    var f := FilterBy(orders, LabOrderPatient, p);
    var r := LabEntries(f, types);
    OwnedAreFiltered(orders, LabOrderPatient, p);
    if r.Some? {
      forall o | o in orders && o.patientId == p
        ensures FirstIndex(types, TestTypeKey, o.testTypeId).Some?
        ensures LabEntry(o, types[FirstIndex(types, TestTypeKey, o.testTypeId).value]) in r.value
      {
        var k :| 0 <= k < |f| && f[k] == o;
        assert r.value[k] == LabEntry(f[k], types[FirstIndex(types, TestTypeKey, f[k].testTypeId).value]);
      }
      forall e | e in r.value ensures IsLabEntryOf(orders, types, p, e) {
        var k :| 0 <= k < |r.value| && r.value[k] == e;
        assert f[k] in f;
      }
    }
  }

  /** The patient's pharmacy entries, when they exist, are exactly those of the patient's dispenses. */
  lemma PharmacyEntriesOfPatient(dispenses: seq<Dispense>, meds: seq<Medication>, p: Id)
    ensures var r := PharmacyEntries(FilterBy(dispenses, DispensePatient, p), meds);
      r.Some? ==>
        && (forall x :: x in dispenses && x.patientId == p ==>
              FirstIndex(meds, MedicationKey, x.medicationId).Some? &&
              PharmacyEntry(x, meds[FirstIndex(meds, MedicationKey, x.medicationId).value]) in r.value)
        && (forall e :: e in r.value ==> IsPharmacyEntryOf(dispenses, meds, p, e))
  {
    var f := FilterBy(dispenses, DispensePatient, p);
    var r := PharmacyEntries(f, meds);
    OwnedAreFiltered(dispenses, DispensePatient, p);
    if r.Some? {
      forall x | x in dispenses && x.patientId == p
        ensures FirstIndex(meds, MedicationKey, x.medicationId).Some?
        ensures PharmacyEntry(x, meds[FirstIndex(meds, MedicationKey, x.medicationId).value]) in r.value
      {
        var k :| 0 <= k < |f| && f[k] == x;
        assert r.value[k] == PharmacyEntry(f[k], meds[FirstIndex(meds, MedicationKey, f[k].medicationId).value]);
      }
      forall e | e in r.value ensures IsPharmacyEntryOf(dispenses, meds, p, e) {
        var k :| 0 <= k < |r.value| && r.value[k] == e;
        assert f[k] in f;
      }
    }
  }

  /** The patient's invoice entries are exactly those of the patient's invoices. */
  lemma InvoiceEntriesOfPatient(invoices: seq<Invoice>, p: Id)
    ensures var r := InvoiceEntries(FilterBy(invoices, InvoicePatient, p));
      && (forall i :: i in invoices && i.patientId == p ==> InvoiceEntry(i) in r)
      && (forall e :: e in r ==> IsInvoiceEntryOf(invoices, p, e))
  {
    var f := FilterBy(invoices, InvoicePatient, p);
    var r := InvoiceEntries(f);
    OwnedAreFiltered(invoices, InvoicePatient, p);
    forall i | i in invoices && i.patientId == p ensures InvoiceEntry(i) in r {
      var k :| 0 <= k < |f| && f[k] == i;
      assert r[k] == InvoiceEntry(i);
    }
    forall e | e in r ensures IsInvoiceEntryOf(invoices, p, e) {
      var k :| 0 <= k < |r| && r[k] == e;
      assert f[k] in f;
    }
  }

  /** Element `x` of `s` owned by `p` is among the filtered elements, and conversely. */
  lemma OwnedAreFiltered<T(!new)>(s: seq<T>, owner: T -> int, p: int)
    ensures forall x :: x in s && owner(x) == p <==> x in FilterBy(s, owner, p)
  {
  }

  /**
   * A patient with one lab order at t1, one dispense at t2 and one invoice at t3,
   * t1 < t2 < t3, has the history [invoice, dispense, lab order].
   */
  lemma HistoryNewestFirstExample(s: HospitalService, p: Id, o: LabOrder, tt: LabTestType,
                                  x: Dispense, m: Medication, inv: Invoice)
    requires o.patientId == p && x.patientId == p && inv.patientId == p
    requires o.testTypeId == tt.id && x.medicationId == m.id
    requires o.date < x.date < inv.date
    requires s.db == HospitalData([], [m], [x], [tt], [o], [inv])
    ensures s.GetHistory(p) == Success([InvoiceEntry(inv), PharmacyEntry(x, m), LabEntry(o, tt)])
  {
    ExampleEntries(s, p, o, tt, x, m, inv);
    HistoryOfThree(s, p, LabEntry(o, tt), PharmacyEntry(x, m), InvoiceEntry(inv));
  }

  /** Three unsorted entries with strictly increasing dates give the history in reverse order. */
  lemma HistoryOfThree(s: HospitalService, p: Id, a: HistoryEntry, b: HistoryEntry, c: HistoryEntry)
    requires s.HistoryEntries(p).Some? && multiset(s.HistoryEntries(p).value) == multiset([a, b, c])
    requires a.when < b.when < c.when
    ensures s.GetHistory(p) == Success([c, b, a])
  {
    var h := s.GetHistory(p);
    assert h.Success? && multiset(h.value) == multiset([a, b, c]);
    NewestFirstOfThree(h.value, a, b, c);
  }

  lemma ExampleEntries(s: HospitalService, p: Id, o: LabOrder, tt: LabTestType,
                       x: Dispense, m: Medication, inv: Invoice)
    requires o.patientId == p && x.patientId == p && inv.patientId == p
    requires o.testTypeId == tt.id && x.medicationId == m.id
    requires s.db == HospitalData([], [m], [x], [tt], [o], [inv])
    ensures s.HistoryEntries(p) == Some([LabEntry(o, tt), PharmacyEntry(x, m), InvoiceEntry(inv)])
  {
    assert FilterBy([o], LabOrderPatient, p) == [o];
    assert FilterBy([x], DispensePatient, p) == [x];
    assert FilterBy([inv], InvoicePatient, p) == [inv];
    assert FirstIndex([tt], TestTypeKey, o.testTypeId) == Some(0);
    assert FirstIndex([m], MedicationKey, x.medicationId) == Some(0);
    var labs := LabEntries([o], [tt]).value;
    assert |labs| == 1 && labs[0] == LabEntry(o, tt);
    assert labs == [LabEntry(o, tt)];
    var pharmacy := PharmacyEntries([x], [m]).value;
    assert |pharmacy| == 1 && pharmacy[0] == PharmacyEntry(x, m);
    assert pharmacy == [PharmacyEntry(x, m)];
    assert InvoiceEntries([inv]) == [InvoiceEntry(inv)];
    assert labs + pharmacy + [InvoiceEntry(inv)] == [LabEntry(o, tt), PharmacyEntry(x, m), InvoiceEntry(inv)];
  }

  /** Three entries with strictly increasing timestamps, ordered newest first, come out reversed. */
  lemma NewestFirstOfThree(r: seq<HistoryEntry>, a: HistoryEntry, b: HistoryEntry, c: HistoryEntry)
    requires a.when < b.when < c.when
    requires multiset(r) == multiset([a, b, c])
    requires forall i, j :: 0 <= i < j < |r| ==> r[i].when >= r[j].when
    ensures r == [c, b, a]
  {
  }
}
