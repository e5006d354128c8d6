/**
 * The entity records of the hospital portal and the aggregate that holds them.
 *
 * Identifiers (Guid in the source) and timestamps (DateTime) are opaque integers
 * supplied by the caller; money (decimal in the source) is integer cents.
 */
module HospitalModels {
  import opened Wrappers

  type Id = int
  type Timestamp = int
  /** An amount of money in cents: 12.00 is 1200, 2.50 is 250. */
  type Money = int

  /** A calendar date, used for the optional birth date of a patient. */
  datatype Date = Date(year: int, month: int, day: int)

  datatype Patient = Patient(id: Id, document: string, fullName: string, birthDate: Option<Date>)

  datatype Medication = Medication(id: Id, name: string, stock: int)

  datatype Dispense = Dispense(id: Id, patientId: Id, medicationId: Id, quantity: int, date: Timestamp)

  datatype LabTestType = LabTestType(id: Id, code: string, name: string, price: Money)

  datatype LabOrderStatus = Pending | Resulted

  datatype LabOrder = LabOrder(
    id: Id,
    patientId: Id,
    testTypeId: Id,
    date: Timestamp,
    status: LabOrderStatus,
    resultText: Option<string>)

  /** The item kinds the service writes into an invoice. */
  const LabKind: string := "LAB"
  const PharmacyKind: string := "FARM"

  datatype InvoiceItem = InvoiceItem(id: Id, kind: string, refId: Id, description: string, amount: Money)

  datatype Invoice = Invoice(id: Id, patientId: Id, date: Timestamp, items: seq<InvoiceItem>) {

    /** The invoice total: computed from the items on every read, never stored. */
    function Total(): Money {
      SumAmounts(items)
    }
  }

  /** The sum of the amounts of `items`. */
  function SumAmounts(items: seq<InvoiceItem>): Money
  {
    if items == [] then 0 else items[0].amount + SumAmounts(items[1..])
  }

  /** Totals add up over concatenated item lists, so the total does not depend on how items are grouped. */
  lemma {:induction false} SumAmountsAppend(a: seq<InvoiceItem>, b: seq<InvoiceItem>)
    ensures SumAmounts(a + b) == SumAmounts(a) + SumAmounts(b)
  {
    if a == [] {
      assert a + b == b;
    } else {
      assert (a + b)[1..] == a[1..] + b;
      SumAmountsAppend(a[1..], b);
    }
  }

  /** A fresh invoice: no items yet, so its total is zero. */
  function NewInvoice(id: Id, patientId: Id, date: Timestamp): (inv: Invoice)
    ensures inv.id == id && inv.patientId == patientId && inv.date == date
    ensures inv.items == [] && inv.Total() == 0
  {
    Invoice(id, patientId, date, [])
  }

  /** A fresh lab order: Pending, with no result text. */
  function NewLabOrder(id: Id, patientId: Id, testTypeId: Id, date: Timestamp): (o: LabOrder)
    ensures o.id == id && o.patientId == patientId && o.testTypeId == testTypeId && o.date == date
    ensures o.status == Pending && o.resultText == None
  {
    LabOrder(id, patientId, testTypeId, date, Pending, None)
  }

  /** The aggregate root: the six collections of the portal, persisted as one unit. */
  datatype HospitalData = HospitalData(
    patients: seq<Patient>,
    medications: seq<Medication>,
    dispenses: seq<Dispense>,
    labTestTypes: seq<LabTestType>,
    labOrders: seq<LabOrder>,
    invoices: seq<Invoice>)

  /** A new aggregate: every collection is empty. */
  function EmptyData(): (d: HospitalData)
    ensures d.patients == [] && d.medications == [] && d.dispenses == []
    ensures d.labTestTypes == [] && d.labOrders == [] && d.invoices == []
  {
    HospitalData([], [], [], [], [], [])
  }
}
