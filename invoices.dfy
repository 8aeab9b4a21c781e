/**
 * The invoice page: a list of invoices with search, a status filter, per-status
 * counts and pagination, and a modal that views an invoice or edits the draft
 * form (customer details, line items, tax rate, discount, notes).
 *
 * Money is exact (`real`): the page's floating-point rounding and `toFixed`
 * display are not modelled. The id of a new line item (`Date.now()`) and the
 * default issue date (`new Date()`) are parameters.
 */
module Invoices {
  import opened Wrappers
  import opened Text
  import opened Collections

  datatype InvoiceStatus = Draft | Paid | Cancelled
  datatype StatusFilter = AllStatuses | OnlyStatus(status: InvoiceStatus)
  datatype ModalMode = CreateMode | ViewMode | EditMode

  datatype InvoiceItem = InvoiceItem(id: string, description: string, quantity: real, unitPrice: real, total: real)

  datatype Invoice = Invoice(
    id: int,
    invoiceNumber: string,
    customerName: string,
    customerEmail: string,
    customerPhone: string,
    plateNumber: string,
    vehicle: string,
    issueDate: string,
    status: InvoiceStatus,
    items: seq<InvoiceItem>,
    subtotal: real,
    taxRate: real,
    taxAmount: real,
    discount: real,
    total: real,
    notes: Option<string>,
    bookingId: Option<string>)

  /** The create/edit form. */
  datatype InvoiceForm = InvoiceForm(
    customerName: string,
    customerEmail: string,
    customerPhone: string,
    plateNumber: string,
    vehicle: string,
    issueDate: string,
    status: InvoiceStatus,
    items: seq<InvoiceItem>,
    taxRate: real,
    discount: real,
    notes: string)

  /** One input of the form other than the item rows. */
  datatype FormField =
    | CustomerName(text: string)
    | CustomerEmail(text: string)
    | CustomerPhone(text: string)
    | PlateNumber(text: string)
    | Vehicle(text: string)
    | IssueDate(text: string)
    | TaxRate(rate: real)
    | Discount(amount: real)
    | Notes(text: string)

  /** One cell of an item row: the `field` and `value` of `updateItemTotal`. */
  datatype ItemEdit = SetDescription(text: string) | SetQuantity(quantity: real) | SetUnitPrice(unitPrice: real)

  datatype Totals = Totals(subtotal: real, taxAmount: real, total: real)

  datatype InvoiceStats = InvoiceStats(total: nat, draft: nat, paid: nat, cancelled: nat)

  const ItemsPerPage: nat := 6

  // ---------------------------------------------------------------------------
  // Invoice numbers

  /** `INV-2025-` followed by `n` padded to three digits. */
  function InvoiceNumber(n: nat): string {
    "INV-2025-" + PadNumber(n, 3)
  }

  lemma InvoiceNumberInjective(a: nat, b: nat)
    requires InvoiceNumber(a) == InvoiceNumber(b)
    ensures a == b
  {
    assert PadNumber(a, 3) == InvoiceNumber(a)[9..];
    PadNumberInjective(a, b, 3);
  }

  /** Invoice `i` (from 0) has id `i + 1` and the matching invoice number. */
  ghost predicate NumberedInOrder(invoices: seq<Invoice>) {
    forall i :: 0 <= i < |invoices| ==> invoices[i].id == i + 1 && invoices[i].invoiceNumber == InvoiceNumber(i + 1)
  }

  /** Invoices numbered in order never share an invoice number. */
  lemma InvoiceNumbersUnique(invoices: seq<Invoice>)
    requires NumberedInOrder(invoices)
    ensures forall i, j :: 0 <= i < j < |invoices| ==> invoices[i].invoiceNumber != invoices[j].invoiceNumber
  {
    forall i, j | 0 <= i < j < |invoices|
      ensures invoices[i].invoiceNumber != invoices[j].invoiceNumber
    {
      if invoices[i].invoiceNumber == invoices[j].invoiceNumber {
        InvoiceNumberInjective(i + 1, j + 1);
      }
    }
  }

  /** In a list numbered in order, the invoice with a given id sits at position id - 1, and only there. */
  lemma PositionOfId(invoices: seq<Invoice>, inv: Invoice)
    requires NumberedInOrder(invoices) && inv in invoices
    ensures 1 <= inv.id <= |invoices| && invoices[inv.id - 1] == inv
    ensures forall k :: 0 <= k < |invoices| && k != inv.id - 1 ==> invoices[k].id != inv.id
  {
    var m :| 0 <= m < |invoices| && invoices[m] == inv;
  }

  // ---------------------------------------------------------------------------
  // Line items and totals

  /** A line's total is its quantity times its unit price. */
  ghost predicate LineConsistent(item: InvoiceItem) {
    item.total == item.quantity * item.unitPrice
  }

  ghost predicate LinesConsistent(items: seq<InvoiceItem>) {
    forall k :: 0 <= k < |items| ==> LineConsistent(items[k])
  }

  function ItemId(item: InvoiceItem): string {
    item.id
  }

  ghost predicate DistinctItemIds(items: seq<InvoiceItem>) {
    DistinctBy(items, ItemId)
  }

  /** `items.reduce((sum, item) => sum + item.total, 0)`: a left fold over the stored line totals. */
  function Subtotal(items: seq<InvoiceItem>): real {
    if items == [] then 0.0 else Subtotal(items[..|items| - 1]) + items[|items| - 1].total
  }

  /** Reference sum of quantity times unit price, independent of the stored line totals. */
  function LineSum(items: seq<InvoiceItem>): real {
    if items == [] then 0.0 else items[0].quantity * items[0].unitPrice + LineSum(items[1..])
  }

  /** `calculateTotals`: subtotal, tax at `taxRate` percent, and the total less the discount. */
  function CalculateTotals(items: seq<InvoiceItem>, taxRate: real, discount: real): Totals {
    var subtotal := Subtotal(items);
    var taxAmount := subtotal * taxRate / 100.0;
    Totals(subtotal, taxAmount, subtotal + taxAmount - discount)
  }

  lemma {:induction false} LineSumAppend(items: seq<InvoiceItem>, item: InvoiceItem)
    ensures LineSum(items + [item]) == LineSum(items) + item.quantity * item.unitPrice
  {
    if items != [] {
      assert (items + [item])[1..] == items[1..] + [item];
      LineSumAppend(items[1..], item);
    }
  }

  /** When every line is consistent, the subtotal is the sum of quantity times unit price. */
  lemma {:induction false} SubtotalIsLineSum(items: seq<InvoiceItem>)
    requires LinesConsistent(items)
    ensures Subtotal(items) == LineSum(items)
  {
    if items != [] {
      var init := items[..|items| - 1];
      var last := items[|items| - 1];
      assert items == init + [last];
      SubtotalIsLineSum(init);
      LineSumAppend(init, last);
    }
  }

  /**
   * The grand total of consistent lines is the line sum plus tax, less the
   * discount, and the tax is `taxRate` percent of the line sum.
   */
  lemma TotalsOfConsistentLines(items: seq<InvoiceItem>, taxRate: real, discount: real)
    requires LinesConsistent(items)
    ensures CalculateTotals(items, taxRate, discount).subtotal == LineSum(items)
    ensures CalculateTotals(items, taxRate, discount).taxAmount == LineSum(items) * taxRate / 100.0
    ensures CalculateTotals(items, taxRate, discount).total == LineSum(items) * (1.0 + taxRate / 100.0) - discount
  {
    SubtotalIsLineSum(items);
  }

  /** Nothing bounds the discount: a discount larger than subtotal plus tax makes the total negative. */
  lemma NegativeTotalWitness()
    ensures CalculateTotals([InvoiceItem("1", "", 1.0, 10.0, 10.0)], 10.0, 20.0).total == -9.0
  {
    var items := [InvoiceItem("1", "", 1.0, 10.0, 10.0)];
    assert items[..0] == [];
  }

  /** A fresh line item: empty description, quantity 1, unit price 0, total 0. */
  function EmptyItem(id: string): InvoiceItem {
    InvoiceItem(id, "", 1.0, 0.0, 0.0)
  }

  /** One cell edit on an item; a quantity or unit price edit recomputes the line total. */
  function EditItem(item: InvoiceItem, edit: ItemEdit): InvoiceItem {
    match edit
    case SetDescription(text) => item.(description := text)
    case SetQuantity(q) => item.(quantity := q, total := q * item.unitPrice)
    case SetUnitPrice(p) => item.(unitPrice := p, total := item.quantity * p)
  }

  /** `updateItemTotal`: the edit is applied to every item with that id. */
  function UpdateItems(items: seq<InvoiceItem>, itemId: string, edit: ItemEdit): seq<InvoiceItem> {
    MapWhere(items, (it: InvoiceItem) => it.id == itemId, (it: InvoiceItem) => EditItem(it, edit))
  }

  /**
   * After a quantity or unit price edit the edited line's total is its quantity
   * times its unit price; a description edit keeps the total; every item with
   * another id is unchanged, and ids and order are kept.
   */
  lemma UpdateItemsEffect(items: seq<InvoiceItem>, itemId: string, edit: ItemEdit)
    ensures |UpdateItems(items, itemId, edit)| == |items|
    ensures forall k :: 0 <= k < |items| ==> UpdateItems(items, itemId, edit)[k].id == items[k].id
    ensures forall k :: 0 <= k < |items| && items[k].id != itemId ==> UpdateItems(items, itemId, edit)[k] == items[k]
    ensures forall k :: 0 <= k < |items| && items[k].id == itemId && !edit.SetDescription? ==>
      LineConsistent(UpdateItems(items, itemId, edit)[k])
    ensures forall k :: 0 <= k < |items| && items[k].id == itemId && edit.SetDescription? ==>
      UpdateItems(items, itemId, edit)[k] == items[k].(description := edit.text)
  {
  }

  /** Cell edits keep every line consistent. */
  lemma UpdateItemsKeepsLines(items: seq<InvoiceItem>, itemId: string, edit: ItemEdit)
    requires LinesConsistent(items)
    ensures LinesConsistent(UpdateItems(items, itemId, edit))
    ensures DistinctItemIds(items) ==> DistinctItemIds(UpdateItems(items, itemId, edit))
  {
    UpdateItemsEffect(items, itemId, edit);
  }

  /** `addItem`: one empty row is appended. */
  function AddItemTo(items: seq<InvoiceItem>, newId: string): seq<InvoiceItem> {
    items + [EmptyItem(newId)]
  }

  /** Appending an empty row changes none of the totals. */
  lemma AddItemKeepsTotals(items: seq<InvoiceItem>, newId: string, taxRate: real, discount: real)
    ensures CalculateTotals(AddItemTo(items, newId), taxRate, discount) == CalculateTotals(items, taxRate, discount)
  {
    assert AddItemTo(items, newId)[..|items|] == items;
  }

  /** `removeItem`: the items with that id are filtered out, unless only one row is left. */
  function RemoveItemFrom(items: seq<InvoiceItem>, itemId: string): seq<InvoiceItem> {
    if |items| > 1 then Filter(items, (it: InvoiceItem) => it.id != itemId) else items
  }

  /**
   * Removing keeps the other rows in order and drops exactly the rows with that
   * id; with distinct ids at least one row always remains.
   */
  lemma RemoveItemEffect(items: seq<InvoiceItem>, itemId: string)
    requires |items| >= 1 && DistinctItemIds(items)
    ensures |items| == 1 ==> RemoveItemFrom(items, itemId) == items
    ensures |items| > 1 ==> Sublist(RemoveItemFrom(items, itemId), items)
    ensures |items| > 1 ==> forall k :: 0 <= k < |items| ==> (items[k] in RemoveItemFrom(items, itemId) <==> items[k].id != itemId)
    ensures |RemoveItemFrom(items, itemId)| >= 1
    ensures DistinctItemIds(RemoveItemFrom(items, itemId))
  {
    if |items| > 1 {
      var p := (it: InvoiceItem) => it.id != itemId;
      var r := Filter(items, p);
      FilterIsSublist(items, p);
      if exists j :: 0 <= j < |items| && items[j].id == itemId {
        var j :| 0 <= j < |items| && items[j].id == itemId;
        FilterAllButOne(items, p, j);
      } else {
        FilterKeepsAll(items, p);
      }
      SublistKeepsDistinct(r, items, ItemId);
    }
  }

  // ---------------------------------------------------------------------------
  // Forms and saved invoices

  /** `initialFormData`, dated `today`. */
  function InitialForm(today: string): InvoiceForm {
    InvoiceForm("", "", "", "", "", today, Draft, [EmptyItem("1")], 10.0, 0.0, "")
  }

  /** A form whose rows are well formed: at least one, distinct ids, consistent totals. */
  ghost predicate FormWellFormed(form: InvoiceForm) {
    |form.items| >= 1 && DistinctItemIds(form.items) && LinesConsistent(form.items)
  }

  /** The invoices as the page keeps them: numbered in order of creation, each well formed. */
  ghost predicate StoredInvoices(invoices: seq<Invoice>) {
    NumberedInOrder(invoices) && forall i :: 0 <= i < |invoices| ==> WellFormed(invoices[i])
  }

  /** The initial form holds one consistent empty row and is a draft. */
  lemma InitialFormWellFormed(today: string)
    ensures FormWellFormed(InitialForm(today)) && InitialForm(today).status == Draft
  {
    var items := InitialForm(today).items;
    assert items == [EmptyItem("1")];
  }

  /** A stored invoice: well-formed rows, and stored totals that agree with `calculateTotals`. */
  ghost predicate WellFormed(inv: Invoice) {
    |inv.items| >= 1 && DistinctItemIds(inv.items) && LinesConsistent(inv.items)
    && CalculateTotals(inv.items, inv.taxRate, inv.discount) == Totals(inv.subtotal, inv.taxAmount, inv.total)
  }

  function ApplyField(form: InvoiceForm, field: FormField): InvoiceForm {
    match field
    case CustomerName(t) => form.(customerName := t)
    case CustomerEmail(t) => form.(customerEmail := t)
    case CustomerPhone(t) => form.(customerPhone := t)
    case PlateNumber(t) => form.(plateNumber := t)
    case Vehicle(t) => form.(vehicle := t)
    case IssueDate(t) => form.(issueDate := t)
    case TaxRate(r) => form.(taxRate := r)
    case Discount(d) => form.(discount := d)
    case Notes(t) => form.(notes := t)
  }

  /** `openEditModal`: the form is loaded from the invoice; absent notes become empty text. */
  function FormOf(inv: Invoice): InvoiceForm {
    InvoiceForm(inv.customerName, inv.customerEmail, inv.customerPhone, inv.plateNumber, inv.vehicle,
                inv.issueDate, inv.status, inv.items, inv.taxRate, inv.discount,
                if inv.notes.Some? then inv.notes.value else "")
  }

  /** The status a save stores: paid when saving with "mark as paid", else the form's status. */
  function FinalStatus(markAsPaid: bool, form: InvoiceForm): InvoiceStatus {
    if markAsPaid then Paid else form.status
  }

  /** The invoice created from the form as the `n`-th invoice. */
  function NewInvoice(n: nat, form: InvoiceForm, status: InvoiceStatus): Invoice {
    var t := CalculateTotals(form.items, form.taxRate, form.discount);
    Invoice(n, InvoiceNumber(n), form.customerName, form.customerEmail, form.customerPhone,
            form.plateNumber, form.vehicle, form.issueDate, status, form.items,
            t.subtotal, form.taxRate, t.taxAmount, form.discount, t.total, Some(form.notes), None)
  }

  /** `{ ...inv, <form fields>, status, totals }`: id, invoice number and booking are kept. */
  function EditedInvoice(inv: Invoice, form: InvoiceForm, status: InvoiceStatus): Invoice {
    var t := CalculateTotals(form.items, form.taxRate, form.discount);
    inv.(customerName := form.customerName, customerEmail := form.customerEmail,
         customerPhone := form.customerPhone, plateNumber := form.plateNumber,
         vehicle := form.vehicle, issueDate := form.issueDate, status := status,
         items := form.items, subtotal := t.subtotal, taxRate := form.taxRate,
         taxAmount := t.taxAmount, discount := form.discount, total := t.total,
         notes := Some(form.notes))
  }

  /**
   * A saved invoice, created or edited, is well formed when the form is, carries
   * the form's content and the final status, and an edit keeps the invoice's
   * id, number and booking.
   */
  lemma SavedInvoiceWellFormed(inv: Invoice, n: nat, form: InvoiceForm, status: InvoiceStatus)
    requires FormWellFormed(form)
    ensures WellFormed(NewInvoice(n, form, status)) && WellFormed(EditedInvoice(inv, form, status))
    ensures NewInvoice(n, form, status).id == n && NewInvoice(n, form, status).invoiceNumber == InvoiceNumber(n)
    ensures NewInvoice(n, form, status).status == status && EditedInvoice(inv, form, status).status == status
    ensures NewInvoice(n, form, status).items == form.items && EditedInvoice(inv, form, status).items == form.items
    ensures EditedInvoice(inv, form, status).id == inv.id
    ensures EditedInvoice(inv, form, status).invoiceNumber == inv.invoiceNumber
    ensures EditedInvoice(inv, form, status).bookingId == inv.bookingId
    ensures FormOf(EditedInvoice(inv, form, status)) == form.(status := status)
  {
  }

  /** Loading a well-formed invoice into the form gives a well-formed form with its rows. */
  lemma FormOfWellFormed(inv: Invoice)
    requires WellFormed(inv)
    ensures FormWellFormed(FormOf(inv)) && FormOf(inv).items == inv.items && FormOf(inv).status == inv.status
  {
  }

  /** `{ ...inv, status }` on every invoice with that id. */
  function WithStatus(invoices: seq<Invoice>, id: int, status: InvoiceStatus): seq<Invoice> {
    MapWhere(invoices, (inv: Invoice) => inv.id == id, (inv: Invoice) => inv.(status := status))
  }

  // ---------------------------------------------------------------------------
  // Search, counts and pagination

  /** The search term occurs, ignoring case, in the invoice number, customer name or plate. */
  predicate MatchesSearch(inv: Invoice, term: string) {
    ContainsIgnoringCase(inv.invoiceNumber, term)
    || ContainsIgnoringCase(inv.customerName, term)
    || ContainsIgnoringCase(inv.plateNumber, term)
  }

  predicate MatchesStatus(inv: Invoice, filter: StatusFilter) {
    filter.AllStatuses? || inv.status == filter.status
  }

  /** `filteredInvoices` */
  function FilteredInvoices(invoices: seq<Invoice>, term: string, filter: StatusFilter): (r: seq<Invoice>)
    ensures Sublist(r, invoices)
    ensures forall i :: 0 <= i < |r| ==> MatchesSearch(r[i], term) && MatchesStatus(r[i], filter)
    ensures forall i :: 0 <= i < |invoices| && MatchesSearch(invoices[i], term) && MatchesStatus(invoices[i], filter) ==>
      invoices[i] in r
  {
    var p := (inv: Invoice) => MatchesSearch(inv, term) && MatchesStatus(inv, filter);
    FilterIsSublist(invoices, p);
    Filter(invoices, p)
  }

  /** With an empty search and the `all` filter every invoice is listed. */
  lemma EmptySearchListsAll(invoices: seq<Invoice>)
    ensures FilteredInvoices(invoices, "", AllStatuses) == invoices
  {
    var p := (inv: Invoice) => MatchesSearch(inv, "") && MatchesStatus(inv, AllStatuses);
    forall i | 0 <= i < |invoices| ensures p(invoices[i]) {
      ContainsEmpty(ToLower(invoices[i].invoiceNumber));
    }
    FilterKeepsAll(invoices, p);
  }

  function CountStatus(invoices: seq<Invoice>, status: InvoiceStatus): nat {
    Count(invoices, (inv: Invoice) => inv.status == status)
  }

  /** `stats` */
  function Stats(invoices: seq<Invoice>): InvoiceStats {
    InvoiceStats(|invoices|, CountStatus(invoices, Draft), CountStatus(invoices, Paid), CountStatus(invoices, Cancelled))
  }

  /** The draft, paid and cancelled counts add up to the number of invoices. */
  lemma StatsAddUp(invoices: seq<Invoice>)
    ensures Stats(invoices).draft + Stats(invoices).paid + Stats(invoices).cancelled == Stats(invoices).total
  {
    CountThreeWay(invoices, (inv: Invoice) => inv.status == Draft, (inv: Invoice) => inv.status == Paid,
                  (inv: Invoice) => inv.status == Cancelled);
  }

  /** Moving one draft invoice to another status moves exactly one count. */
  lemma StatusChangeMovesOneCount(invoices: seq<Invoice>, j: int, status: InvoiceStatus)
    requires 0 <= j < |invoices| && invoices[j].status == Draft && status != Draft
    ensures var after := Stats(invoices[j := invoices[j].(status := status)]);
      after.total == Stats(invoices).total
      && after.draft + 1 == Stats(invoices).draft
      && (status == Paid ==> after.paid == Stats(invoices).paid + 1 && after.cancelled == Stats(invoices).cancelled)
      && (status == Cancelled ==> after.cancelled == Stats(invoices).cancelled + 1 && after.paid == Stats(invoices).paid)
  {
    var x := invoices[j].(status := status);
    CountUpdate(invoices, j, x, (inv: Invoice) => inv.status == Draft);
    CountUpdate(invoices, j, x, (inv: Invoice) => inv.status == Paid);
    CountUpdate(invoices, j, x, (inv: Invoice) => inv.status == Cancelled);
  }

  function TotalPages(filtered: seq<Invoice>): nat {
    PageCount(|filtered|, ItemsPerPage)
  }

  /** `paginatedInvoices` */
  function PaginatedInvoices(filtered: seq<Invoice>, page: int): seq<Invoice>
    requires page >= 1
  {
    Page(filtered, page, ItemsPerPage)
  }

  /** Pages hold at most six invoices and, laid end to end, list the filtered invoices exactly once. */
  lemma InvoicePagination(filtered: seq<Invoice>, page: int)
    requires page >= 1
    ensures |PaginatedInvoices(filtered, page)| <= ItemsPerPage
    ensures PagesUpTo(filtered, TotalPages(filtered), ItemsPerPage) == filtered
  {
    PagesCoverList(filtered, ItemsPerPage);
  }

  // ---------------------------------------------------------------------------
  // Seed data

  /** The longer texts of the seed invoices, named by position and field. */
  const Invoice1CustomerEmail: string := "chantha@email.com"
  const Invoice1Vehicle: string := "Toyota Camry 2020"
  const Invoice1Items1: string := "ការធ្វើសេវាកម្មប្រេង"
  const Invoice2CustomerEmail: string := "vichitra@email.com"
  const Invoice2Vehicle: string := "Honda Civic 2019"
  const Invoice4CustomerEmail: string := "ratana@email.com"
  const Invoice4Items1: string := "ការពិនិត្យម៉ាស៊ីន"
  const Invoice4Notes: string := "លុបចោលដោយអតិថិជន"
  const Invoice5CustomerEmail: string := "mengly@email.com"
  const Invoice5Vehicle: string := "Lexus RX350 2023"
  const Invoice5Items1: string := "កញ្ចប់ថែទាំពេញលេញ"
  const Invoice5Items2: string := "ផ្លាស់ប្តូរថ្នាំបញ្ចេញសម្បុរ"
  const Invoice5Items3: string := "ពិនិត្យប្រព័ន្ធត្រជាក់"
  const Invoice6CustomerEmail: string := "chandra@email.com"
  const Invoice6Vehicle: string := "Mercedes-Benz E-Class 2022"
  const Invoice6Items1: string := "ផ្លាស់ប្តូរសំបកកង់"
  const Invoice6Notes: string := "បានបង់គ្រប់ជាមួយលក់"
  const Invoice7Items1: string := "ពិនិត្យម៉ាស៊ីនរថយន្ត"
  const Invoice8CustomerEmail: string := "sophea@email.com"
  const Invoice8Items1: string := "ការថែទាំប្រចាំឆ្នាំ"
  const Invoice8Items2: string := "ពិនិត្យសុវត្ថិភាព"
  const Invoice8Notes: string := "កញ្ចប់ប្រចាំឆ្នាំ VIP"

  function SeedInvoices(): seq<Invoice> {
    [
      Invoice(1, "INV-2025-001", "សុខ ចន្ទា", Invoice1CustomerEmail, "012-345-678", "PP-1234", Invoice1Vehicle,
              "2025-12-20", Paid,
              [InvoiceItem("1", "ប្រេងម៉ាស៊ីន", 4.0, 12.5, 50.0), InvoiceItem("2", Invoice1Items1, 1.0, 25.0, 25.0)],
              75.0, 10.0, 7.5, 5.0, 77.5, Some("អតិថិជនប្រចាំ"), Some("BK-001")),
      Invoice(2, "INV-2025-002", "វិចិត្រា ឃុន", Invoice2CustomerEmail, "011-222-333", "PP-5678", Invoice2Vehicle,
              "2025-12-21", Draft,
              [InvoiceItem("1", "ប្រេកខាងមុខ", 2.0, 45.0, 90.0), InvoiceItem("2", "ប្រេកខាងក្រោយ", 2.0, 40.0, 80.0),
               InvoiceItem("3", "ការដំឡើង", 1.0, 30.0, 30.0)],
              200.0, 10.0, 20.0, 0.0, 220.0, None, Some("BK-002")),
      Invoice(3, "INV-2025-003", "ប៉ូលីន ហេង", "polin@email.com", "015-444-555", "PP-9012", "Mazda 3 2021",
              "2025-12-22", Paid,
              [InvoiceItem("1", "សម្អាតឡានពេញលេញ", 1.0, 50.0, 50.0), InvoiceItem("2", "ជ័រខាងក្នុង", 1.0, 30.0, 30.0)],
              80.0, 10.0, 8.0, 10.0, 78.0, Some("បញ្ចុះតម្លៃ 10%"), None),
      Invoice(4, "INV-2025-004", "រតនា សុវណ្ណ", Invoice4CustomerEmail, "017-666-777", "PP-3456", "BMW 320i 2022",
              "2025-12-23", Cancelled,
              [InvoiceItem("1", Invoice4Items1, 1.0, 100.0, 100.0)],
              100.0, 10.0, 10.0, 0.0, 110.0, Some(Invoice4Notes), Some("BK-004")),
      Invoice(5, "INV-2025-005", "ម៉េងលី ផាន", Invoice5CustomerEmail, "012-888-999", "PP-7890", Invoice5Vehicle,
              "2025-12-24", Draft,
              [InvoiceItem("1", Invoice5Items1, 1.0, 200.0, 200.0),
               InvoiceItem("2", Invoice5Items2, 1.0, 80.0, 80.0),
               InvoiceItem("3", Invoice5Items3, 1.0, 50.0, 50.0)],
              330.0, 10.0, 33.0, 20.0, 343.0, Some("សេវាកម្មពិសេស"), None),
      Invoice(6, "INV-2025-006", "ចន្ទ្រា អ៊ុក", Invoice6CustomerEmail, "016-111-222", "PP-1122",
              Invoice6Vehicle, "2025-12-25", Paid,
              [InvoiceItem("1", Invoice6Items1, 4.0, 60.0, 240.0), InvoiceItem("2", "ការតម្រឹមកង់", 4.0, 15.0, 60.0)],
              300.0, 10.0, 30.0, 15.0, 315.0, Some(Invoice6Notes), Some("BK-006")),
      Invoice(7, "INV-2025-007", "ពិសី យឹម", "pisey@email.com", "093-333-444", "PP-3344", "Audi A4 2020",
              "2025-12-26", Draft,
              [InvoiceItem("1", Invoice7Items1, 1.0, 120.0, 120.0), InvoiceItem("2", "ជំនួសទឹកម៉ាស៊ីន", 5.0, 8.0, 40.0)],
              160.0, 10.0, 16.0, 0.0, 176.0, None, None),
      Invoice(8, "INV-2025-008", "សុភ័ក្រា លី", Invoice8CustomerEmail, "077-555-666", "PP-5566", "Volvo XC90 2023",
              "2025-12-27", Paid,
              [InvoiceItem("1", Invoice8Items1, 1.0, 350.0, 350.0), InvoiceItem("2", Invoice8Items2, 1.0, 80.0, 80.0)],
              430.0, 10.0, 43.0, 30.0, 443.0, Some(Invoice8Notes), Some("BK-008"))
    ]
  }

  lemma SmallPads()
    ensures forall n: nat :: 1 <= n <= 9 ==> PadNumber(n, 3) == ['0', '0', DigitChar(n)]
  {
    forall n: nat | 1 <= n <= 9 ensures PadNumber(n, 3) == ['0', '0', DigitChar(n)] {
      assert Digits(n) == [DigitChar(n)];
    }
  }

  lemma SubtotalOfShortLists(items: seq<InvoiceItem>)
    requires 1 <= |items| <= 3
    ensures |items| == 1 ==> Subtotal(items) == items[0].total
    ensures |items| == 2 ==> Subtotal(items) == items[0].total + items[1].total
    ensures |items| == 3 ==> Subtotal(items) == items[0].total + items[1].total + items[2].total
  {
    assert items[..1][..0] == [];
    if |items| >= 2 {
      assert items[..2][..1] == items[..1];
    }
    if |items| == 3 {
      assert items[..3] == items;
    }
  }

  /** The seed invoices carry ids 1 to 8 and the matching invoice numbers. */
  lemma SeedInvoicesNumbered()
    ensures NumberedInOrder(SeedInvoices())
  {
    SmallPads();
  }

  /**
   * Every seed invoice has well-formed rows (each line total is quantity times
   * unit price) and stores the totals `calculateTotals` gives for its rows, tax
   * rate and discount.
   */
  lemma SeedInvoicesWellFormed()
    ensures forall i :: 0 <= i < |SeedInvoices()| ==> WellFormed(SeedInvoices()[i])
  {
    var s := SeedInvoices();
    forall i | 0 <= i < |s| ensures WellFormed(s[i]) {
      SubtotalOfShortLists(s[i].items);
    }
  }

  // ---------------------------------------------------------------------------
  // The page component

  class InvoicesPage {
    var invoices: seq<Invoice>
    var searchTerm: string
    var filterStatus: StatusFilter
    var selectedInvoice: Option<Invoice>
    var showModal: bool
    var modalMode: ModalMode
    var currentPage: int
    var formData: InvoiceForm

    /**
     * Invoices keep ids and numbers in order and stored totals that agree with
     * their rows; the form always holds well-formed draft rows; the selected
     * invoice is one of the list, and the edit form is only open on a draft.
     */
    ghost predicate Valid()
      reads this
    {
      Stored()
      && FormWellFormed(formData) && formData.status == Draft
      && (selectedInvoice.Some? ==> selectedInvoice.value in invoices)
      && (modalMode == EditMode ==> selectedInvoice.Some? && selectedInvoice.value.status == Draft)
    }

    /** The part of `Valid` about the stored list and the page number. */
    ghost predicate Stored()
      reads this
    {
      StoredInvoices(invoices) && currentPage >= 1
    }

    function Filtered(): seq<Invoice>
      reads this
    {
      FilteredInvoices(invoices, searchTerm, filterStatus)
    }

    constructor(today: string)
      ensures Valid()
      ensures invoices == SeedInvoices() && searchTerm == "" && filterStatus == AllStatuses
      ensures selectedInvoice == None && !showModal && modalMode == ViewMode && currentPage == 1
      ensures formData == InitialForm(today)
    {
      InitialFormWellFormed(today);
      invoices := SeedInvoices();
      searchTerm := "";
      filterStatus := AllStatuses;
      selectedInvoice := None;
      showModal := false;
      modalMode := ViewMode;
      currentPage := 1;
      formData := InitialForm(today);
      SeedInvoicesNumbered();
      SeedInvoicesWellFormed();
    }

    /** The search box: a new term, back to page 1. */
    method SetSearchTerm(term: string)
      requires Valid()
      modifies this
      ensures Valid()
      ensures searchTerm == term && currentPage == 1
      ensures invoices == old(invoices) && filterStatus == old(filterStatus) && formData == old(formData)
      ensures selectedInvoice == old(selectedInvoice) && showModal == old(showModal) && modalMode == old(modalMode)
    {
      searchTerm := term;
      currentPage := 1;
    }

    /** The status select: a new filter, back to page 1. */
    method SetFilterStatus(filter: StatusFilter)
      requires Valid()
      modifies this
      ensures Valid()
      ensures filterStatus == filter && currentPage == 1
      ensures invoices == old(invoices) && searchTerm == old(searchTerm) && formData == old(formData)
      ensures selectedInvoice == old(selectedInvoice) && showModal == old(showModal) && modalMode == old(modalMode)
    {
      filterStatus := filter;
      currentPage := 1;
    }

    /** `resetFilters` */
    method ResetFilters()
      requires Valid()
      modifies this
      ensures Valid()
      ensures searchTerm == "" && filterStatus == AllStatuses && currentPage == 1
      ensures Filtered() == invoices
      ensures invoices == old(invoices) && formData == old(formData)
      ensures selectedInvoice == old(selectedInvoice) && showModal == old(showModal) && modalMode == old(modalMode)
    {
      EmptySearchListsAll(invoices);
      searchTerm, filterStatus, currentPage := "", AllStatuses, 1;
    }

    /** The "previous" button: one page back, never below page 1. */
    method PreviousPage()
      requires Valid()
      modifies this
      ensures Valid()
      ensures currentPage == if old(currentPage) > 1 then old(currentPage) - 1 else 1
      ensures invoices == old(invoices) && searchTerm == old(searchTerm) && filterStatus == old(filterStatus)
      ensures formData == old(formData) && selectedInvoice == old(selectedInvoice)
      ensures showModal == old(showModal) && modalMode == old(modalMode)
    {
      currentPage := if currentPage - 1 > 1 then currentPage - 1 else 1;
    }

    /** The "next" button, shown only when there is more than one page: one page on, never past the last. */
    method NextPage()
      requires Valid() && TotalPages(Filtered()) > 1
      modifies this
      ensures Valid()
      ensures currentPage == Min(TotalPages(Filtered()), old(currentPage) + 1)
      ensures 1 <= currentPage <= TotalPages(Filtered())
      ensures invoices == old(invoices) && searchTerm == old(searchTerm) && filterStatus == old(filterStatus)
      ensures formData == old(formData) && selectedInvoice == old(selectedInvoice)
      ensures showModal == old(showModal) && modalMode == old(modalMode)
    {
      currentPage := Min(TotalPages(Filtered()), currentPage + 1);
    }

    /** A page-number button. */
    method GoToPage(page: int)
      requires Valid() && 1 <= page <= TotalPages(Filtered())
      modifies this
      ensures Valid()
      ensures currentPage == page
      ensures invoices == old(invoices) && searchTerm == old(searchTerm) && filterStatus == old(filterStatus)
      ensures formData == old(formData) && selectedInvoice == old(selectedInvoice)
      ensures showModal == old(showModal) && modalMode == old(modalMode)
    {
      currentPage := page;
    }

    /** `openCreateModal` */
    method OpenCreateModal(today: string)
      requires Valid()
      modifies this
      ensures Valid()
      ensures modalMode == CreateMode && formData == InitialForm(today) && selectedInvoice == None && showModal
      ensures invoices == old(invoices) && searchTerm == old(searchTerm) && filterStatus == old(filterStatus)
      ensures currentPage == old(currentPage)
    {
      InitialFormWellFormed(today);
      modalMode := CreateMode;
      formData := InitialForm(today);
      selectedInvoice := None;
      showModal := true;
    }

    /** `openViewModal`, from a row of the list. */
    method OpenViewModal(inv: Invoice)
      requires Valid() && inv in invoices
      modifies this
      ensures Valid()
      ensures modalMode == ViewMode && selectedInvoice == Some(inv) && showModal
      ensures invoices == old(invoices) && formData == old(formData) && searchTerm == old(searchTerm)
      ensures filterStatus == old(filterStatus) && currentPage == old(currentPage)
    {
      modalMode := ViewMode;
      selectedInvoice := Some(inv);
      showModal := true;
    }

    /** `openEditModal`: offered only while the selected invoice is a draft. */
    method OpenEditModal()
      requires Valid()
      requires selectedInvoice.Some? ==> selectedInvoice.value.status == Draft
      modifies this
      ensures Valid()
      ensures old(selectedInvoice).Some? ==> modalMode == EditMode && formData == FormOf(old(selectedInvoice).value)
      ensures old(selectedInvoice).None? ==> modalMode == old(modalMode) && formData == old(formData)
      ensures invoices == old(invoices) && selectedInvoice == old(selectedInvoice) && showModal == old(showModal)
      ensures searchTerm == old(searchTerm) && filterStatus == old(filterStatus) && currentPage == old(currentPage)
    {
      if selectedInvoice.Some? {
        var inv := selectedInvoice.value;
        modalMode := EditMode;
        formData := FormOf(inv);
        FormOfWellFormed(inv);
      }
    }

    /** `closeModal` */
    method CloseModal(today: string)
      requires Stored()
      modifies this
      ensures Valid()
      ensures !showModal && selectedInvoice == None && formData == InitialForm(today) && modalMode == ViewMode
      ensures invoices == old(invoices) && searchTerm == old(searchTerm) && filterStatus == old(filterStatus)
      ensures currentPage == old(currentPage)
    {
      InitialFormWellFormed(today);
      showModal, selectedInvoice, formData, modalMode := false, None, InitialForm(today), ViewMode;
    }

    /** Typing in one of the form inputs. */
    method SetField(field: FormField)
      requires Valid()
      modifies this
      ensures Valid()
      ensures formData == ApplyField(old(formData), field)
      ensures formData.items == old(formData).items && formData.status == old(formData).status
      ensures invoices == old(invoices) && selectedInvoice == old(selectedInvoice) && modalMode == old(modalMode)
      ensures showModal == old(showModal) && searchTerm == old(searchTerm) && filterStatus == old(filterStatus)
      ensures currentPage == old(currentPage)
    {
      formData := ApplyField(formData, field);
    }

    /** `updateItemTotal` */
    method UpdateItemTotal(itemId: string, edit: ItemEdit)
      requires Valid()
      modifies this
      ensures Valid()
      ensures formData == old(formData).(items := UpdateItems(old(formData).items, itemId, edit))
      ensures invoices == old(invoices) && selectedInvoice == old(selectedInvoice) && modalMode == old(modalMode)
      ensures showModal == old(showModal) && searchTerm == old(searchTerm) && filterStatus == old(filterStatus)
      ensures currentPage == old(currentPage)
    {
      UpdateItemsKeepsLines(formData.items, itemId, edit);
      formData := formData.(items := UpdateItems(formData.items, itemId, edit));
    }

    /** `addItem`, with `newId` standing for `Date.now()`, distinct from every row's id. */
    method AddItem(newId: string)
      requires Valid()
      requires forall k :: 0 <= k < |formData.items| ==> formData.items[k].id != newId
      modifies this
      ensures Valid()
      ensures formData == old(formData).(items := AddItemTo(old(formData).items, newId))
      ensures CalculateTotals(formData.items, formData.taxRate, formData.discount)
           == CalculateTotals(old(formData).items, formData.taxRate, formData.discount)
      ensures invoices == old(invoices) && selectedInvoice == old(selectedInvoice) && modalMode == old(modalMode)
      ensures showModal == old(showModal) && searchTerm == old(searchTerm) && filterStatus == old(filterStatus)
      ensures currentPage == old(currentPage)
    {
      AddItemKeepsTotals(formData.items, newId, formData.taxRate, formData.discount);
      formData := formData.(items := AddItemTo(formData.items, newId));
    }

    /** `removeItem` */
    method RemoveItem(itemId: string)
      requires Valid()
      modifies this
      ensures Valid()
      ensures formData == old(formData).(items := RemoveItemFrom(old(formData).items, itemId))
      ensures |formData.items| >= 1
      ensures invoices == old(invoices) && selectedInvoice == old(selectedInvoice) && modalMode == old(modalMode)
      ensures showModal == old(showModal) && searchTerm == old(searchTerm) && filterStatus == old(filterStatus)
      ensures currentPage == old(currentPage)
    {
      RemoveItemEffect(formData.items, itemId);
      if |formData.items| > 1 {
        formData := formData.(items := Filter(formData.items, (it: InvoiceItem) => it.id != itemId));
      }
    }

    /**
     * `handleSave`: create appends invoice number count + 1; edit rewrites the
     * selected invoice in place, keeping its id, number and booking; both store
     * the form's totals; then the modal closes.
     */
    method HandleSave(markAsPaid: bool, today: string)
      requires Valid()
      modifies this
      ensures Valid()
      ensures old(modalMode) == CreateMode ==>
        invoices == old(invoices) + [NewInvoice(|old(invoices)| + 1, old(formData), FinalStatus(markAsPaid, old(formData)))]
      ensures old(modalMode) == EditMode ==>
        var j := old(selectedInvoice).value.id - 1;
        0 <= j < |old(invoices)| && old(invoices)[j] == old(selectedInvoice).value
        && invoices == old(invoices)[j := EditedInvoice(old(invoices)[j], old(formData), FinalStatus(markAsPaid, old(formData)))]
      ensures old(modalMode) == ViewMode ==> invoices == old(invoices)
      ensures !showModal && selectedInvoice == None && formData == InitialForm(today) && modalMode == ViewMode
      ensures searchTerm == old(searchTerm) && filterStatus == old(filterStatus) && currentPage == old(currentPage)
    {
      var form := formData;
      var finalStatus := FinalStatus(markAsPaid, form);
      if modalMode == CreateMode {
        var n := |invoices| + 1;
        SavedInvoiceWellFormed(NewInvoice(n, formData, finalStatus), n, formData, finalStatus);
        invoices := invoices + [NewInvoice(n, formData, finalStatus)];
      } else if modalMode == EditMode && selectedInvoice.Some? {
        var sel := selectedInvoice.value;
        var j := sel.id - 1;
        PositionOfId(invoices, sel);
        var edited := EditedInvoice(invoices[j], formData, finalStatus);
        SavedInvoiceWellFormed(invoices[j], 0, formData, finalStatus);
        MapWhereSingle(invoices, (inv: Invoice) => inv.id == sel.id,
                       (inv: Invoice) => EditedInvoice(inv, form, finalStatus), j);
        invoices := MapWhere(invoices, (inv: Invoice) => inv.id == sel.id,
                             (inv: Invoice) => EditedInvoice(inv, form, finalStatus));
      }
      CloseModal(today);
    }

    /** `handleMarkAsPaid`, offered only on a draft: only the selected invoice's status changes. */
    method HandleMarkAsPaid(today: string)
      requires Valid()
      requires selectedInvoice.Some? ==> selectedInvoice.value.status == Draft
      modifies this
      ensures Valid()
      ensures old(selectedInvoice).Some? ==>
        var j := old(selectedInvoice).value.id - 1;
        0 <= j < |old(invoices)| && old(invoices)[j] == old(selectedInvoice).value
        && invoices == old(invoices)[j := old(invoices)[j].(status := Paid)]
        && !showModal && selectedInvoice == None && formData == InitialForm(today) && modalMode == ViewMode
      ensures old(selectedInvoice).None? ==>
        invoices == old(invoices) && formData == old(formData) && modalMode == old(modalMode) && showModal == old(showModal)
      ensures searchTerm == old(searchTerm) && filterStatus == old(filterStatus) && currentPage == old(currentPage)
    {
      if selectedInvoice.Some? {
        SetSelectedStatus(Paid);
        CloseModal(today);
      }
    }

    /** `handleCancelInvoice`, offered only on a draft: only the selected invoice's status changes. */
    method HandleCancelInvoice(today: string)
      requires Valid()
      requires selectedInvoice.Some? ==> selectedInvoice.value.status == Draft
      modifies this
      ensures Valid()
      ensures old(selectedInvoice).Some? ==>
        var j := old(selectedInvoice).value.id - 1;
        0 <= j < |old(invoices)| && old(invoices)[j] == old(selectedInvoice).value
        && invoices == old(invoices)[j := old(invoices)[j].(status := Cancelled)]
        && !showModal && selectedInvoice == None && formData == InitialForm(today) && modalMode == ViewMode
      ensures old(selectedInvoice).None? ==>
        invoices == old(invoices) && formData == old(formData) && modalMode == old(modalMode) && showModal == old(showModal)
      ensures searchTerm == old(searchTerm) && filterStatus == old(filterStatus) && currentPage == old(currentPage)
    {
      if selectedInvoice.Some? {
        SetSelectedStatus(Cancelled);
        CloseModal(today);
      }
    }

    /** The `map` shared by mark-as-paid and cancel; the modal is closed right after, which restores `Valid`. */
    method SetSelectedStatus(status: InvoiceStatus)
      requires Valid() && selectedInvoice.Some?
      modifies this
      ensures Stored()
      ensures var j := old(selectedInvoice).value.id - 1;
        0 <= j < |old(invoices)| && old(invoices)[j] == old(selectedInvoice).value
        && invoices == old(invoices)[j := old(invoices)[j].(status := status)]
      ensures formData == old(formData) && searchTerm == old(searchTerm) && filterStatus == old(filterStatus)
      ensures currentPage == old(currentPage)
    {
      var sel := selectedInvoice.value;
      PositionOfId(invoices, sel);
      MapWhereSingle(invoices, (inv: Invoice) => inv.id == sel.id, (inv: Invoice) => inv.(status := status), sel.id - 1);
      invoices := WithStatus(invoices, sel.id, status);
    }
  }
}
