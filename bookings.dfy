/**
 * The booking page: a list of service, package and product bookings with a
 * status filter, a type filter, a text search and pagination; a detail modal
 * that approves or rejects a pending booking; and a create form whose
 * comma-separated item text becomes the booking's item list.
 */
module Bookings {
  import opened Wrappers
  import opened Text
  import opened Collections

  datatype BookingStatus = Pending | Approved | Rejected
  datatype BookingType = ServiceBooking | PackageBooking | ProductBooking
  datatype StatusFilter = AllStatuses | OnlyStatus(status: BookingStatus)
  datatype TypeFilter = AllTypes | OnlyType(bookingType: BookingType)

  datatype Booking = Booking(
    id: int,
    customerName: string,
    vehicle: string,
    service: string,
    serviceCode: string,
    date: string,
    time: string,
    status: BookingStatus,
    bookingType: BookingType,
    servicePrice: string,
    items: seq<string>,
    servicesIncluded: Option<seq<string>>,
    description: Option<string>)

  /** The create form; `items` and `servicesIncluded` are comma-separated text. */
  datatype BookingForm = BookingForm(
    customerName: string,
    vehicle: string,
    service: string,
    serviceCode: string,
    date: string,
    time: string,
    bookingType: BookingType,
    servicePrice: string,
    items: string,
    servicesIncluded: string,
    description: string)

  datatype FormField =
    | CustomerName(text: string)
    | Vehicle(text: string)
    | Service(text: string)
    | ServiceCode(text: string)
    | Date(text: string)
    | Time(text: string)
    | Type(bookingType: BookingType)
    | ServicePrice(text: string)
    | Items(text: string)
    | ServicesIncluded(text: string)
    | Description(text: string)

  datatype BookingStats = BookingStats(total: nat, pending: nat, approved: nat, rejected: nat)

  const ItemsPerPage: nat := 6

  function EmptyForm(): BookingForm {
    BookingForm("", "", "", "", "", "", ServiceBooking, "", "", "", "")
  }

  function ApplyField(form: BookingForm, field: FormField): BookingForm {
    match field
    case CustomerName(t) => form.(customerName := t)
    case Vehicle(t) => form.(vehicle := t)
    case Service(t) => form.(service := t)
    case ServiceCode(t) => form.(serviceCode := t)
    case Date(t) => form.(date := t)
    case Time(t) => form.(time := t)
    case Type(k) => form.(bookingType := k)
    case ServicePrice(t) => form.(servicePrice := t)
    case Items(t) => form.(items := t)
    case ServicesIncluded(t) => form.(servicesIncluded := t)
    case Description(t) => form.(description := t)
  }

  // ---------------------------------------------------------------------------
  // Creating a booking

  /** The default service code: `#` followed by `n` padded to four digits. */
  function DefaultServiceCode(n: nat): string {
    "#" + PadNumber(n, 4)
  }

  /** The booking `handleSubmit` builds from the form as the `n`-th booking. */
  function NewBooking(n: nat, form: BookingForm): Booking {
    Booking(
      n, form.customerName, form.vehicle, form.service,
      if form.serviceCode != "" then form.serviceCode else DefaultServiceCode(n),
      form.date, form.time, Pending, form.bookingType, form.servicePrice,
      SplitTrimmed(form.items, ','),
      if form.bookingType == PackageBooking && form.servicesIncluded != "" then Some(SplitTrimmed(form.servicesIncluded, ',')) else None,
      if form.description != "" then Some(form.description) else None)
  }

  /**
   * A new booking is pending with id `n`; an entered service code is kept and a
   * blank one defaults to `#` and four digits that read back as `n`; every item
   * is a non-empty, trimmed piece without a comma, and a blank item text gives
   * no items; the included services are present exactly for a package with
   * included-services text, and the description exactly when one was typed.
   */
  lemma NewBookingFields(n: nat, form: BookingForm)
    ensures NewBooking(n, form).id == n && NewBooking(n, form).status == Pending
    ensures form.serviceCode != "" ==> NewBooking(n, form).serviceCode == form.serviceCode
    ensures form.serviceCode == "" ==>
      var code := NewBooking(n, form).serviceCode;
      |code| >= 5 && code[0] == '#' && (forall i :: 1 <= i < |code| ==> IsDigit(code[i])) && DecimalValue(code[1..]) == n
    ensures forall k :: 0 <= k < |NewBooking(n, form).items| ==> CleanItem(NewBooking(n, form).items[k], ',')
    ensures IsBlank(form.items) ==> NewBooking(n, form).items == []
    ensures NewBooking(n, form).servicesIncluded.Some? <==> form.bookingType == PackageBooking && form.servicesIncluded != ""
    ensures NewBooking(n, form).servicesIncluded.Some? ==>
      forall k :: 0 <= k < |NewBooking(n, form).servicesIncluded.value| ==> CleanItem(NewBooking(n, form).servicesIncluded.value[k], ',')
    ensures NewBooking(n, form).description.Some? <==> form.description != ""
    ensures NewBooking(n, form).description.Some? ==> NewBooking(n, form).description.value == form.description
  {
    SplitTrimmedItems(form.items, ',');
    SplitTrimmedItems(form.servicesIncluded, ',');
    if IsBlank(form.items) {
      SplitTrimmedBlank(form.items, ',');
    }
    if form.serviceCode == "" {
      var code := DefaultServiceCode(n);
      assert code[1..] == PadNumber(n, 4);
      PadNumberRoundTrip(n, 4);
    }
  }

  /** Bookings `i` (from 0) has id `i + 1`: ids come from the count and nothing is removed. */
  ghost predicate NumberedInOrder(bookings: seq<Booking>) {
    forall i :: 0 <= i < |bookings| ==> bookings[i].id == i + 1
  }

  // ---------------------------------------------------------------------------
  // Filters, counts and pagination

  predicate MatchesStatus(b: Booking, filter: StatusFilter) {
    filter.AllStatuses? || b.status == filter.status
  }

  predicate MatchesType(b: Booking, filter: TypeFilter) {
    filter.AllTypes? || b.bookingType == filter.bookingType
  }

  /** An empty term matches; otherwise it occurs, ignoring case, in the customer, vehicle or service. */
  predicate MatchesSearch(b: Booking, term: string) {
    term == ""
    || ContainsIgnoringCase(b.customerName, term)
    || ContainsIgnoringCase(b.vehicle, term)
    || ContainsIgnoringCase(b.service, term)
  }

  predicate Matches(b: Booking, status: StatusFilter, bookingType: TypeFilter, term: string) {
    MatchesStatus(b, status) && MatchesType(b, bookingType) && MatchesSearch(b, term)
  }

  /** `filteredBookings`: an order-preserving sublist holding exactly the matching bookings. */
  function FilteredBookings(bookings: seq<Booking>, status: StatusFilter, bookingType: TypeFilter, term: string): (r: seq<Booking>)
    ensures Sublist(r, bookings)
    ensures forall i :: 0 <= i < |r| ==> Matches(r[i], status, bookingType, term)
    ensures forall i :: 0 <= i < |bookings| && Matches(bookings[i], status, bookingType, term) ==> bookings[i] in r
  {
    var p := (b: Booking) => Matches(b, status, bookingType, term);
    FilterIsSublist(bookings, p);
    Filter(bookings, p)
  }

  /** Cleared filters list every booking. */
  lemma ClearedFiltersListAll(bookings: seq<Booking>)
    ensures FilteredBookings(bookings, AllStatuses, AllTypes, "") == bookings
  {
    FilterKeepsAll(bookings, (b: Booking) => Matches(b, AllStatuses, AllTypes, ""));
  }

  function CountStatus(bookings: seq<Booking>, status: BookingStatus): nat {
    Count(bookings, (b: Booking) => b.status == status)
  }

  function CountType(bookings: seq<Booking>, bookingType: BookingType): nat {
    Count(bookings, (b: Booking) => b.bookingType == bookingType)
  }

  /** `stats` */
  function Stats(bookings: seq<Booking>): BookingStats {
    BookingStats(|bookings|, CountStatus(bookings, Pending), CountStatus(bookings, Approved), CountStatus(bookings, Rejected))
  }

  /** The pending, approved and rejected counts add up to the total, and so do the per-type counts. */
  lemma CountsAddUp(bookings: seq<Booking>)
    ensures Stats(bookings).pending + Stats(bookings).approved + Stats(bookings).rejected == Stats(bookings).total
    ensures CountType(bookings, ServiceBooking) + CountType(bookings, PackageBooking) + CountType(bookings, ProductBooking) == |bookings|
  {
    CountThreeWay(bookings, (b: Booking) => b.status == Pending, (b: Booking) => b.status == Approved,
                  (b: Booking) => b.status == Rejected);
    CountThreeWay(bookings, (b: Booking) => b.bookingType == ServiceBooking, (b: Booking) => b.bookingType == PackageBooking,
                  (b: Booking) => b.bookingType == ProductBooking);
  }

  /** Deciding one pending booking moves exactly one count from pending to the decision. */
  lemma DecisionMovesOneCount(bookings: seq<Booking>, j: int, status: BookingStatus)
    requires 0 <= j < |bookings| && bookings[j].status == Pending && status != Pending
    ensures var after := Stats(bookings[j := bookings[j].(status := status)]);
      after.total == Stats(bookings).total
      && after.pending + 1 == Stats(bookings).pending
      && (status == Approved ==> after.approved == Stats(bookings).approved + 1 && after.rejected == Stats(bookings).rejected)
      && (status == Rejected ==> after.rejected == Stats(bookings).rejected + 1 && after.approved == Stats(bookings).approved)
  {
    var x := bookings[j].(status := status);
    CountUpdate(bookings, j, x, (b: Booking) => b.status == Pending);
    CountUpdate(bookings, j, x, (b: Booking) => b.status == Approved);
    CountUpdate(bookings, j, x, (b: Booking) => b.status == Rejected);
  }

  function TotalPages(filtered: seq<Booking>): nat {
    PageCount(|filtered|, ItemsPerPage)
  }

  /** `paginatedBookings` */
  function PaginatedBookings(filtered: seq<Booking>, page: int): seq<Booking>
    requires page >= 1
  {
    Page(filtered, page, ItemsPerPage)
  }

  /** Pages hold at most six bookings and together list the filtered bookings exactly once, in order. */
  lemma BookingPagination(filtered: seq<Booking>, page: int)
    requires page >= 1
    ensures |PaginatedBookings(filtered, page)| <= ItemsPerPage
    ensures PaginatedBookings(filtered, page) == Slice(filtered, (page - 1) * ItemsPerPage, (page - 1) * ItemsPerPage + ItemsPerPage)
    ensures PagesUpTo(filtered, TotalPages(filtered), ItemsPerPage) == filtered
  {
    PagesCoverList(filtered, ItemsPerPage);
  }

  // ---------------------------------------------------------------------------
  // Status display

  /** `getStatusBadgeClass` */
  function StatusBadgeClass(status: BookingStatus): string {
    match status
    case Pending => "status-badge-pending"
    case Approved => "status-badge-approved"
    case Rejected => "status-badge-rejected"
  }

  /** `getStatusText` */
  function StatusText(status: BookingStatus): string {
    match status
    case Pending => "កំពុងរង់ចាំ"
    case Approved => "បានអនុម័ត"
    case Rejected => "បានបដិសេធ"
  }

  /** Each status has its own badge class and its own label, so the display tells them apart. */
  lemma StatusDisplayDistinct(a: BookingStatus, b: BookingStatus)
    ensures StatusBadgeClass(a) == StatusBadgeClass(b) <==> a == b
    ensures StatusText(a) == StatusText(b) <==> a == b
  {
    if a != b {
      assert StatusBadgeClass(a)[13] != StatusBadgeClass(b)[13];
      assert StatusText(a)[0] != StatusText(b)[0] || StatusText(a)[3] != StatusText(b)[3];
    }
  }

  // ---------------------------------------------------------------------------
  // Seed data

  /** The longer texts of the seed bookings, named by position and field. */
  const Booking1Service: string := "ការផ្លាស់ប្តូរប្រេងម៉ាស៊ីន"
  const Booking2Items: string := "មីនណាតថ្នាំសម្អាត"
  const Booking3Service: string := "Premium oil change"
  const Booking3Description: string := "Complete premium car wash package with interior cleaning and waxing service"
  const Booking4Service: string := "កញ្ចប់ថែទាំព្រហ្មនុត្តត"
  const Booking4Description: string := "Essential maintenance package for regular vehicle care and performance"
  const Booking5Service: string := "Engine Oil Purchase"
  const Booking5Description: string := "Product purchase only - no service"
  const Booking6Service: string := "Brake Fluid Purchase"
  const Booking6Description: string := "Product purchase only - no service"
  const Booking7Vehicle: string := "Mercedes-Benz C-Class"

  function SeedBookings(): seq<Booking> {
    [
      Booking(1, "Tom Brown", "Toyota Prius", Booking1Service, "#0001", "2025-10-15", "02:00",
              Pending, ServiceBooking, "$25.00", ["Engine Oil × 1"], None, None),
      Booking(2, "Sarah Johnson", "Honda Civic", "សម្អាតឡានក្រៅ", "#0002", "2025-10-15", "10:00",
              Pending, ServiceBooking, "$15.00", [Booking2Items], None, None),
      Booking(3, "Mike Wilson", "Ford Focus", Booking3Service, "#PKG001", "2025-10-16", "14:00",
              Approved, PackageBooking, "$89.99", ["Engine Oil × 1", "Brake Fluid × 2"],
              Some(["Oil Change", "Brake Cleaning", "Car Wash"]),
              Some(Booking3Description)),
      Booking(4, "Lisa Anderson", "BMW 320i", Booking4Service, "#PKG002", "2025-10-16", "09:00",
              Pending, PackageBooking, "$45.00", ["Engine Oil × 1"], Some(["Oil Change", "Filter Check"]),
              Some(Booking4Description)),
      Booking(5, "David Chen", "Tesla Model 3", Booking5Service, "#PROD001", "2025-10-17", "11:00",
              Pending, ProductBooking, "$35.00", ["Engine Oil × 2", "Oil Filter × 1"], None,
              Some(Booking5Description)),
      Booking(6, "Emily Rodriguez", "Mazda CX-5", Booking6Service, "#PROD002", "2025-10-17", "15:00",
              Approved, ProductBooking, "$28.00", ["Brake Fluid × 3"], None, Some(Booking6Description)),
      Booking(7, "John Smith", Booking7Vehicle, "ពិនិត្យប្រព័ន្ធ", "#0003", "2025-10-18", "13:00",
              Rejected, ServiceBooking, "$30.00", ["Brake Fluid × 1"], None, None)
    ]
  }

  // ---------------------------------------------------------------------------
  // The page component

  class BookingsPage {
    var bookings: seq<Booking>
    var filterStatus: StatusFilter
    var filterType: TypeFilter
    var searchTerm: string
    var currentPage: int
    var selectedBooking: Option<Booking>
    var showDetailModal: bool
    var showModal: bool
    var formData: BookingForm

    /** Ids follow the order of creation, the selected booking is one of the list, and the page is at least 1. */
    ghost predicate Valid()
      reads this
    {
      NumberedInOrder(bookings)
      && (selectedBooking.Some? ==> selectedBooking.value in bookings)
      && currentPage >= 1
    }

    function Filtered(): seq<Booking>
      reads this
    {
      FilteredBookings(bookings, filterStatus, filterType, searchTerm)
    }

    constructor()
      ensures Valid()
      ensures bookings == SeedBookings() && filterStatus == AllStatuses && filterType == AllTypes && searchTerm == ""
      ensures currentPage == 1 && selectedBooking == None && !showDetailModal && !showModal && formData == EmptyForm()
    {
      bookings := SeedBookings();
      filterStatus := AllStatuses;
      filterType := AllTypes;
      searchTerm := "";
      currentPage := 1;
      selectedBooking := None;
      showDetailModal := false;
      showModal := false;
      formData := EmptyForm();
    }

    /** The search box sets the term; unlike the two selects it keeps the current page. */
    method SetSearchTerm(term: string)
      requires Valid()
      modifies this
      ensures Valid()
      ensures searchTerm == term && currentPage == old(currentPage)
      ensures bookings == old(bookings) && filterStatus == old(filterStatus) && filterType == old(filterType)
      ensures selectedBooking == old(selectedBooking) && formData == old(formData)
    {
      searchTerm := term;
    }

    /** The type select: a new type filter, back to page 1. */
    method SetFilterType(filter: TypeFilter)
      requires Valid()
      modifies this
      ensures Valid()
      ensures filterType == filter && currentPage == 1
      ensures bookings == old(bookings) && filterStatus == old(filterStatus) && searchTerm == old(searchTerm)
      ensures selectedBooking == old(selectedBooking) && formData == old(formData)
    {
      filterType := filter;
      currentPage := 1;
    }

    /** The status select: a new status filter, back to page 1. */
    method SetFilterStatus(filter: StatusFilter)
      requires Valid()
      modifies this
      ensures Valid()
      ensures filterStatus == filter && currentPage == 1
      ensures bookings == old(bookings) && filterType == old(filterType) && searchTerm == old(searchTerm)
      ensures selectedBooking == old(selectedBooking) && formData == old(formData)
    {
      filterStatus := filter;
      currentPage := 1;
    }

    /** The clear button: every filter off, back to page 1, so every booking is listed. */
    method ClearFilters()
      requires Valid()
      modifies this
      ensures Valid()
      ensures filterType == AllTypes && filterStatus == AllStatuses && searchTerm == "" && currentPage == 1
      ensures Filtered() == bookings
      ensures bookings == old(bookings) && selectedBooking == old(selectedBooking) && formData == old(formData)
    {
      filterType := AllTypes;
      filterStatus := AllStatuses;
      searchTerm := "";
      currentPage := 1;
      ClearedFiltersListAll(bookings);
    }

    /** The "previous" button: one page back, never below page 1. */
    method PreviousPage()
      requires Valid()
      modifies this
      ensures Valid()
      ensures currentPage == if old(currentPage) > 1 then old(currentPage) - 1 else 1
      ensures bookings == old(bookings) && filterStatus == old(filterStatus) && filterType == old(filterType)
      ensures searchTerm == old(searchTerm) && selectedBooking == old(selectedBooking) && formData == old(formData)
    {
      currentPage := if currentPage - 1 > 1 then currentPage - 1 else 1;
    }

    /** The "next" button, shown only when there is more than one page: never past the last page. */
    method NextPage()
      requires Valid() && TotalPages(Filtered()) > 1
      modifies this
      ensures Valid()
      ensures currentPage == Min(TotalPages(Filtered()), old(currentPage) + 1)
      ensures 1 <= currentPage <= TotalPages(Filtered())
      ensures bookings == old(bookings) && filterStatus == old(filterStatus) && filterType == old(filterType)
      ensures searchTerm == old(searchTerm) && selectedBooking == old(selectedBooking) && formData == old(formData)
    {
      currentPage := Min(TotalPages(Filtered()), currentPage + 1);
    }

    /** A page-number button. */
    method GoToPage(page: int)
      requires Valid() && 1 <= page <= TotalPages(Filtered())
      modifies this
      ensures Valid()
      ensures currentPage == page
      ensures bookings == old(bookings) && filterStatus == old(filterStatus) && filterType == old(filterType)
      ensures searchTerm == old(searchTerm) && selectedBooking == old(selectedBooking) && formData == old(formData)
    {
      currentPage := page;
    }

    /** `openDetailModal`, from a row of the list. */
    method OpenDetailModal(b: Booking)
      requires Valid() && b in bookings
      modifies this
      ensures Valid()
      ensures selectedBooking == Some(b) && showDetailModal
      ensures bookings == old(bookings) && formData == old(formData) && currentPage == old(currentPage)
    {
      selectedBooking := Some(b);
      showDetailModal := true;
    }

    /** `closeDetailModal` */
    method CloseDetailModal()
      requires Valid()
      modifies this
      ensures Valid()
      ensures selectedBooking == None && !showDetailModal
      ensures bookings == old(bookings) && formData == old(formData) && currentPage == old(currentPage)
    {
      showDetailModal := false;
      selectedBooking := None;
    }

    /**
     * `handleStatusChange`, offered only for the selected booking while it is
     * pending: only that booking's status changes, and the modal closes.
     */
    method HandleStatusChange(bookingId: int, newStatus: BookingStatus)
      requires Valid()
      requires selectedBooking.Some? && selectedBooking.value.id == bookingId && selectedBooking.value.status == Pending
      requires newStatus != Pending
      modifies this
      ensures Valid()
      ensures var j := bookingId - 1;
        0 <= j < |old(bookings)| && old(bookings)[j] == old(selectedBooking).value
        && bookings == old(bookings)[j := old(bookings)[j].(status := newStatus)]
      ensures !showDetailModal && selectedBooking == None
      ensures formData == old(formData) && currentPage == old(currentPage) && searchTerm == old(searchTerm)
      ensures filterStatus == old(filterStatus) && filterType == old(filterType)
    {
      var sel := selectedBooking.value;
      var j :| 0 <= j < |bookings| && bookings[j] == sel;
      assert forall k :: 0 <= k < |bookings| && k != j ==> bookings[k].id != bookingId;
      MapWhereSingle(bookings, (b: Booking) => b.id == bookingId, (b: Booking) => b.(status := newStatus), j);
      bookings := MapWhere(bookings, (b: Booking) => b.id == bookingId, (b: Booking) => b.(status := newStatus));
      showDetailModal := false;
      selectedBooking := None;
    }

    /** The "new booking" button. */
    method OpenCreateModal()
      requires Valid()
      modifies this
      ensures Valid()
      ensures showModal
      ensures bookings == old(bookings) && formData == old(formData) && selectedBooking == old(selectedBooking)
    {
      showModal := true;
    }

    /** Closing the create modal keeps what was typed. */
    method CloseCreateModal()
      requires Valid()
      modifies this
      ensures Valid()
      ensures !showModal
      ensures bookings == old(bookings) && formData == old(formData) && selectedBooking == old(selectedBooking)
    {
      showModal := false;
    }

    /** Typing in one of the create form's inputs. */
    method SetField(field: FormField)
      requires Valid()
      modifies this
      ensures Valid()
      ensures formData == ApplyField(old(formData), field)
      ensures bookings == old(bookings) && selectedBooking == old(selectedBooking) && showModal == old(showModal)
    {
      formData := ApplyField(formData, field);
    }

    /** `handleSubmit`: appends one booking, numbered count + 1, closes the modal and clears the form. */
    method HandleSubmit()
      requires Valid()
      modifies this
      ensures Valid()
      ensures bookings == old(bookings) + [NewBooking(|old(bookings)| + 1, old(formData))]
      ensures Stats(bookings).pending == Stats(old(bookings)).pending + 1
      ensures !showModal && formData == EmptyForm()
      ensures selectedBooking == old(selectedBooking) && currentPage == old(currentPage)
      ensures searchTerm == old(searchTerm) && filterStatus == old(filterStatus) && filterType == old(filterType)
    {
      var nb := NewBooking(|bookings| + 1, formData);
      StoreBooking(nb);
    }

    /** The state update of `handleSubmit`, for a pending booking numbered count + 1. */
    method StoreBooking(nb: Booking)
      requires Valid() && nb.id == |bookings| + 1 && nb.status == Pending
      modifies this
      ensures Valid()
      ensures bookings == old(bookings) + [nb]
      ensures Stats(bookings).pending == Stats(old(bookings)).pending + 1
      ensures !showModal && formData == EmptyForm()
      ensures selectedBooking == old(selectedBooking) && currentPage == old(currentPage)
      ensures searchTerm == old(searchTerm) && filterStatus == old(filterStatus) && filterType == old(filterType)
    {
      FilterAppend(bookings, [nb], (b: Booking) => b.status == Pending);
      bookings := bookings + [nb];
      showModal := false;
      formData := EmptyForm();
    }
  }
}
