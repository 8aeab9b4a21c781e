/**
 * The notification centre (`src/pages/notifications/Notifications.tsx`): a
 * list of notifications shown through six filter tabs, with unread and
 * action counters, "mark all read", "clear all", mark-on-click, and a form
 * that sends a new system notification to the top of the list.
 */
module Notifications {
  import opened Collections

  datatype NotificationType = Booking | Technician | System

  datatype ReadStatus = Unread | Read

  datatype Priority = Normal | Action | Critical

  datatype Notification = Notification(
    id: int,
    kind: NotificationType,
    title: string,
    description: string,
    timestamp: string,
    status: ReadStatus,
    priority: Priority,
    link: string)

  /** The six filter tabs; `activeFilter` holds one of their ids. */
  datatype FilterTab = AllTab | UnreadTab | ActionTab | BookingTab | TechnicianTab | SystemTab

  datatype SendForm = SendForm(recipient: string, title: string, message: string)

  /** The inputs of the send form, through `handleFormChange`. */
  datatype FormField = Recipient(text: string) | Title(text: string) | Message(text: string)

  /** The timestamp of a notification sent from the form, "just now". */
  const JustNow: string := "ឥឡូវនេះ"

  /** The longer texts of the seed notifications, named by position and field. */
  const Notice1Description: string := "អតិថិជន John Doe បានកក់ \"កញ្ចប់សេវាថែទាំរថយន្តពេញលេញ\" សម្រាប់ Toyota Camry 2020"
  const Notice2Description: string := "ជាងបច្ចេកទេស Mike Johnson បានបញ្ចប់សេវាប្តូរប្រេងម៉ាស៊ីនសម្រាប់ការកក់ #12340"
  const Notice3Title: string := "ត្រូវការសកម្មភាព: លុបចោលការកក់"
  const Notice3Description: string := "អតិថិជន Sarah Smith បានស្នើសុំលុបចោលការកក់ #12338។ សងប្រាក់វិញកំពុងរងចាំការអនុម័ត។"
  const Notice4Title: string := "បានទទួលការទូទាត់"
  const Notice4Description: string := "បានទទួលការទូទាត់ $150 សម្រាប់ការកក់ #12335"
  const Notice5Title: string := "បានធ្វើបច្ចុប្បន្នភាពភាពអាចរកបានរបស់ជាងបច្ចេកទេស"
  const Notice5Description: string := "ជាងបច្ចេកទេស David Lee បានសម្គាល់ខ្លួនឯងថាមិនអាចរកបានសម្រាប់ថ្ងៃស្អែក"
  const Notice5Link: string := "/technicians/tech_005"
  const Notice6Title: string := "សេវាបានចាប់ផ្តើម"
  const Notice6Description: string := "ជាងបច្ចេកទេស Emma Wilson បានចាប់ផ្តើមសេវាពិនិត្យចន្លោះសម្រាប់ការកក់ #12330"
  const Notice7Title: string := "ការព្រមានស្តុកទាប"
  const Notice7Description: string := "ស្តុកប្រេងម៉ាស៊ីនកំពុងអស់ (នៅសល់ 5 ឯកតា)"
  const Notice8Title: string := "បានកំណត់ពេលវេលាការកក់ឡើងវិញ"
  const Notice8Description: string := "អតិថិជន Michael Brown បានកំណត់ពេលវេលាការកក់ #12325 ឡើងវិញទៅសប្តាហ៍ក្រោយ"

  function SeedNotifications(): seq<Notification> {
    [
      Notification(1, Booking, "សំណើកក់ថ្មី",
                   Notice1Description,
                   "៥ នាទីមុន", Unread, Normal, "/bookings/12345"),
      Notification(2, Technician, "សេវាបានបញ្ចប់",
                   Notice2Description,
                   "១៥ នាទីមុន", Unread, Normal, "/bookings/12340"),
      Notification(3, Booking, Notice3Title,
                   Notice3Description,
                   "៣០ នាទីមុន", Unread, Critical, "/bookings/12338"),
      Notification(4, System, Notice4Title,
                   Notice4Description,
                   "១ ម៉ោងមុន", Read, Normal, "/payments/12335"),
      Notification(5, Technician, Notice5Title,
                   Notice5Description,
                   "២ ម៉ោងមុន", Unread, Action, Notice5Link),
      Notification(6, Booking, Notice6Title,
                   Notice6Description,
                   "៣ ម៉ោងមុន", Read, Normal, "/bookings/12330"),
      Notification(7, System, Notice7Title,
                   Notice7Description,
                   "៤ ម៉ោងមុន", Unread, Action, "/inventory"),
      Notification(8, Booking, Notice8Title,
                   Notice8Description,
                   "៥ ម៉ោងមុន", Read, Normal, "/bookings/12325")
    ]
  }

  function EmptyForm(): SendForm {
    SendForm("", "", "")
  }

  function ApplyField(form: SendForm, field: FormField): SendForm {
    match field
    case Recipient(t) => form.(recipient := t)
    case Title(t) => form.(title := t)
    case Message(t) => form.(message := t)
  }

  function NotificationId(n: Notification): int {
    n.id
  }

  predicate IsUnread(n: Notification) {
    n.status == Unread
  }

  predicate IsBookingNotice(n: Notification) {
    n.kind == Booking
  }

  predicate IsTechnicianNotice(n: Notification) {
    n.kind == Technician
  }

  predicate IsSystemNotice(n: Notification) {
    n.kind == System
  }

  /** Action and critical notifications are the ones that need action. */
  predicate NeedsAction(n: Notification) {
    n.priority == Action || n.priority == Critical
  }

  /** What a tab shows of a notification, stated per tab. */
  predicate Shows(tab: FilterTab, n: Notification) {
    match tab
    case AllTab => true
    case UnreadTab => n.status == Unread
    case ActionTab => n.priority != Normal
    case BookingTab => n.kind == Booking
    case TechnicianTab => n.kind == Technician
    case SystemTab => n.kind == System
  }

  // ---------------------------------------------------------------------------
  // The list as shown

  /**
   * `getFilteredNotifications`: the notifications the tab shows, in list
   * order, and every one of them.
   */
  function FilteredNotifications(ns: seq<Notification>, tab: FilterTab): (r: seq<Notification>)
    ensures Sublist(r, ns)
    ensures forall i :: 0 <= i < |r| ==> Shows(tab, r[i])
    ensures forall i :: 0 <= i < |ns| && Shows(tab, ns[i]) ==> ns[i] in r
    ensures tab == AllTab ==> r == ns
  {
    var r := match tab
      case UnreadTab => Filter(ns, IsUnread)
      case ActionTab => Filter(ns, NeedsAction)
      case BookingTab => Filter(ns, IsBookingNotice)
      case TechnicianTab => Filter(ns, IsTechnicianNotice)
      case SystemTab => Filter(ns, IsSystemNotice)
      case AllTab => ns;
    FilteredIsSublist(ns, tab);
    r
  }

  lemma FilteredIsSublist(ns: seq<Notification>, tab: FilterTab)
    ensures tab == AllTab ==> Sublist(ns, ns)
    ensures tab == UnreadTab ==> Sublist(Filter(ns, IsUnread), ns)
    ensures tab == ActionTab ==> Sublist(Filter(ns, NeedsAction), ns)
    ensures tab == BookingTab ==> Sublist(Filter(ns, IsBookingNotice), ns)
    ensures tab == TechnicianTab ==> Sublist(Filter(ns, IsTechnicianNotice), ns)
    ensures tab == SystemTab ==> Sublist(Filter(ns, IsSystemNotice), ns)
  {
    match tab
    case UnreadTab => FilterIsSublist(ns, IsUnread);
    case ActionTab => FilterIsSublist(ns, NeedsAction);
    case BookingTab => FilterIsSublist(ns, IsBookingNotice);
    case TechnicianTab => FilterIsSublist(ns, IsTechnicianNotice);
    case SystemTab => FilterIsSublist(ns, IsSystemNotice);
    case AllTab => SublistReflexive(ns);
  }

  /** `unreadCount` */
  function UnreadCount(ns: seq<Notification>): nat {
    Count(ns, IsUnread)
  }

  /** `actionCount` */
  function ActionCount(ns: seq<Notification>): nat {
    Count(ns, NeedsAction)
  }

  /**
   * The badges of the tabs: the unread and action tabs show as many as their
   * counters say, and the three type tabs together show every notification
   * once, so their badges add up to the "all" badge.
   */
  lemma TabBadges(ns: seq<Notification>)
    ensures |FilteredNotifications(ns, UnreadTab)| == UnreadCount(ns)
    ensures |FilteredNotifications(ns, ActionTab)| == ActionCount(ns)
    ensures |FilteredNotifications(ns, BookingTab)| + |FilteredNotifications(ns, TechnicianTab)|
            + |FilteredNotifications(ns, SystemTab)| == |FilteredNotifications(ns, AllTab)|
  {
    CountThreeWay(ns, IsBookingNotice, IsTechnicianNotice,
                  IsSystemNotice);
  }

  // ---------------------------------------------------------------------------
  // Priority badges

  /** `getPriorityClass` */
  function PriorityClass(p: Priority): string {
    match p
    case Critical => "critical"
    case Action => "action"
    case Normal => ""
  }

  /** `getPriorityLabel`: "urgent", "needs action", "information". */
  function PriorityLabel(p: Priority): string {
    match p
    case Critical => "បន្ទាន់"
    case Action => "ត្រូវការសកម្មភាព"
    case Normal => "ព័ត៌មាន"
  }

  /** `getIconClass` */
  function IconColor(p: Priority): string {
    match p
    case Critical => "red"
    case Action => "orange"
    case Normal => "blue"
  }

  /**
   * Each badge tells the priorities apart: different priorities never share
   * a class, a label or an icon colour, and only a normal notification has
   * no priority class.
   */
  lemma PriorityBadgesDistinct(p: Priority, q: Priority)
    ensures p != q ==> PriorityClass(p) != PriorityClass(q) && PriorityLabel(p) != PriorityLabel(q) && IconColor(p) != IconColor(q)
    ensures PriorityClass(p) == "" <==> p == Normal
    ensures PriorityClass(p) != "" <==> NeedsAction(Notification(0, System, "", "", "", Unread, p, ""))
  {
  }

  // ---------------------------------------------------------------------------
  // Changes to the list

  /** `handleMarkAllRead` */
  function MarkAllRead(ns: seq<Notification>): seq<Notification> {
    seq(|ns|, i requires 0 <= i < |ns| => ns[i].(status := Read))
  }

  /** `handleNotificationClick`: the notifications with that id become read. */
  function MarkRead(ns: seq<Notification>, id: int): seq<Notification> {
    MapWhere(ns, (n: Notification) => n.id == id, (n: Notification) => n.(status := Read))
  }

  /** The notification that the send form creates under `id`. */
  function NewNotification(id: int, form: SendForm): Notification {
    Notification(id, System, form.title, form.message, JustNow, Unread, Normal, "#")
  }

  /** The form is sent only when no field is empty; blank text still counts as filled. */
  predicate FormComplete(form: SendForm) {
    form.recipient != "" && form.title != "" && form.message != ""
  }

  /**
   * The ids of the list are distinct and lie between 1 and its length, so
   * they are exactly 1 to the length, and the length plus one is free.
   */
  ghost predicate IdsNumbered(ns: seq<Notification>) {
    DistinctBy(ns, NotificationId) && forall i :: 0 <= i < |ns| ==> 1 <= ns[i].id <= |ns|
  }

  /**
   * Marking all read leaves nothing unread, keeps everything else of every
   * notification, keeps the action counter, and doing it twice is doing it
   * once.
   */
  lemma MarkAllReadEffect(ns: seq<Notification>)
    ensures |MarkAllRead(ns)| == |ns|
    ensures forall i :: 0 <= i < |ns| ==> MarkAllRead(ns)[i] == ns[i].(status := Read)
    ensures UnreadCount(MarkAllRead(ns)) == 0
    ensures ActionCount(MarkAllRead(ns)) == ActionCount(ns)
    ensures MarkAllRead(MarkAllRead(ns)) == MarkAllRead(ns)
    ensures IdsNumbered(ns) ==> IdsNumbered(MarkAllRead(ns))
  {
    SameActionCount(ns, MarkAllRead(ns));
  }

  /** Lists that agree on every priority have the same action counter. */
  lemma {:induction false} SameActionCount(a: seq<Notification>, b: seq<Notification>)
    requires |a| == |b| && forall i :: 0 <= i < |a| ==> a[i].priority == b[i].priority
    ensures ActionCount(a) == ActionCount(b)
  {
    if a != [] {
      SameActionCount(a[1..], b[1..]);
      assert NeedsAction(a[0]) == NeedsAction(b[0]);
    }
  }

  /**
   * Clicking the notification at position `j` of a list with distinct ids
   * marks that one read and no other, and lowers the unread counter by one
   * exactly when it was unread.
   */
  lemma MarkReadEffect(ns: seq<Notification>, j: int)
    requires IdsNumbered(ns) && 0 <= j < |ns|
    ensures MarkRead(ns, ns[j].id) == ns[j := ns[j].(status := Read)]
    ensures UnreadCount(MarkRead(ns, ns[j].id)) == UnreadCount(ns) - (if ns[j].status == Unread then 1 else 0)
    ensures IdsNumbered(MarkRead(ns, ns[j].id))
  {
    var x := ns[j].(status := Read);
    MapWhereSingle(ns, (n: Notification) => n.id == ns[j].id, (n: Notification) => n.(status := Read), j);
    CountUpdate(ns, j, x, IsUnread);
  }

  /**
   * Sending puts the new notification first under the length plus one, an
   * id no notification holds yet; the list stays numbered and the unread
   * counter grows by one.
   */
  lemma SendEffect(ns: seq<Notification>, form: SendForm)
    requires IdsNumbered(ns)
    ensures forall i :: 0 <= i < |ns| ==> ns[i].id != |ns| + 1
    ensures IdsNumbered([NewNotification(|ns| + 1, form)] + ns)
    ensures UnreadCount([NewNotification(|ns| + 1, form)] + ns) == UnreadCount(ns) + 1
  {
    var r := [NewNotification(|ns| + 1, form)] + ns;
    assert forall i :: 1 <= i < |r| ==> r[i] == ns[i - 1];
    FilterAppend([NewNotification(|ns| + 1, form)], ns, IsUnread);
  }

  lemma SeedNotificationsNumbered()
    ensures IdsNumbered(SeedNotifications())
  {
  }

  class NotificationsPage {
    var notifications: seq<Notification>
    var activeFilter: FilterTab
    var showSendForm: bool
    var formData: SendForm

    ghost predicate Valid()
      reads this
    {
      IdsNumbered(notifications)
    }

    constructor()
      ensures Valid()
      ensures notifications == SeedNotifications() && activeFilter == AllTab && !showSendForm && formData == EmptyForm()
    {
      notifications := SeedNotifications();
      activeFilter := AllTab;
      showSendForm := false;
      formData := EmptyForm();
      SeedNotificationsNumbered();
    }

    /** A filter tab was clicked. */
    method SetActiveFilter(tab: FilterTab)
      requires Valid()
      modifies this
      ensures Valid()
      ensures activeFilter == tab
      ensures notifications == old(notifications) && showSendForm == old(showSendForm) && formData == old(formData)
    {
      activeFilter := tab;
    }

    /** The send button opens the form; its overlay and close button close it. */
    method SetShowSendForm(show: bool)
      requires Valid()
      modifies this
      ensures Valid()
      ensures showSendForm == show
      ensures notifications == old(notifications) && activeFilter == old(activeFilter) && formData == old(formData)
    {
      showSendForm := show;
    }

    /** `handleFormChange` */
    method SetFormField(field: FormField)
      requires Valid()
      modifies this
      ensures Valid()
      ensures formData == ApplyField(old(formData), field)
      ensures notifications == old(notifications) && activeFilter == old(activeFilter) && showSendForm == old(showSendForm)
    {
      formData := ApplyField(formData, field);
    }

    method HandleMarkAllRead()
      requires Valid()
      modifies this
      ensures Valid()
      ensures notifications == MarkAllRead(old(notifications)) && UnreadCount(notifications) == 0
      ensures activeFilter == old(activeFilter) && showSendForm == old(showSendForm) && formData == old(formData)
    {
      MarkAllReadEffect(notifications);
      notifications := MarkAllRead(notifications);
    }

    /** Only a confirmed clear empties the list. */
    method HandleClearAll(confirmed: bool)
      requires Valid()
      modifies this
      ensures Valid()
      ensures notifications == if confirmed then [] else old(notifications)
      ensures activeFilter == old(activeFilter) && showSendForm == old(showSendForm) && formData == old(formData)
    {
      if confirmed {
        notifications := [];
      }
    }

    /** Clicking a listed notification marks it, and only it, read. */
    method HandleNotificationClick(n: Notification)
      requires Valid() && n in notifications
      modifies this
      ensures Valid()
      ensures notifications == MarkRead(old(notifications), n.id)
      ensures UnreadCount(notifications) == UnreadCount(old(notifications)) - (if n.status == Unread then 1 else 0)
      ensures activeFilter == old(activeFilter) && showSendForm == old(showSendForm) && formData == old(formData)
    {
      var j :| 0 <= j < |notifications| && notifications[j] == n;
      MarkReadEffect(notifications, j);
      notifications := MarkRead(notifications, n.id);
    }

    /**
     * An empty field stops the send and changes nothing. Otherwise the new
     * system notification goes first under a fresh id, the form is reset and
     * closed.
     */
    method HandleSendNotification()
      requires Valid()
      modifies this
      ensures Valid()
      ensures !FormComplete(old(formData)) ==>
        notifications == old(notifications) && formData == old(formData) && showSendForm == old(showSendForm)
      ensures FormComplete(old(formData)) ==>
        notifications == [NewNotification(|old(notifications)| + 1, old(formData))] + old(notifications)
        && formData == EmptyForm() && !showSendForm
      ensures activeFilter == old(activeFilter)
    {
      if formData.recipient == "" || formData.title == "" || formData.message == "" {
        return;
      }
      SendEffect(notifications, formData);
      notifications := [NewNotification(|notifications| + 1, formData)] + notifications;
      formData := EmptyForm();
      showSendForm := false;
    }
  }
}
