/**
 * The staff page (`src/pages/staff/Staff.tsx`): a list of staff members
 * searched by name, phone or role, edited in a modal form, added under the
 * largest id plus one, and deleted once confirmed.
 */
module Staff {
  import opened Wrappers
  import opened Text
  import opened Collections

  datatype StaffStatus = Active | Inactive

  datatype StaffItem = StaffItem(id: int, name: string, phone: string, role: string, status: StaffStatus)

  datatype StaffForm = StaffForm(name: string, phone: string, role: string, status: StaffStatus)

  datatype FormField = Name(text: string) | Phone(text: string) | Role(text: string) | Status(status: StaffStatus)

  /** The three members the page starts with; the first two names hold zero-width spaces. */
  function SeedStaff(): seq<StaffItem> {
    [
      StaffItem(1, "ជា\U{200B}\U{200B} មាលា ", "098 765 432", "អ្នកជួសជុល", Active),
      StaffItem(2, "ត\U{200B} កុសល ", "098 765 432", "អ្នកបង់ប្រាក់", Active),
      StaffItem(3, "ប៉ា ចាន់ណា", "077 888 999", "អ្នកគ្រប់គ្រង", Inactive)
    ]
  }

  function EmptyForm(): StaffForm {
    StaffForm("", "", "", Active)
  }

  function ApplyField(form: StaffForm, field: FormField): StaffForm {
    match field
    case Name(t) => form.(name := t)
    case Phone(t) => form.(phone := t)
    case Role(t) => form.(role := t)
    case Status(s) => form.(status := s)
  }

  function StaffId(s: StaffItem): int {
    s.id
  }

  // ---------------------------------------------------------------------------
  // Search

  /** The lowered name, phone or role includes the prepared query `q`. */
  predicate MatchesQuery(s: StaffItem, q: string) {
    Contains(ToLower(s.name), q) || Contains(ToLower(s.phone), q) || Contains(ToLower(s.role), q)
  }

  /**
   * `filtered`: a query that is blank once trimmed lists everyone; any other
   * query, trimmed and lowered, lists in order exactly the members whose
   * lowered name, phone or role includes it.
   */
  function FilteredStaff(staff: seq<StaffItem>, query: string): (r: seq<StaffItem>)
    ensures IsBlank(query) ==> r == staff
    ensures !IsBlank(query) ==>
      var q := ToLower(Trim(query));
      Sublist(r, staff)
      && (forall i :: 0 <= i < |r| ==> MatchesQuery(r[i], q))
      && (forall i :: 0 <= i < |staff| && MatchesQuery(staff[i], q) ==> staff[i] in r)
  {
    var q := ToLower(Trim(query));
    if q == "" then staff
    else
      var p := (s: StaffItem) => MatchesQuery(s, q);
      FilterIsSublist(staff, p);
      Filter(staff, p)
  }

  /** White space around the query changes nothing. */
  lemma SearchIgnoresOuterSpace(staff: seq<StaffItem>, query: string)
    ensures FilteredStaff(staff, Trim(query)) == FilteredStaff(staff, query)
  {
    TrimIdempotent(query);
  }

  // ---------------------------------------------------------------------------
  // Edits of the list

  /** `staff.find(x => x.id === id)` */
  function FindStaff(staff: seq<StaffItem>, id: int): (r: Option<StaffItem>)
    ensures r.Some? ==> r.value in staff && r.value.id == id
    ensures r.None? <==> forall i :: 0 <= i < |staff| ==> staff[i].id != id
  {
    if staff == [] then None
    else if staff[0].id == id then Some(staff[0])
    else FindStaff(staff[1..], id)
  }

  /** `{ ...p, ...form }`: the member keeps its id and takes every field of the form. */
  function Merge(s: StaffItem, form: StaffForm): StaffItem {
    StaffItem(s.id, form.name, form.phone, form.role, form.status)
  }

  function FormOf(s: StaffItem): StaffForm {
    StaffForm(s.name, s.phone, s.role, s.status)
  }

  /** The edit branch of `handleSave`. */
  function EditStaff(staff: seq<StaffItem>, id: int, form: StaffForm): seq<StaffItem> {
    MapWhere(staff, (s: StaffItem) => s.id == id, (s: StaffItem) => Merge(s, form))
  }

  /** `handleDelete` once confirmed. */
  function DeleteStaff(staff: seq<StaffItem>, id: int): seq<StaffItem> {
    Filter(staff, (s: StaffItem) => s.id != id)
  }

  function StaffIds(staff: seq<StaffItem>): (ids: seq<int>)
    ensures |ids| == |staff| && forall i :: 0 <= i < |staff| ==> ids[i] == staff[i].id
  {
    seq(|staff|, i requires 0 <= i < |staff| => staff[i].id)
  }

  /** `Math.max(0, ...staff.map(s => s.id)) + 1`: at least 1 and above every id. */
  function NextStaffId(staff: seq<StaffItem>): (id: int)
    ensures id >= 1
    ensures forall i :: 0 <= i < |staff| ==> staff[i].id < id
  {
    NextId(StaffIds(staff))
  }

  function NewStaff(staff: seq<StaffItem>, form: StaffForm): StaffItem {
    StaffItem(NextStaffId(staff), form.name, form.phone, form.role, form.status)
  }

  /**
   * An edit keeps the length, every id and every other member, and merges
   * the form into the members with that id.
   */
  lemma EditStaffEffect(staff: seq<StaffItem>, id: int, form: StaffForm)
    ensures |EditStaff(staff, id, form)| == |staff|
    ensures forall k :: 0 <= k < |staff| ==> EditStaff(staff, id, form)[k].id == staff[k].id
    ensures forall k :: 0 <= k < |staff| && staff[k].id != id ==> EditStaff(staff, id, form)[k] == staff[k]
    ensures forall k :: 0 <= k < |staff| && staff[k].id == id ==> FormOf(EditStaff(staff, id, form)[k]) == form
  {
  }

  /** Deleting keeps the others in order and drops exactly that id; with distinct ids, one member at most. */
  lemma DeleteStaffEffect(staff: seq<StaffItem>, id: int)
    ensures Sublist(DeleteStaff(staff, id), staff)
    ensures forall k :: 0 <= k < |DeleteStaff(staff, id)| ==> DeleteStaff(staff, id)[k].id != id
    ensures forall k :: 0 <= k < |staff| && staff[k].id != id ==> staff[k] in DeleteStaff(staff, id)
    ensures DistinctBy(staff, StaffId) ==>
      |DeleteStaff(staff, id)| == |staff| - (if exists k :: 0 <= k < |staff| && staff[k].id == id then 1 else 0)
  {
    var p := (s: StaffItem) => s.id != id;
    FilterIsSublist(staff, p);
    if DistinctBy(staff, StaffId) {
      FilterOutKey(staff, p, StaffId, id);
    }
  }

  /** Editing, adding under the next id and deleting all keep the ids distinct. */
  lemma SaveKeepsIdsDistinct(staff: seq<StaffItem>, id: int, form: StaffForm)
    requires DistinctBy(staff, StaffId)
    ensures DistinctBy(EditStaff(staff, id, form), StaffId)
    ensures DistinctBy(staff + [NewStaff(staff, form)], StaffId)
    ensures DistinctBy(DeleteStaff(staff, id), StaffId)
  {
    EditStaffEffect(staff, id, form);
    DistinctByAppend(staff, NewStaff(staff, form), StaffId);
    FilterKeepsDistinct(staff, (s: StaffItem) => s.id != id, StaffId);
  }

  /**
   * With distinct ids, opening a member for editing and saving the form
   * untouched leaves the list as it was.
   */
  lemma OpenThenSaveIsIdentity(staff: seq<StaffItem>, id: int)
    requires DistinctBy(staff, StaffId) && FindStaff(staff, id).Some?
    ensures EditStaff(staff, id, FormOf(FindStaff(staff, id).value)) == staff
  {
    var form := FormOf(FindStaff(staff, id).value);
    assert forall k :: 0 <= k < |staff| && staff[k].id == id ==> Merge(staff[k], form) == staff[k] by {
      FindStaffIsUnique(staff, id);
    }
  }

  /** With distinct ids, what `find` returns is every member with that id. */
  lemma FindStaffIsUnique(staff: seq<StaffItem>, id: int)
    requires DistinctBy(staff, StaffId) && FindStaff(staff, id).Some?
    ensures forall k :: 0 <= k < |staff| && staff[k].id == id ==> staff[k] == FindStaff(staff, id).value
  {
  }

  lemma SeedStaffIdsDistinct()
    ensures DistinctBy(SeedStaff(), StaffId)
  {
  }

  class StaffPage {
    var query: string
    var staff: seq<StaffItem>
    var showModal: bool
    var isEditMode: bool
    var current: Option<StaffItem>
    var form: StaffForm

    /** No two members share an id. */
    ghost predicate Valid()
      reads this
    {
      DistinctBy(staff, StaffId)
    }

    constructor()
      ensures Valid()
      ensures query == "" && staff == SeedStaff() && !showModal && !isEditMode && current == None && form == EmptyForm()
    {
      query := "";
      staff := SeedStaff();
      showModal := false;
      isEditMode := false;
      current := None;
      form := EmptyForm();
      SeedStaffIdsDistinct();
    }

    /** The search box. */
    method SetQuery(text: string)
      requires Valid()
      modifies this
      ensures Valid()
      ensures query == text
      ensures staff == old(staff) && showModal == old(showModal) && isEditMode == old(isEditMode)
      ensures current == old(current) && form == old(form)
    {
      query := text;
    }

    method SetField(field: FormField)
      requires Valid()
      modifies this
      ensures Valid()
      ensures form == ApplyField(old(form), field)
      ensures staff == old(staff) && query == old(query) && showModal == old(showModal)
      ensures isEditMode == old(isEditMode) && current == old(current)
    {
      form := ApplyField(form, field);
    }

    method OpenAdd()
      requires Valid()
      modifies this
      ensures Valid()
      ensures !isEditMode && current == None && form == EmptyForm() && showModal
      ensures staff == old(staff) && query == old(query)
    {
      isEditMode := false;
      current := None;
      form := EmptyForm();
      showModal := true;
    }

    /** An unknown id changes nothing; otherwise the member's fields fill the form. */
    method OpenEdit(id: int)
      requires Valid()
      modifies this
      ensures Valid()
      ensures FindStaff(old(staff), id).None? ==>
        showModal == old(showModal) && isEditMode == old(isEditMode) && current == old(current) && form == old(form)
      ensures FindStaff(old(staff), id).Some? ==>
        var s := FindStaff(old(staff), id).value;
        isEditMode && current == Some(s) && form == FormOf(s) && showModal
      ensures staff == old(staff) && query == old(query)
    {
      var found := FindStaff(staff, id);
      if found.None? {
        return;
      }
      var s := found.value;
      isEditMode := true;
      current := Some(s);
      form := FormOf(s);
      showModal := true;
    }

    method CloseModal()
      requires Valid()
      modifies this
      ensures Valid()
      ensures !showModal && current == None
      ensures staff == old(staff) && query == old(query) && isEditMode == old(isEditMode) && form == old(form)
    {
      showModal := false;
      current := None;
    }

    /**
     * A name that is blank once trimmed changes nothing. Otherwise an edit
     * merges the form into the member being edited, an addition appends a
     * member under the largest id plus one, and the modal closes.
     */
    method HandleSave()
      requires Valid()
      modifies this
      ensures Valid()
      ensures IsBlank(old(form).name) ==>
        staff == old(staff) && showModal == old(showModal) && current == old(current)
      ensures !IsBlank(old(form).name) && old(isEditMode) && old(current).Some? ==>
        staff == EditStaff(old(staff), old(current).value.id, old(form))
      ensures !IsBlank(old(form).name) && !(old(isEditMode) && old(current).Some?) ==>
        staff == old(staff) + [NewStaff(old(staff), old(form))]
      ensures !IsBlank(old(form).name) ==> !showModal && current == None
      ensures form == old(form) && isEditMode == old(isEditMode) && query == old(query)
    {
      if IsBlank(form.name) {
        return;
      }
      var editing := isEditMode && current.Some?;
      var target := if editing then current.value.id else 0;
      SaveKeepsIdsDistinct(staff, target, form);
      staff := if editing then EditStaff(staff, target, form) else staff + [NewStaff(staff, form)];
      CloseModal();
    }

    /** A confirmed delete removes the one member with that id, if any. */
    method HandleDelete(id: int, confirmed: bool)
      requires Valid()
      modifies this
      ensures Valid()
      ensures staff == if confirmed then DeleteStaff(old(staff), id) else old(staff)
      ensures confirmed ==>
        |staff| == |old(staff)| - (if exists k :: 0 <= k < |old(staff)| && old(staff)[k].id == id then 1 else 0)
      ensures query == old(query) && showModal == old(showModal) && isEditMode == old(isEditMode)
      ensures current == old(current) && form == old(form)
    {
      if confirmed {
        DeleteStaffEffect(staff, id);
        SaveKeepsIdsDistinct(staff, id, form);
        staff := DeleteStaff(staff, id);
      }
    }
  }
}
