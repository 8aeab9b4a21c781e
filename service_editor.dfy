/**
 * The service editor backed by the service store (`src/pages/services/services/Services.tsx`):
 * a service is turned into the form when it is opened, the form's rows are
 * edited by position, and a save that passes the name and price checks
 * turns the form back into the request payload of a create or an update.
 * The list itself lives in the store; the requests are the output.
 */
module ServiceEditor {
  import opened Wrappers
  import opened Text
  import opened Collections
  import opened ServiceSlice

  datatype ServiceStatus = Active | Inactive

  /** A product row of the form. */
  datatype ProductRow = ProductRow(name: string, quantity: int, isOptional: bool)

  datatype ServiceForm = ServiceForm(
    name: string,
    description: string,
    price: PriceField,
    durationMinutes: int,
    status: ServiceStatus,
    products: seq<ProductRow>)

  /** The inputs of the form; the duration input gives `Number(text) || 0`. */
  datatype FormField = Name(text: string) | Description(text: string) | Price(price: PriceField)
                     | Duration(minutes: int) | Status(status: ServiceStatus)

  /** What the row inputs pass to `updateProduct`; the quantity input gives `Number(text) || 1`. */
  datatype RowField = RowName(name: string) | RowQuantity(quantity: int) | RowOptional(isOptional: bool)

  /** The body of the create and update requests. */
  datatype ServicePayload = ServicePayload(
    name: string,
    description: string,
    imageUrl: string,
    price: real,
    durationMinutes: int,
    isAvailable: bool,
    associations: seq<ServiceAssociation>)

  /** What a save or a delete asks the store to do. */
  datatype Request = CreateService(payload: ServicePayload) | UpdateService(serviceId: int, payload: ServicePayload) | DeleteService(id: int)

  function EmptyForm(): ServiceForm {
    ServiceForm("", "", Blank, 60, Active, [])
  }

  function ApplyField(form: ServiceForm, field: FormField): ServiceForm {
    match field
    case Name(t) => form.(name := t)
    case Description(t) => form.(description := t)
    case Price(p) => form.(price := p)
    case Duration(m) => form.(durationMinutes := m)
    case Status(s) => form.(status := s)
  }

  // ---------------------------------------------------------------------------
  // Service to form and form to payload

  function RowOf(a: ServiceAssociation): ProductRow {
    ProductRow(a.productName, a.quantityRequired, a.isOptional)
  }

  function AssociationOf(r: ProductRow): ServiceAssociation {
    ServiceAssociation(r.name, r.quantity, r.isOptional)
  }

  function RowsOf(associations: seq<ServiceAssociation>): seq<ProductRow> {
    seq(|associations|, i requires 0 <= i < |associations| => RowOf(associations[i]))
  }

  function AssociationsOf(rows: seq<ProductRow>): seq<ServiceAssociation> {
    seq(|rows|, i requires 0 <= i < |rows| => AssociationOf(rows[i]))
  }

  /** `openEditModal`: availability becomes the status, each association a row. */
  function FormOf(s: Service): ServiceForm {
    ServiceForm(s.name, s.description, Typed(s.price), s.durationMinutes,
                if s.isAvailable then Active else Inactive, RowsOf(s.associations))
  }

  /** `handleSave`: the payload of the form, the preview and the checked price. */
  function PayloadOf(form: ServiceForm, preview: string, price: real): ServicePayload {
    ServicePayload(form.name, form.description, preview, price, form.durationMinutes,
                   form.status == Active, AssociationsOf(form.products))
  }

  /**
   * Rows and associations convert into each other without loss, so opening a
   * service and saving it untouched sends back its name, description, image,
   * price, duration, availability and associations.
   */
  lemma OpenThenSaveRoundTrip(s: Service)
    ensures PayloadOf(FormOf(s), s.imageUrl, s.price) ==
      ServicePayload(s.name, s.description, s.imageUrl, s.price, s.durationMinutes, s.isAvailable, s.associations)
    ensures PriceAccepted(FormOf(s).price) <==> s.price > 0.0
  {
    assert AssociationsOf(RowsOf(s.associations)) == s.associations;
  }

  /** Turning rows into associations and back gives the same rows. */
  lemma RowsRoundTrip(rows: seq<ProductRow>)
    ensures RowsOf(AssociationsOf(rows)) == rows
  {
    assert forall i :: 0 <= i < |rows| ==> RowOf(AssociationOf(rows[i])) == rows[i];
  }

  // ---------------------------------------------------------------------------
  // Rows

  function SetRowField(r: ProductRow, field: RowField): ProductRow {
    match field
    case RowName(n) => r.(name := n)
    case RowQuantity(q) => r.(quantity := q)
    case RowOptional(o) => r.(isOptional := o)
  }

  /** `addProductToService`: one empty, required row of quantity 1 at the end. */
  function AddRow(rows: seq<ProductRow>): seq<ProductRow> {
    rows + [ProductRow("", 1, false)]
  }

  /** `updateProduct(index, key, value)` */
  function UpdateRow(rows: seq<ProductRow>, index: int, field: RowField): seq<ProductRow> {
    UpdateAt(rows, index, (r: ProductRow) => SetRowField(r, field))
  }

  /**
   * The row edits touch one position: an update changes only the given field
   * of row `index`, a removal drops only row `index`, and an addition only
   * appends.
   */
  lemma RowEditsEffect(rows: seq<ProductRow>, index: int, field: RowField)
    ensures AddRow(rows)[..|rows|] == rows && AddRow(rows)[|rows|] == ProductRow("", 1, false)
    ensures |UpdateRow(rows, index, field)| == |rows|
    ensures forall k :: 0 <= k < |rows| && k != index ==> UpdateRow(rows, index, field)[k] == rows[k]
    ensures 0 <= index < |rows| ==> UpdateRow(rows, index, field)[index] == SetRowField(rows[index], field)
    ensures 0 <= index < |rows| ==> RemoveAt(rows, index) == rows[..index] + rows[index + 1..]
    ensures !(0 <= index < |rows|) ==> RemoveAt(rows, index) == rows
  {
    RemoveAtEffect(rows, index);
  }

  class ServiceEditorPage {
    var showModal: bool
    var isEditMode: bool
    var currentService: Option<Service>
    var imagePreview: string
    var formData: ServiceForm

    constructor()
      ensures !showModal && !isEditMode && currentService == None && imagePreview == "" && formData == EmptyForm()
    {
      showModal := false;
      isEditMode := false;
      currentService := None;
      imagePreview := "";
      formData := EmptyForm();
    }

    method OpenCreateModal()
      modifies this
      ensures !isEditMode && currentService == None && imagePreview == "" && formData == EmptyForm() && showModal
    {
      isEditMode := false;
      currentService := None;
      imagePreview := "";
      formData := EmptyForm();
      showModal := true;
    }

    method OpenEditModal(s: Service)
      modifies this
      ensures isEditMode && currentService == Some(s) && imagePreview == s.imageUrl && formData == FormOf(s) && showModal
    {
      isEditMode := true;
      currentService := Some(s);
      imagePreview := s.imageUrl;
      formData := FormOf(s);
      showModal := true;
    }

    method CloseModal()
      modifies this
      ensures !showModal && currentService == None && imagePreview == ""
      ensures formData == old(formData) && isEditMode == old(isEditMode)
    {
      showModal := false;
      currentService := None;
      imagePreview := "";
    }

    /** The image input once the file has been read. */
    method SetImagePreview(preview: string)
      modifies this
      ensures imagePreview == preview
      ensures formData == old(formData) && showModal == old(showModal)
      ensures isEditMode == old(isEditMode) && currentService == old(currentService)
    {
      imagePreview := preview;
    }

    method SetField(field: FormField)
      modifies this
      ensures formData == ApplyField(old(formData), field)
      ensures imagePreview == old(imagePreview) && showModal == old(showModal)
      ensures isEditMode == old(isEditMode) && currentService == old(currentService)
    {
      formData := ApplyField(formData, field);
    }

    method AddProductToService()
      modifies this
      ensures formData == old(formData).(products := AddRow(old(formData).products))
      ensures imagePreview == old(imagePreview) && showModal == old(showModal)
      ensures isEditMode == old(isEditMode) && currentService == old(currentService)
    {
      formData := formData.(products := AddRow(formData.products));
    }

    method RemoveProduct(index: int)
      modifies this
      ensures formData == old(formData).(products := RemoveAt(old(formData).products, index))
      ensures imagePreview == old(imagePreview) && showModal == old(showModal)
      ensures isEditMode == old(isEditMode) && currentService == old(currentService)
    {
      formData := formData.(products := RemoveAt(formData.products, index));
    }

    method UpdateProduct(index: int, field: RowField)
      modifies this
      ensures formData == old(formData).(products := UpdateRow(old(formData).products, index, field))
      ensures imagePreview == old(imagePreview) && showModal == old(showModal)
      ensures isEditMode == old(isEditMode) && currentService == old(currentService)
    {
      formData := formData.(products := UpdateRow(formData.products, index, field));
    }

    /**
     * A blank name, or an empty or non-positive price, sends nothing and
     * changes nothing. Otherwise the form's payload goes out as an update of
     * the current service or as a create, and the modal closes.
     */
    method HandleSave() returns (request: Option<Request>)
      modifies this
      ensures IsBlank(old(formData).name) || !PriceAccepted(old(formData).price) ==>
        request == None && showModal == old(showModal) && currentService == old(currentService) && imagePreview == old(imagePreview)
      ensures !IsBlank(old(formData).name) && PriceAccepted(old(formData).price) ==>
        var payload := PayloadOf(old(formData), old(imagePreview), old(formData).price.value);
        request == Some(if old(isEditMode) && old(currentService).Some? then UpdateService(old(currentService).value.serviceId, payload)
                        else CreateService(payload))
        && !showModal && currentService == None && imagePreview == ""
      ensures formData == old(formData) && isEditMode == old(isEditMode)
    {
      if IsBlank(formData.name) {
        return None;
      }
      if !PriceAccepted(formData.price) {
        return None;
      }
      var payload := PayloadOf(formData, imagePreview, formData.price.value);
      if isEditMode && currentService.Some? {
        request := Some(UpdateService(currentService.value.serviceId, payload));
      } else {
        request := Some(CreateService(payload));
      }
      CloseModal();
    }

    /** Only a confirmed delete sends the delete request. */
    method HandleDelete(id: int, confirmed: bool) returns (request: Option<Request>)
      ensures request == if confirmed then Some(DeleteService(id)) else None
    {
      request := if confirmed then Some(DeleteService(id)) else None;
    }
  }
}
