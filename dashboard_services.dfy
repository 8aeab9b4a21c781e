/**
 * The service editor of the dashboard (`src/pages/dashboard/Services.tsx`):
 * services with four-digit text ids allocated from the list length, product
 * rows edited by position, and a save that needs a name and a positive price.
 */
module DashboardServices {
  import opened Wrappers
  import opened Text
  import opened Collections

  datatype ServiceStatus = Active | Inactive

  /** A product row of a service: a name and a quantity. */
  datatype ProductRow = ProductRow(name: string, quantity: int)

  datatype Service = Service(
    id: string,
    name: string,
    description: string,
    price: real,
    status: ServiceStatus,
    products: seq<ProductRow>,
    image: Option<string>)

  datatype ServiceForm = ServiceForm(
    name: string,
    description: string,
    price: PriceField,
    status: ServiceStatus,
    products: seq<ProductRow>)

  datatype FormField = Name(text: string) | Description(text: string) | Price(price: PriceField) | Status(status: ServiceStatus)

  /** The longer texts of the seed services, named by position and field. */
  const Service1Name: string := "ការផ្លាស់ប្តូរប្រេងម៉ាស៊ីន"
  const Service1Description: string := "ផ្លាស់ប្តូរប្រេងម៉ាស៊ីនដោយប្រើប្រេងដែលមានគុណភាពខ្ពស់"
  const Service1Image: string := "https://images.unsplash.com/photo-1487754180451-c456f719a1fc?w=400&h=250&fit=crop"
  const Service2Description: string := "សម្អាតខាងក្នុងរថយន្តឱ្យស្អាតស្អំ"
  const Service2Image: string := "https://images.unsplash.com/photo-1607860108855-64acf2078ed9?w=400&h=250&fit=crop"
  const Service3Description: string := "ពិនិត្យនិងជួសជុលប្រព័ន្ធប្រេកង់"
  const Service3Image: string := "https://images.unsplash.com/photo-1625047509168-a7026f36de04?w=400&h=250&fit=crop"
  const Service4Description: string := "ផ្លាស់ប្តូរកង់ទៅកង់ថ្មី"
  const Service4Image: string := "https://images.unsplash.com/photo-1486262715619-67b85e0b08d3?w=400&h=250&fit=crop"

  function SeedServices(): seq<Service> {
    [
      Service("0001", Service1Name, Service1Description,
              25.0, Active, [ProductRow("Engine Oil", 1)],
              Some(Service1Image)),
      Service("0002", "សម្អាតខាងក្នុង", Service2Description,
              15.0, Active, [],
              Some(Service2Image)),
      Service("0003", "ពិនិត្យប្រេកង់", Service3Description,
              30.0, Active, [ProductRow("Brake Fluid", 1)],
              Some(Service3Image)),
      Service("0004", "ផ្លាស់ប្តូរកង់", Service4Description,
              80.0, Inactive, [],
              Some(Service4Image))
    ]
  }

  function EmptyForm(): ServiceForm {
    ServiceForm("", "", Blank, Active, [])
  }

  function ApplyField(form: ServiceForm, field: FormField): ServiceForm {
    match field
    case Name(t) => form.(name := t)
    case Description(t) => form.(description := t)
    case Price(p) => form.(price := p)
    case Status(s) => form.(status := s)
  }

  /** `openEditModal`: the form holds the service's fields, its price as text. */
  function FormOf(s: Service): ServiceForm {
    ServiceForm(s.name, s.description, Typed(s.price), s.status, s.products)
  }

  /** `openEditModal`: the preview starts as the service's image, or empty. */
  function PreviewOf(s: Service): string {
    if s.image.Some? then s.image.value else ""
  }

  // ---------------------------------------------------------------------------
  // Product rows

  /** Every row asks for at least one unit. */
  ghost predicate RowsPositive(rows: seq<ProductRow>) {
    forall k :: 0 <= k < |rows| ==> rows[k].quantity >= 1
  }

  /** `addProductToService`: one empty row of quantity 1 at the end. */
  function AddRow(rows: seq<ProductRow>): seq<ProductRow> {
    rows + [ProductRow("", 1)]
  }

  /** `removeProduct(index)` */
  function RemoveRow(rows: seq<ProductRow>, index: int): seq<ProductRow> {
    RemoveAt(rows, index)
  }

  /** `updateProductName(index, name)` */
  function RenameRow(rows: seq<ProductRow>, index: int, name: string): seq<ProductRow> {
    UpdateAt(rows, index, (r: ProductRow) => r.(name := name))
  }

  /** `updateProductQuantity(index, quantity)`, clamped to at least 1. */
  function SetRowQuantity(rows: seq<ProductRow>, index: int, quantity: int): seq<ProductRow> {
    UpdateAt(rows, index, (r: ProductRow) => r.(quantity := AtLeastOne(quantity)))
  }

  /** Adding appends one empty row of quantity 1 after the unchanged earlier rows. */
  lemma AddRowEffect(rows: seq<ProductRow>)
    ensures |AddRow(rows)| == |rows| + 1 && AddRow(rows)[..|rows|] == rows
    ensures AddRow(rows)[|rows|] == ProductRow("", 1)
    ensures RowsPositive(rows) ==> RowsPositive(AddRow(rows))
  {
  }

  /** Removing by position drops exactly the row at that index, if there is one, keeping the others in order. */
  lemma RemoveRowEffect(rows: seq<ProductRow>, index: int)
    ensures |RemoveRow(rows, index)| == if 0 <= index < |rows| then |rows| - 1 else |rows|
    ensures forall k :: 0 <= k < index && k < |rows| ==> RemoveRow(rows, index)[k] == rows[k]
    ensures forall k :: 0 <= index <= k < |rows| - 1 ==> RemoveRow(rows, index)[k] == rows[k + 1]
    ensures RowsPositive(rows) ==> RowsPositive(RemoveRow(rows, index))
  {
    RemoveAtEffect(rows, index);
    if RowsPositive(rows) && 0 <= index < |rows| {
      var r := RemoveRow(rows, index);
      forall k | 0 <= k < |r| ensures r[k].quantity >= 1 {
        if k < index {
          assert r[k] == rows[k];
        } else {
          assert r[k] == rows[k + 1];
        }
      }
    }
  }

  /**
   * The row updates change only the row at that index: a rename keeps its
   * quantity, a quantity update keeps its name and stores max(1, q).
   */
  lemma UpdateRowEffect(rows: seq<ProductRow>, index: int, name: string, quantity: int)
    ensures |RenameRow(rows, index, name)| == |rows| && |SetRowQuantity(rows, index, quantity)| == |rows|
    ensures forall k :: 0 <= k < |rows| && k != index ==>
      RenameRow(rows, index, name)[k] == rows[k] && SetRowQuantity(rows, index, quantity)[k] == rows[k]
    ensures 0 <= index < |rows| ==>
      RenameRow(rows, index, name)[index] == ProductRow(name, rows[index].quantity)
      && SetRowQuantity(rows, index, quantity)[index] == ProductRow(rows[index].name, if quantity > 1 then quantity else 1)
    ensures RowsPositive(rows) ==> RowsPositive(RenameRow(rows, index, name)) && RowsPositive(SetRowQuantity(rows, index, quantity))
  {
  }

  // ---------------------------------------------------------------------------
  // Saving

  /** `String(n).padStart(4, '0')` */
  function ServiceCode(n: nat): string {
    PadNumber(n, 4)
  }

  function EditedService(s: Service, form: ServiceForm, preview: string, price: real): Service {
    s.(name := form.name, description := form.description, price := price, status := form.status,
       products := form.products, image := if preview != "" then Some(preview) else s.image)
  }

  function NewService(id: string, form: ServiceForm, preview: string, price: real): Service {
    Service(id, form.name, form.description, price, form.status, form.products, Some(preview))
  }

  /** The edit branch of `handleSave`: every service with that id becomes the edited service. */
  function EditServices(services: seq<Service>, id: string, form: ServiceForm, preview: string, price: real): seq<Service> {
    MapWhere(services, (s: Service) => s.id == id, (s: Service) => EditedService(s, form, preview, price))
  }

  /** `handleDelete` once confirmed. */
  function DeleteService(services: seq<Service>, id: string): seq<Service> {
    Filter(services, (s: Service) => s.id != id)
  }

  /** The stored services: positive prices and rows of at least one unit. */
  ghost predicate ServiceStore(services: seq<Service>) {
    forall i :: 0 <= i < |services| ==> services[i].price > 0.0 && RowsPositive(services[i].products)
  }

  /**
   * An edit rewrites exactly the services with that id and keeps the id, the
   * order and, without a new preview, the image; a save of an accepted form
   * and a delete keep the stored services sound.
   */
  lemma SaveEffect(services: seq<Service>, id: string, form: ServiceForm, preview: string, price: real)
    ensures |EditServices(services, id, form, preview, price)| == |services|
    ensures forall k :: 0 <= k < |services| && services[k].id != id ==> EditServices(services, id, form, preview, price)[k] == services[k]
    ensures forall k :: 0 <= k < |services| && services[k].id == id ==>
      EditServices(services, id, form, preview, price)[k].id == id
      && EditServices(services, id, form, preview, price)[k].price == price
      && EditServices(services, id, form, preview, price)[k].image == (if preview != "" then Some(preview) else services[k].image)
    ensures ServiceStore(services) && RowsPositive(form.products) && price > 0.0 ==>
      ServiceStore(EditServices(services, id, form, preview, price))
      && ServiceStore(services + [NewService(ServiceCode(|services| + 1), form, preview, price)])
      && ServiceStore(DeleteService(services, id))
  {
  }

  /** Opening a service for editing and saving it unchanged gives back the same service. */
  lemma OpenThenSaveIsIdentity(s: Service)
    ensures EditedService(s, FormOf(s), PreviewOf(s), s.price) == s
  {
  }

  lemma SeedServicesStore()
    ensures ServiceStore(SeedServices())
  {
  }

  /** The seed services are coded by position: `0001`, `0002`, `0003`, `0004`. */
  lemma SeedServicesCoded()
    ensures |SeedServices()| == 4
    ensures SeedServices()[0].id == ServiceCode(1) && SeedServices()[1].id == ServiceCode(2)
    ensures SeedServices()[2].id == ServiceCode(3) && SeedServices()[3].id == ServiceCode(4)
  {
    assert ServiceCode(1) == "0001" && ServiceCode(2) == "0002";
    assert ServiceCode(3) == "0003" && ServiceCode(4) == "0004";
  }

  /**
   * Because the id is the list length plus one, once the services are coded by
   * position (as the seeds are), deleting `0001` and creating a new service
   * hands out the code the last service still holds.
   */
  lemma DeleteThenCreateRepeatsId(services: seq<Service>)
    requires |services| >= 2
    requires forall k :: 0 <= k < |services| ==> services[k].id == ServiceCode(k + 1)
    ensures DeleteService(services, ServiceCode(1)) == services[1..]
    ensures ServiceCode(|DeleteService(services, ServiceCode(1))| + 1) == services[|services| - 1].id
  {
    forall k | 1 <= k < |services| ensures services[k].id != ServiceCode(1) {
      PadNumberRoundTrip(1, 4);
      PadNumberRoundTrip(k + 1, 4);
    }
    DeleteFirst(services, ServiceCode(1));
  }

  /** Deleting the id only the first service holds leaves the rest. */
  lemma {:induction false} DeleteFirst(services: seq<Service>, id: string)
    requires |services| >= 1 && services[0].id == id
    requires forall k :: 1 <= k < |services| ==> services[k].id != id
    ensures DeleteService(services, id) == services[1..]
  {
    var p := (s: Service) => s.id != id;
    FilterKeepsAll(services[1..], p);
  }

  class ServicesPage {
    var services: seq<Service>
    var showModal: bool
    var isEditMode: bool
    var currentService: Option<Service>
    var imagePreview: string
    var formData: ServiceForm

    /** Stored prices are positive and every row, stored or in the form, asks for at least one unit. */
    ghost predicate Valid()
      reads this
    {
      ServiceStore(services) && RowsPositive(formData.products)
    }

    constructor()
      ensures Valid()
      ensures services == SeedServices()
      ensures !showModal && !isEditMode && currentService == None && imagePreview == "" && formData == EmptyForm()
    {
      services := SeedServices();
      SeedServicesStore();
      showModal := false;
      isEditMode := false;
      currentService := None;
      imagePreview := "";
      formData := EmptyForm();
    }

    method OpenCreateModal()
      requires Valid()
      modifies this
      ensures Valid()
      ensures !isEditMode && currentService == None && imagePreview == "" && formData == EmptyForm() && showModal
      ensures services == old(services)
    {
      isEditMode := false;
      currentService := None;
      imagePreview := "";
      formData := EmptyForm();
      showModal := true;
    }

    method OpenEditModal(s: Service)
      requires Valid() && s in services
      modifies this
      ensures Valid()
      ensures isEditMode && currentService == Some(s) && imagePreview == PreviewOf(s) && formData == FormOf(s) && showModal
      ensures services == old(services)
    {
      isEditMode := true;
      currentService := Some(s);
      imagePreview := PreviewOf(s);
      formData := FormOf(s);
      showModal := true;
    }

    method CloseModal()
      requires Valid()
      modifies this
      ensures Valid()
      ensures !showModal && currentService == None && imagePreview == ""
      ensures services == old(services) && formData == old(formData) && isEditMode == old(isEditMode)
    {
      showModal := false;
      currentService := None;
      imagePreview := "";
    }

    /** The image input once the file has been read, and its remove button with `preview == ""`. */
    method SetImagePreview(preview: string)
      requires Valid()
      modifies this
      ensures Valid()
      ensures imagePreview == preview
      ensures services == old(services) && formData == old(formData) && showModal == old(showModal)
      ensures isEditMode == old(isEditMode) && currentService == old(currentService)
    {
      imagePreview := preview;
    }

    method SetField(field: FormField)
      requires Valid()
      modifies this
      ensures Valid()
      ensures formData == ApplyField(old(formData), field)
      ensures services == old(services) && imagePreview == old(imagePreview) && showModal == old(showModal)
      ensures isEditMode == old(isEditMode) && currentService == old(currentService)
    {
      formData := ApplyField(formData, field);
    }

    method AddProductToService()
      requires Valid()
      modifies this
      ensures Valid()
      ensures formData == old(formData).(products := AddRow(old(formData).products))
      ensures services == old(services) && imagePreview == old(imagePreview) && showModal == old(showModal)
      ensures isEditMode == old(isEditMode) && currentService == old(currentService)
    {
      AddRowEffect(formData.products);
      formData := formData.(products := AddRow(formData.products));
    }

    method RemoveProduct(index: int)
      requires Valid()
      modifies this
      ensures Valid()
      ensures formData == old(formData).(products := RemoveRow(old(formData).products, index))
      ensures services == old(services) && imagePreview == old(imagePreview) && showModal == old(showModal)
      ensures isEditMode == old(isEditMode) && currentService == old(currentService)
    {
      RemoveRowEffect(formData.products, index);
      formData := formData.(products := RemoveRow(formData.products, index));
    }

    method UpdateProductName(index: int, name: string)
      requires Valid()
      modifies this
      ensures Valid()
      ensures formData == old(formData).(products := RenameRow(old(formData).products, index, name))
      ensures services == old(services) && imagePreview == old(imagePreview) && showModal == old(showModal)
      ensures isEditMode == old(isEditMode) && currentService == old(currentService)
    {
      UpdateRowEffect(formData.products, index, name, 1);
      formData := formData.(products := RenameRow(formData.products, index, name));
    }

    /** The quantity input passes `parseInt(text) || 1`; the handler clamps it to at least 1. */
    method UpdateProductQuantity(index: int, quantity: int)
      requires Valid()
      modifies this
      ensures Valid()
      ensures formData == old(formData).(products := SetRowQuantity(old(formData).products, index, quantity))
      ensures services == old(services) && imagePreview == old(imagePreview) && showModal == old(showModal)
      ensures isEditMode == old(isEditMode) && currentService == old(currentService)
    {
      UpdateRowEffect(formData.products, index, "", quantity);
      formData := formData.(products := SetRowQuantity(formData.products, index, quantity));
    }

    /**
     * A blank name, or an empty or non-positive price, leaves everything as it
     * is. Otherwise an edit rewrites the services with the current id, a
     * create appends one under the list length plus one, and the modal closes.
     */
    method HandleSave()
      requires Valid()
      modifies this
      ensures Valid()
      ensures IsBlank(old(formData).name) || !PriceAccepted(old(formData).price) ==>
        services == old(services) && showModal == old(showModal) && currentService == old(currentService) && imagePreview == old(imagePreview)
      ensures !IsBlank(old(formData).name) && PriceAccepted(old(formData).price) && old(isEditMode) && old(currentService).Some? ==>
        services == EditServices(old(services), old(currentService).value.id, old(formData), old(imagePreview), old(formData).price.value)
      ensures !IsBlank(old(formData).name) && PriceAccepted(old(formData).price) && !(old(isEditMode) && old(currentService).Some?) ==>
        services == old(services) + [NewService(ServiceCode(|old(services)| + 1), old(formData), old(imagePreview), old(formData).price.value)]
      ensures !IsBlank(old(formData).name) && PriceAccepted(old(formData).price) ==>
        !showModal && currentService == None && imagePreview == ""
      ensures formData == old(formData) && isEditMode == old(isEditMode)
    {
      if IsBlank(formData.name) {
        return;
      }
      if !PriceAccepted(formData.price) {
        return;
      }
      StoreForm();
    }

    /** The part of `handleSave` after validation: store the form's service and close the modal. */
    method StoreForm()
      requires Valid() && PriceAccepted(formData.price)
      modifies this
      ensures Valid()
      ensures old(isEditMode) && old(currentService).Some? ==>
        services == EditServices(old(services), old(currentService).value.id, old(formData), old(imagePreview), old(formData).price.value)
      ensures !(old(isEditMode) && old(currentService).Some?) ==>
        services == old(services) + [NewService(ServiceCode(|old(services)| + 1), old(formData), old(imagePreview), old(formData).price.value)]
      ensures !showModal && currentService == None && imagePreview == ""
      ensures formData == old(formData) && isEditMode == old(isEditMode)
    {
      var price := formData.price.value;
      var editing := isEditMode && currentService.Some?;
      var target := if editing then currentService.value.id else "";
      SaveEffect(services, target, formData, imagePreview, price);
      services := if editing then EditServices(services, target, formData, imagePreview, price)
                  else services + [NewService(ServiceCode(|services| + 1), formData, imagePreview, price)];
      CloseModal();
    }

    /** A confirmed delete removes the services with that id. */
    method HandleDelete(id: string, confirmed: bool)
      requires Valid()
      modifies this
      ensures Valid()
      ensures services == if confirmed then DeleteService(old(services), id) else old(services)
      ensures formData == old(formData) && imagePreview == old(imagePreview) && showModal == old(showModal)
      ensures isEditMode == old(isEditMode) && currentService == old(currentService)
    {
      if confirmed {
        SaveEffect(services, id, formData, imagePreview, 1.0);
        services := DeleteService(services, id);
      }
    }
  }
}
