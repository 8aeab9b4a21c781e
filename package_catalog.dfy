/**
 * What the three service-package pages share: the fixed catalogue of services
 * and products with their prices, the package and form records, the list
 * edits of the package form (add without duplicates, remove by name, clamp a
 * quantity to at least 1), the automatic price and the save-time records.
 */
module PackageCatalog {
  import opened Wrappers
  import opened Text
  import opened Collections

  datatype CatalogEntry = CatalogEntry(id: string, name: string, price: real)

  datatype PackageProduct = PackageProduct(name: string, quantity: int)

  datatype PackageStatus = Active | Inactive

  /** A package; the pages differ in the type of its id (`PKG001` text or a number). */
  datatype ServicePackage<Id> = ServicePackage(
    id: Id,
    name: string,
    description: string,
    price: real,
    status: PackageStatus,
    services: seq<string>,
    products: seq<PackageProduct>,
    image: Option<string>)

  datatype PackageForm = PackageForm(
    name: string,
    description: string,
    price: PriceField,
    status: PackageStatus,
    services: seq<string>,
    products: seq<PackageProduct>)

  /** One of the plain inputs of the package form. */
  datatype FormField = Name(text: string) | Description(text: string) | Price(price: PriceField) | Status(status: PackageStatus)

  function AvailableServices(): seq<CatalogEntry> {
    [
      CatalogEntry("SRV001", "Oil Change", 25.0),
      CatalogEntry("SRV002", "Brake Cleaning", 30.0),
      CatalogEntry("SRV003", "Car Wash", 15.0),
      CatalogEntry("SRV004", "Filter Check", 20.0),
      CatalogEntry("SRV005", "Tire Rotation", 35.0),
      CatalogEntry("SRV006", "Battery Check", 10.0)
    ]
  }

  function AvailableProducts(): seq<CatalogEntry> {
    [
      CatalogEntry("PRD001", "Engine Oil", 15.0),
      CatalogEntry("PRD002", "Brake Fluid", 8.0),
      CatalogEntry("PRD003", "Air Filter", 12.0),
      CatalogEntry("PRD004", "Oil Filter", 10.0),
      CatalogEntry("PRD005", "Wax Polish", 18.0),
      CatalogEntry("PRD006", "Tire Shine", 7.0)
    ]
  }

  function EmptyForm(): PackageForm {
    PackageForm("", "", Blank, Active, [], [])
  }

  function ApplyField(form: PackageForm, field: FormField): PackageForm {
    match field
    case Name(t) => form.(name := t)
    case Description(t) => form.(description := t)
    case Price(p) => form.(price := p)
    case Status(s) => form.(status := s)
  }

  // ---------------------------------------------------------------------------
  // Catalogue look-up and the automatic price

  /** `catalog.find(e => e.name === name)?.price`: the price of the first entry with that name. */
  function PriceOf(catalog: seq<CatalogEntry>, name: string): Option<real> {
    if catalog == [] then None
    else if catalog[0].name == name then Some(catalog[0].price)
    else PriceOf(catalog[1..], name)
  }

  /**
   * The look-up finds nothing exactly when no entry has the name, and what it
   * finds is the price of the first entry with that name.
   */
  lemma {:induction false} PriceOfFindsFirst(catalog: seq<CatalogEntry>, name: string)
    ensures PriceOf(catalog, name).None? <==> forall i :: 0 <= i < |catalog| ==> catalog[i].name != name
    ensures PriceOf(catalog, name).Some? ==>
      exists i :: (0 <= i < |catalog| && catalog[i].name == name && catalog[i].price == PriceOf(catalog, name).value
                   && forall k :: 0 <= k < i ==> catalog[k].name != name)
  {
    if catalog != [] && catalog[0].name != name {
      PriceOfFindsFirst(catalog[1..], name);
      var r := PriceOf(catalog[1..], name);
      if r.Some? {
        var i :| 0 <= i < |catalog[1..]| && catalog[1..][i].name == name && catalog[1..][i].price == r.value
          && forall k :: 0 <= k < i ==> catalog[1..][k].name != name;
        assert catalog[i + 1] == catalog[1..][i];
        forall k | 0 <= k < i + 1 ensures catalog[k].name != name {
          if k > 0 {
            assert catalog[k] == catalog[1..][k - 1];
          }
        }
      }
    }
  }

  /** What one selected service adds to the automatic price: its catalogue price, or 0 if unknown. */
  function ServiceCost(name: string): real {
    match PriceOf(AvailableServices(), name)
    case None => 0.0
    case Some(p) => p
  }

  /** What one selected product adds: catalogue price times quantity, or 0 if unknown. */
  function ProductCost(product: PackageProduct): real {
    match PriceOf(AvailableProducts(), product.name)
    case None => 0.0
    case Some(p) => p * product.quantity as real
  }

  function ServicesTotal(services: seq<string>): real {
    if services == [] then 0.0 else ServicesTotal(services[..|services| - 1]) + ServiceCost(services[|services| - 1])
  }

  function ProductsTotal(products: seq<PackageProduct>): real {
    if products == [] then 0.0 else ProductsTotal(products[..|products| - 1]) + ProductCost(products[|products| - 1])
  }

  /** The automatic package price: every selected service plus every selected product times its quantity. */
  function AutoPrice(services: seq<string>, products: seq<PackageProduct>): real {
    ServicesTotal(services) + ProductsTotal(products)
  }

  /** `calculateTotalPrice`: the two `forEach` loops that accumulate `total`. */
  method CalculateTotalPrice(services: seq<string>, products: seq<PackageProduct>) returns (total: real)
    ensures total == AutoPrice(services, products)
  {
    total := 0.0;
    var i := 0;
    while i < |services|
      invariant 0 <= i <= |services|
      invariant total == ServicesTotal(services[..i])
    {
      ServicesTotalStep(services, i);
      var found := PriceOf(AvailableServices(), services[i]);
      if found.Some? {
        total := total + found.value;
      }
      i := i + 1;
    }
    assert services[..i] == services;
    var j := 0;
    while j < |products|
      invariant 0 <= j <= |products|
      invariant total == ServicesTotal(services) + ProductsTotal(products[..j])
    {
      ProductsTotalStep(products, j);
      var found := PriceOf(AvailableProducts(), products[j].name);
      if found.Some? {
        total := total + found.value * products[j].quantity as real;
      }
      j := j + 1;
    }
    assert products[..j] == products;
  }

  lemma ServicesTotalStep(services: seq<string>, i: int)
    requires 0 <= i < |services|
    ensures ServicesTotal(services[..i + 1]) == ServicesTotal(services[..i]) + ServiceCost(services[i])
  {
    assert services[..i + 1][..i] == services[..i];
  }

  lemma ProductsTotalStep(products: seq<PackageProduct>, j: int)
    requires 0 <= j < |products|
    ensures ProductsTotal(products[..j + 1]) == ProductsTotal(products[..j]) + ProductCost(products[j])
  {
    assert products[..j + 1][..j] == products[..j];
  }

  /** A service name that is not in the catalogue adds nothing to the automatic price. */
  lemma UnknownServiceAddsNothing(services: seq<string>, name: string)
    requires forall i :: 0 <= i < |AvailableServices()| ==> AvailableServices()[i].name != name
    ensures AutoPrice(services + [name], []) == AutoPrice(services, [])
  {
    PriceOfFindsFirst(AvailableServices(), name);
    assert (services + [name])[..|services|] == services;
  }

  /** A product name that is not in the catalogue adds nothing, whatever its quantity. */
  lemma UnknownProductAddsNothing(products: seq<PackageProduct>, product: PackageProduct)
    requires forall i :: 0 <= i < |AvailableProducts()| ==> AvailableProducts()[i].name != product.name
    ensures AutoPrice([], products + [product]) == AutoPrice([], products)
  {
    PriceOfFindsFirst(AvailableProducts(), product.name);
    assert (products + [product])[..|products|] == products;
  }

  /** Selecting a catalogue service raises the automatic price by exactly its catalogue price. */
  lemma CatalogueServiceAddsItsPrice(services: seq<string>, products: seq<PackageProduct>, k: int)
    requires 0 <= k < |AvailableServices()|
    ensures AutoPrice(services + [AvailableServices()[k].name], products)
         == AutoPrice(services, products) + AvailableServices()[k].price
  {
    var s := services + [AvailableServices()[k].name];
    assert s[..|services|] == services;
    PriceOfFindsFirst(AvailableServices(), AvailableServices()[k].name);
  }

  /** Every catalogue price is positive. */
  lemma CataloguePricesPositive()
    ensures forall i :: 0 <= i < |AvailableServices()| ==> AvailableServices()[i].price > 0.0
    ensures forall i :: 0 <= i < |AvailableProducts()| ==> AvailableProducts()[i].price > 0.0
  {
  }

  /** With quantities of at least 1 the automatic price is never negative. */
  lemma {:induction false} AutoPriceNonNegative(services: seq<string>, products: seq<PackageProduct>)
    requires QuantitiesPositive(products)
    ensures AutoPrice(services, products) >= 0.0
  {
    CataloguePricesPositive();
    ServicesTotalNonNegative(services);
    ProductsTotalNonNegative(products);
  }

  lemma {:induction false} ServicesTotalNonNegative(services: seq<string>)
    requires forall i :: 0 <= i < |AvailableServices()| ==> AvailableServices()[i].price > 0.0
    ensures ServicesTotal(services) >= 0.0
  {
    if services != [] {
      ServicesTotalNonNegative(services[..|services| - 1]);
      PriceOfFindsFirst(AvailableServices(), services[|services| - 1]);
    }
  }

  lemma {:induction false} ProductsTotalNonNegative(products: seq<PackageProduct>)
    requires forall i :: 0 <= i < |AvailableProducts()| ==> AvailableProducts()[i].price > 0.0
    requires QuantitiesPositive(products)
    ensures ProductsTotal(products) >= 0.0
  {
    if products != [] {
      var init := products[..|products| - 1];
      assert QuantitiesPositive(init) by {
        forall k | 0 <= k < |init| ensures init[k].quantity >= 1 {
          assert init[k] == products[k];
        }
      }
      ProductsTotalNonNegative(init);
      ProductCostNonNegative(products[|products| - 1]);
    }
  }

  lemma ProductCostNonNegative(product: PackageProduct)
    requires forall i :: 0 <= i < |AvailableProducts()| ==> AvailableProducts()[i].price > 0.0
    requires product.quantity >= 1
    ensures ProductCost(product) >= 0.0
  {
    var found := PriceOf(AvailableProducts(), product.name);
    PriceOfFindsFirst(AvailableProducts(), product.name);
    if found.Some? {
      assert found.value > 0.0;
    }
  }

  // ---------------------------------------------------------------------------
  // Editing the selected services and products

  function ProductName(product: PackageProduct): string {
    product.name
  }

  ghost predicate QuantitiesPositive(products: seq<PackageProduct>) {
    forall k :: 0 <= k < |products| ==> products[k].quantity >= 1
  }

  /** Services without duplicates; products with distinct names and quantities of at least 1. */
  ghost predicate SelectionWellFormed(services: seq<string>, products: seq<PackageProduct>) {
    NoDuplicates(services) && DistinctBy(products, ProductName) && QuantitiesPositive(products)
  }

  /** `addServiceToPackage`: the name is appended unless it is already selected. */
  function AddService(services: seq<string>, name: string): seq<string> {
    if name in services then services else services + [name]
  }

  predicate HasProduct(products: seq<PackageProduct>, name: string) {
    exists k :: 0 <= k < |products| && products[k].name == name
  }

  /** `addProductToPackage`: `{name, quantity: 1}` is appended unless a product has that name. */
  function AddProduct(products: seq<PackageProduct>, name: string): seq<PackageProduct> {
    if HasProduct(products, name) then products else products + [PackageProduct(name, 1)]
  }

  /** `removeService` */
  function RemoveService(services: seq<string>, name: string): seq<string> {
    Filter(services, (s: string) => s != name)
  }

  /** `removeProduct` */
  function RemoveProduct(products: seq<PackageProduct>, name: string): seq<PackageProduct> {
    Filter(products, (p: PackageProduct) => p.name != name)
  }

  /** `updateProductQuantity` */
  function UpdateQuantity(products: seq<PackageProduct>, name: string, quantity: int): seq<PackageProduct> {
    MapWhere(products, (p: PackageProduct) => p.name == name, (p: PackageProduct) => p.(quantity := AtLeastOne(quantity)))
  }

  /**
   * Adding a service keeps the earlier ones in order, makes the name selected,
   * grows the list by at most one and never creates a duplicate.
   */
  lemma AddServiceEffect(services: seq<string>, name: string)
    ensures name in AddService(services, name)
    ensures AddService(services, name)[..|services|] == services
    ensures |AddService(services, name)| == |services| + (if name in services then 0 else 1)
    ensures NoDuplicates(services) ==> NoDuplicates(AddService(services, name))
  {
  }

  /**
   * Adding a product keeps the earlier ones, appends a product of quantity 1
   * only when the name is new, and keeps names distinct and quantities positive.
   */
  lemma AddProductEffect(products: seq<PackageProduct>, name: string)
    ensures HasProduct(AddProduct(products, name), name)
    ensures AddProduct(products, name)[..|products|] == products
    ensures !HasProduct(products, name) ==> AddProduct(products, name) == products + [PackageProduct(name, 1)]
    ensures HasProduct(products, name) ==> AddProduct(products, name) == products
    ensures DistinctBy(products, ProductName) ==> DistinctBy(AddProduct(products, name), ProductName)
    ensures QuantitiesPositive(products) ==> QuantitiesPositive(AddProduct(products, name))
  {
    if !HasProduct(products, name) {
      var r := products + [PackageProduct(name, 1)];
      assert r[|products|].name == name;
    }
  }

  /**
   * Removing by name drops exactly the entries with that name and keeps the
   * rest in order; the selection stays well formed.
   */
  lemma RemoveEffect(services: seq<string>, products: seq<PackageProduct>, name: string)
    ensures Sublist(RemoveService(services, name), services) && name !in RemoveService(services, name)
    ensures forall i :: 0 <= i < |services| && services[i] != name ==> services[i] in RemoveService(services, name)
    ensures Sublist(RemoveProduct(products, name), products) && !HasProduct(RemoveProduct(products, name), name)
    ensures forall i :: 0 <= i < |products| && products[i].name != name ==> products[i] in RemoveProduct(products, name)
    ensures SelectionWellFormed(services, products) ==>
      SelectionWellFormed(RemoveService(services, name), RemoveProduct(products, name))
  {
    var ps := (s: string) => s != name;
    var pp := (p: PackageProduct) => p.name != name;
    FilterIsSublist(services, ps);
    FilterIsSublist(products, pp);
    if SelectionWellFormed(services, products) {
      SublistKeepsDistinct(RemoveService(services, name), services, (s: string) => s);
      assert NoDuplicates(RemoveService(services, name)) by {
        assert DistinctBy(RemoveService(services, name), (s: string) => s);
      }
      SublistKeepsDistinct(RemoveProduct(products, name), products, ProductName);
      var r := RemoveProduct(products, name);
      forall k | 0 <= k < |r| ensures r[k].quantity >= 1 {
        assert r[k] in products;
      }
    }
  }

  /**
   * The quantity update sets every product of that name to max(1, q) and leaves
   * the others alone; names and order are kept and all quantities stay at least 1.
   */
  lemma UpdateQuantityEffect(products: seq<PackageProduct>, name: string, quantity: int)
    ensures |UpdateQuantity(products, name, quantity)| == |products|
    ensures forall k :: 0 <= k < |products| ==> UpdateQuantity(products, name, quantity)[k].name == products[k].name
    ensures forall k :: 0 <= k < |products| && products[k].name == name ==>
      UpdateQuantity(products, name, quantity)[k].quantity == (if quantity > 1 then quantity else 1) >= 1
    ensures forall k :: 0 <= k < |products| && products[k].name != name ==>
      UpdateQuantity(products, name, quantity)[k] == products[k]
    ensures DistinctBy(products, ProductName) ==> DistinctBy(UpdateQuantity(products, name, quantity), ProductName)
    ensures QuantitiesPositive(products) ==> QuantitiesPositive(UpdateQuantity(products, name, quantity))
  {
  }

  // ---------------------------------------------------------------------------
  // Saving

  /** The price saved: the entered price when the price input is not empty, else the automatic price. */
  function FinalPrice(price: PriceField, autoPrice: real): real {
    match price
    case Blank => autoPrice
    case Typed(v) => v
  }

  /** `openEditModal`: the form holds the package's fields, its price as text. */
  function FormOf<Id>(pkg: ServicePackage<Id>): PackageForm {
    PackageForm(pkg.name, pkg.description, Typed(pkg.price), pkg.status, pkg.services, pkg.products)
  }

  /** `openEditModal`: the preview starts as the package's image, or empty. */
  function PreviewOf<Id>(pkg: ServicePackage<Id>): string {
    if pkg.image.Some? then pkg.image.value else ""
  }

  /** The edited package: the form's fields, and the new preview or else the old image. */
  function EditedPackage<Id>(pkg: ServicePackage<Id>, form: PackageForm, preview: string, autoPrice: real): ServicePackage<Id> {
    pkg.(name := form.name, description := form.description, price := FinalPrice(form.price, autoPrice),
         status := form.status, services := form.services, products := form.products,
         image := if preview != "" then Some(preview) else pkg.image)
  }

  /** The created package, whose image is the preview as it stands. */
  function NewPackage<Id>(id: Id, form: PackageForm, preview: string, autoPrice: real): ServicePackage<Id> {
    ServicePackage(id, form.name, form.description, FinalPrice(form.price, autoPrice), form.status,
                   form.services, form.products, Some(preview))
  }

  ghost predicate PackageWellFormed<Id>(pkg: ServicePackage<Id>) {
    SelectionWellFormed(pkg.services, pkg.products)
  }

  /**
   * A save stores the entered price when there is one and the automatic price
   * otherwise; an edit keeps the id, and keeps the old image when there is no
   * new preview; a saved package is well formed when the form is.
   */
  lemma SavedPackageFields<Id>(pkg: ServicePackage<Id>, id: Id, form: PackageForm, preview: string, autoPrice: real)
    ensures form.price.Typed? ==>
      EditedPackage(pkg, form, preview, autoPrice).price == form.price.value
      && NewPackage(id, form, preview, autoPrice).price == form.price.value
    ensures form.price.Blank? ==>
      EditedPackage(pkg, form, preview, autoPrice).price == autoPrice
      && NewPackage(id, form, preview, autoPrice).price == autoPrice
    ensures EditedPackage(pkg, form, preview, autoPrice).id == pkg.id && NewPackage(id, form, preview, autoPrice).id == id
    ensures preview == "" ==> EditedPackage(pkg, form, preview, autoPrice).image == pkg.image
    ensures preview != "" ==> EditedPackage(pkg, form, preview, autoPrice).image == Some(preview)
    ensures FormOf(EditedPackage(pkg, form, preview, autoPrice)).services == form.services
    ensures FormOf(EditedPackage(pkg, form, preview, autoPrice)).products == form.products
    ensures SelectionWellFormed(form.services, form.products) ==>
      PackageWellFormed(EditedPackage(pkg, form, preview, autoPrice)) && PackageWellFormed(NewPackage(id, form, preview, autoPrice))
  {
  }

  /** Opening a package for editing and saving it unchanged gives back the same package. */
  lemma OpenThenSaveIsIdentity<Id>(pkg: ServicePackage<Id>, autoPrice: real)
    ensures EditedPackage(pkg, FormOf(pkg), PreviewOf(pkg), autoPrice) == pkg
  {
  }

  function PackageId<Id>(pkg: ServicePackage<Id>): Id {
    pkg.id
  }

  /** The edit branch of `handleSave`: every package with that id becomes the edited package. */
  function EditPackages<Id(==)>(packages: seq<ServicePackage<Id>>, id: Id, form: PackageForm, preview: string, autoPrice: real): seq<ServicePackage<Id>> {
    MapWhere(packages, (p: ServicePackage<Id>) => p.id == id, (p: ServicePackage<Id>) => EditedPackage(p, form, preview, autoPrice))
  }

  /** `handleDelete` once confirmed: the packages with another id, in order. */
  function DeletePackage<Id(==)>(packages: seq<ServicePackage<Id>>, id: Id): seq<ServicePackage<Id>> {
    Filter(packages, (p: ServicePackage<Id>) => p.id != id)
  }

  /**
   * An edit rewrites only the packages with that id and keeps every id and the
   * order; it keeps the packages well formed and their ids distinct.
   */
  lemma EditPackagesEffect<Id>(packages: seq<ServicePackage<Id>>, id: Id, form: PackageForm, preview: string, autoPrice: real)
    ensures |EditPackages(packages, id, form, preview, autoPrice)| == |packages|
    ensures forall k :: 0 <= k < |packages| ==> EditPackages(packages, id, form, preview, autoPrice)[k].id == packages[k].id
    ensures forall k :: 0 <= k < |packages| && packages[k].id != id ==> EditPackages(packages, id, form, preview, autoPrice)[k] == packages[k]
    ensures forall k :: 0 <= k < |packages| && packages[k].id == id ==>
      EditPackages(packages, id, form, preview, autoPrice)[k] == EditedPackage(packages[k], form, preview, autoPrice)
    ensures SelectionWellFormed(form.services, form.products) && (forall k :: 0 <= k < |packages| ==> PackageWellFormed(packages[k])) ==>
      forall k :: 0 <= k < |packages| ==> PackageWellFormed(EditPackages(packages, id, form, preview, autoPrice)[k])
    ensures DistinctBy(packages, PackageId) ==> DistinctBy(EditPackages(packages, id, form, preview, autoPrice), PackageId)
  {
    var r := EditPackages(packages, id, form, preview, autoPrice);
    if SelectionWellFormed(form.services, form.products) {
      forall k | 0 <= k < |packages| && packages[k].id == id ensures PackageWellFormed(r[k]) {
        SavedPackageFields(packages[k], id, form, preview, autoPrice);
      }
    }
  }

  /**
   * Deleting keeps the other packages in order and drops exactly those with the
   * id; with distinct ids it removes one package when the id is present and
   * none otherwise.
   */
  lemma DeletePackageEffect<Id>(packages: seq<ServicePackage<Id>>, id: Id)
    ensures Sublist(DeletePackage(packages, id), packages)
    ensures forall k :: 0 <= k < |DeletePackage(packages, id)| ==> DeletePackage(packages, id)[k].id != id
    ensures forall k :: 0 <= k < |packages| && packages[k].id != id ==> packages[k] in DeletePackage(packages, id)
    ensures (forall k :: 0 <= k < |packages| ==> PackageWellFormed(packages[k])) ==>
      forall k :: 0 <= k < |DeletePackage(packages, id)| ==> PackageWellFormed(DeletePackage(packages, id)[k])
    ensures DistinctBy(packages, PackageId) ==>
      DistinctBy(DeletePackage(packages, id), PackageId)
      && |DeletePackage(packages, id)| == |packages| - (if exists k :: 0 <= k < |packages| && packages[k].id == id then 1 else 0)
  {
    var p := (q: ServicePackage<Id>) => q.id != id;
    FilterIsSublist(packages, p);
    if DistinctBy(packages, PackageId) {
      FilterKeepsDistinct(packages, p, PackageId);
      FilterOutKey(packages, p, PackageId, id);
    }
  }

  // ---------------------------------------------------------------------------
  // Numbered packages

  /** `packages.map(p => p.id)` for the pages whose ids are numbers. */
  function PackageIds(packages: seq<ServicePackage<int>>): (ids: seq<int>)
    ensures |ids| == |packages| && forall i :: 0 <= i < |packages| ==> ids[i] == packages[i].id
  {
    seq(|packages|, i requires 0 <= i < |packages| => packages[i].id)
  }

  /** `Math.max(...packages.map(p => p.id), 0) + 1`: above every id in use. */
  function NextPackageId(packages: seq<ServicePackage<int>>): (id: int)
    ensures id >= 1
    ensures forall i :: 0 <= i < |packages| ==> packages[i].id < id
  {
    NextId(PackageIds(packages))
  }

  /** Appending a package under the next id keeps the ids distinct. */
  lemma CreateKeepsIdsDistinct(packages: seq<ServicePackage<int>>, pkg: ServicePackage<int>)
    requires DistinctBy(packages, PackageId) && pkg.id == NextPackageId(packages)
    ensures DistinctBy(packages + [pkg], PackageId)
    ensures (packages + [pkg])[|packages|] == pkg && (packages + [pkg])[..|packages|] == packages
  {
    DistinctByAppend(packages, pkg, PackageId);
  }

  /** The list of a numbered page: distinct ids and every package well formed. */
  ghost predicate NumberedStore(packages: seq<ServicePackage<int>>) {
    DistinctBy(packages, PackageId) && forall i :: 0 <= i < |packages| ==> PackageWellFormed(packages[i])
  }

  /** Saving a well-formed form, by edit or by create, and deleting keep a numbered list sound. */
  lemma SaveKeepsNumberedStore(packages: seq<ServicePackage<int>>, id: int, form: PackageForm, preview: string, autoPrice: real)
    requires NumberedStore(packages) && SelectionWellFormed(form.services, form.products)
    ensures NumberedStore(EditPackages(packages, id, form, preview, autoPrice))
    ensures NumberedStore(packages + [NewPackage(NextPackageId(packages), form, preview, autoPrice)])
    ensures NumberedStore(DeletePackage(packages, id))
  {
    EditPackagesEffect(packages, id, form, preview, autoPrice);
    var created := NewPackage(NextPackageId(packages), form, preview, autoPrice);
    SavedPackageFields(created, created.id, form, preview, autoPrice);
    CreateKeepsIdsDistinct(packages, created);
    DeletePackageEffect(packages, id);
  }

  /** The two packages every page starts with, under the ids the page gives them. */
  /** The longer texts of the seed packages, named by position and field. */
  const Package1Name: string := "Premium oil change"
  const Package1Description: string := "Complete premium car wash package with interior cleaning and waxing service."
  const Package1Image: string := "https://images.unsplash.com/photo-1520340356584-f9917d1eea6f?w=400&h=250&fit=crop"
  const Package2Name: string := "កញ្ចប់ថែទាំគ្រឿងក្នុងឡាន"
  const Package2Description: string := "Essential maintenance package for regular vehicle care and performance."
  const Package2Image: string := "https://images.unsplash.com/photo-1486262715619-67b85e0b08d3?w=400&h=250&fit=crop"

  function SeedPackages<Id>(first: Id, second: Id): seq<ServicePackage<Id>> {
    [
      ServicePackage(first, Package1Name,
                     Package1Description,
                     89.99, Active, ["Oil Change", "Brake Cleaning", "Car Wash"],
                     [PackageProduct("Engine Oil", 1), PackageProduct("Brake Fluid", 2)],
                     Some(Package1Image)),
      ServicePackage(second, Package2Name,
                     Package2Description,
                     45.0, Active, ["Oil Change", "Filter Check"], [PackageProduct("Engine Oil", 1)],
                     Some(Package2Image))
    ]
  }

  lemma SeedPackagesWellFormed<Id>(first: Id, second: Id)
    ensures forall i :: 0 <= i < |SeedPackages(first, second)| ==> PackageWellFormed(SeedPackages(first, second)[i])
  {
  }

  /** The numbered pages start from the seeds under ids 1 and 2, a sound list. */
  lemma SeedPackagesNumbered()
    ensures NumberedStore(SeedPackages(1, 2))
  {
    SeedPackagesWellFormed(1, 2);
  }
}
