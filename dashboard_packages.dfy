/**
 * The service-package page of the dashboard (`src/pages/dashboard/service_package.tsx`):
 * packages carry text codes `PKG001`, `PKG002`, …, a new package gets the
 * code of the list length plus one, and a blank name only stops the save.
 */
module DashboardPackages {
  import opened Wrappers
  import opened Text
  import opened Collections
  import opened PackageCatalog

  type Package = ServicePackage<string>

  /** `PKG` followed by n written with at least three digits. */
  function PackageCode(n: nat): string {
    "PKG" + PadNumber(n, 3)
  }

  /** Codes of different numbers differ, and the number can be read back from the code. */
  lemma PackageCodeRoundTrip(a: nat, b: nat)
    ensures DecimalValue(PackageCode(a)[3..]) == a
    ensures a != b ==> PackageCode(a) != PackageCode(b)
  {
    PadNumberRoundTrip(a, 3);
    assert PackageCode(a)[3..] == PadNumber(a, 3);
    assert PackageCode(b)[3..] == PadNumber(b, 3);
    PadNumberRoundTrip(b, 3);
  }

  /**
   * Because the code is the list length plus one, deleting the package coded
   * `PKG001` from a list of two coded `PKG001` and `PKG002` (as the seed
   * packages are) and creating a new one hands out `PKG002` again, which the
   * remaining package still holds.
   */
  lemma DeleteThenCreateRepeatsCode(packages: seq<Package>)
    requires |packages| == 2 && packages[0].id == PackageCode(1) && packages[1].id == PackageCode(2)
    ensures DeletePackage(packages, PackageCode(1)) == [packages[1]]
    ensures PackageCode(|DeletePackage(packages, PackageCode(1))| + 1) == packages[1].id
  {
    PackageCodeRoundTrip(1, 2);
    var p := (q: Package) => q.id != PackageCode(1);
    assert packages[1..][1..] == [];
    assert Filter(packages[1..], p) == [packages[1]] + Filter(packages[1..][1..], p);
  }

  class ServicePackagePage {
    var packages: seq<Package>
    var showModal: bool
    var showServiceDialog: bool
    var showProductDialog: bool
    var isEditMode: bool
    var currentPackage: Option<Package>
    var imagePreview: string
    var formData: PackageForm

    /** Every stored package and the form's selection are well formed. */
    ghost predicate Valid()
      reads this
    {
      (forall i :: 0 <= i < |packages| ==> PackageWellFormed(packages[i]))
      && SelectionWellFormed(formData.services, formData.products)
    }

    constructor()
      ensures Valid()
      ensures packages == SeedPackages(PackageCode(1), PackageCode(2))
      ensures !showModal && !showServiceDialog && !showProductDialog && !isEditMode
      ensures currentPackage == None && imagePreview == "" && formData == EmptyForm()
    {
      packages := SeedPackages(PackageCode(1), PackageCode(2));
      SeedPackagesWellFormed(PackageCode(1), PackageCode(2));
      showModal := false;
      showServiceDialog := false;
      showProductDialog := false;
      isEditMode := false;
      currentPackage := None;
      imagePreview := "";
      formData := EmptyForm();
    }

    method OpenCreateModal()
      requires Valid()
      modifies this
      ensures Valid()
      ensures !isEditMode && currentPackage == None && imagePreview == "" && formData == EmptyForm() && showModal
      ensures packages == old(packages) && showServiceDialog == old(showServiceDialog) && showProductDialog == old(showProductDialog)
    {
      isEditMode := false;
      currentPackage := None;
      imagePreview := "";
      formData := EmptyForm();
      showModal := true;
    }

    /** The form is filled from a listed package; it starts well formed because the package is. */
    method OpenEditModal(pkg: Package)
      requires Valid() && pkg in packages
      modifies this
      ensures Valid()
      ensures isEditMode && currentPackage == Some(pkg) && imagePreview == PreviewOf(pkg) && formData == FormOf(pkg) && showModal
      ensures packages == old(packages) && showServiceDialog == old(showServiceDialog) && showProductDialog == old(showProductDialog)
    {
      isEditMode := true;
      currentPackage := Some(pkg);
      imagePreview := PreviewOf(pkg);
      formData := FormOf(pkg);
      showModal := true;
    }

    /** Closing keeps the form and the edit flag as they are. */
    method CloseModal()
      requires Valid()
      modifies this
      ensures Valid()
      ensures !showModal && currentPackage == None && imagePreview == ""
      ensures packages == old(packages) && formData == old(formData) && isEditMode == old(isEditMode)
      ensures showServiceDialog == old(showServiceDialog) && showProductDialog == old(showProductDialog)
    {
      showModal := false;
      currentPackage := None;
      imagePreview := "";
    }

    /** The image input once the file has been read, and its remove button with `preview == ""`. */
    method SetImagePreview(preview: string)
      requires Valid()
      modifies this
      ensures Valid()
      ensures imagePreview == preview
      ensures packages == old(packages) && formData == old(formData) && showModal == old(showModal)
      ensures isEditMode == old(isEditMode) && currentPackage == old(currentPackage)
      ensures showServiceDialog == old(showServiceDialog) && showProductDialog == old(showProductDialog)
    {
      imagePreview := preview;
    }

    method SetField(field: FormField)
      requires Valid()
      modifies this
      ensures Valid()
      ensures formData == ApplyField(old(formData), field)
      ensures formData.services == old(formData).services && formData.products == old(formData).products
      ensures packages == old(packages) && imagePreview == old(imagePreview) && showModal == old(showModal)
      ensures isEditMode == old(isEditMode) && currentPackage == old(currentPackage)
      ensures showServiceDialog == old(showServiceDialog) && showProductDialog == old(showProductDialog)
    {
      formData := ApplyField(formData, field);
    }

    method RemoveServiceFromPackage(name: string)
      requires Valid()
      modifies this
      ensures Valid()
      ensures formData == old(formData).(services := RemoveService(old(formData).services, name))
      ensures name !in formData.services
      ensures packages == old(packages) && imagePreview == old(imagePreview) && showModal == old(showModal)
      ensures isEditMode == old(isEditMode) && currentPackage == old(currentPackage)
      ensures showServiceDialog == old(showServiceDialog) && showProductDialog == old(showProductDialog)
    {
      RemoveEffect(formData.services, formData.products, name);
      formData := formData.(services := RemoveService(formData.services, name));
    }

    method RemoveProductFromPackage(name: string)
      requires Valid()
      modifies this
      ensures Valid()
      ensures formData == old(formData).(products := RemoveProduct(old(formData).products, name))
      ensures !HasProduct(formData.products, name)
      ensures packages == old(packages) && imagePreview == old(imagePreview) && showModal == old(showModal)
      ensures isEditMode == old(isEditMode) && currentPackage == old(currentPackage)
      ensures showServiceDialog == old(showServiceDialog) && showProductDialog == old(showProductDialog)
    {
      RemoveEffect(formData.services, formData.products, name);
      formData := formData.(products := RemoveProduct(formData.products, name));
    }

    /** Picking a service in the dialog adds it once and closes the dialog. */
    method AddServiceToPackage(name: string)
      requires Valid()
      modifies this
      ensures Valid()
      ensures formData == old(formData).(services := AddService(old(formData).services, name))
      ensures name in formData.services && !showServiceDialog
      ensures packages == old(packages) && imagePreview == old(imagePreview) && showModal == old(showModal)
      ensures isEditMode == old(isEditMode) && currentPackage == old(currentPackage) && showProductDialog == old(showProductDialog)
    {
      AddServiceEffect(formData.services, name);
      if name !in formData.services {
        formData := formData.(services := formData.services + [name]);
      }
      showServiceDialog := false;
    }

    /** Picking a product in the dialog adds it with quantity 1 once and closes the dialog. */
    method AddProductToPackage(name: string)
      requires Valid()
      modifies this
      ensures Valid()
      ensures formData == old(formData).(products := AddProduct(old(formData).products, name))
      ensures HasProduct(formData.products, name) && !showProductDialog
      ensures packages == old(packages) && imagePreview == old(imagePreview) && showModal == old(showModal)
      ensures isEditMode == old(isEditMode) && currentPackage == old(currentPackage) && showServiceDialog == old(showServiceDialog)
    {
      AddProductEffect(formData.products, name);
      formData := formData.(products := AddProduct(formData.products, name));
      showProductDialog := false;
    }

    method UpdateProductQuantity(name: string, quantity: int)
      requires Valid()
      modifies this
      ensures Valid()
      ensures formData == old(formData).(products := UpdateQuantity(old(formData).products, name, quantity))
      ensures packages == old(packages) && imagePreview == old(imagePreview) && showModal == old(showModal)
      ensures isEditMode == old(isEditMode) && currentPackage == old(currentPackage)
      ensures showServiceDialog == old(showServiceDialog) && showProductDialog == old(showProductDialog)
    {
      UpdateQuantityEffect(formData.products, name, quantity);
      formData := formData.(products := UpdateQuantity(formData.products, name, quantity));
    }

    /**
     * A blank name changes nothing. Otherwise an edit rewrites the packages
     * with the current package's code, a create appends a package coded from
     * the list length, and the modal closes.
     */
    method HandleSave()
      requires Valid()
      modifies this
      ensures Valid()
      ensures IsBlank(old(formData).name) ==>
        packages == old(packages) && showModal == old(showModal) && currentPackage == old(currentPackage) && imagePreview == old(imagePreview)
      ensures !IsBlank(old(formData).name) && old(isEditMode) && old(currentPackage).Some? ==>
        packages == EditPackages(old(packages), old(currentPackage).value.id, old(formData), old(imagePreview),
                                 AutoPrice(old(formData).services, old(formData).products))
      ensures !IsBlank(old(formData).name) && !(old(isEditMode) && old(currentPackage).Some?) ==>
        packages == old(packages) + [NewPackage(PackageCode(|old(packages)| + 1), old(formData), old(imagePreview),
                                                AutoPrice(old(formData).services, old(formData).products))]
      ensures !IsBlank(old(formData).name) ==> !showModal && currentPackage == None && imagePreview == ""
      ensures formData == old(formData) && isEditMode == old(isEditMode)
      ensures showServiceDialog == old(showServiceDialog) && showProductDialog == old(showProductDialog)
    {
      var blank := IsBlank(formData.name);
      if blank {
        return;
      }
      StoreForm();
    }

    /** The part of `handleSave` after the name check: store the form's package and close the modal. */
    method StoreForm()
      requires Valid()
      modifies this
      ensures Valid()
      ensures old(isEditMode) && old(currentPackage).Some? ==>
        packages == EditPackages(old(packages), old(currentPackage).value.id, old(formData), old(imagePreview),
                                 AutoPrice(old(formData).services, old(formData).products))
      ensures !(old(isEditMode) && old(currentPackage).Some?) ==>
        packages == old(packages) + [NewPackage(PackageCode(|old(packages)| + 1), old(formData), old(imagePreview),
                                                AutoPrice(old(formData).services, old(formData).products))]
      ensures !showModal && currentPackage == None && imagePreview == ""
      ensures formData == old(formData) && isEditMode == old(isEditMode)
      ensures showServiceDialog == old(showServiceDialog) && showProductDialog == old(showProductDialog)
    {
      var autoPrice := CalculateTotalPrice(formData.services, formData.products);
      if isEditMode && currentPackage.Some? {
        EditPackagesEffect(packages, currentPackage.value.id, formData, imagePreview, autoPrice);
        packages := EditPackages(packages, currentPackage.value.id, formData, imagePreview, autoPrice);
      } else {
        var created := NewPackage(PackageCode(|packages| + 1), formData, imagePreview, autoPrice);
        SavedPackageFields(created, created.id, formData, imagePreview, autoPrice);
        packages := packages + [created];
      }
      CloseModal();
    }

    /** Only a confirmed delete removes the packages with that code. */
    method HandleDelete(id: string, confirmed: bool)
      requires Valid()
      modifies this
      ensures Valid()
      ensures packages == if confirmed then DeletePackage(old(packages), id) else old(packages)
      ensures formData == old(formData) && imagePreview == old(imagePreview) && showModal == old(showModal)
      ensures isEditMode == old(isEditMode) && currentPackage == old(currentPackage)
      ensures showServiceDialog == old(showServiceDialog) && showProductDialog == old(showProductDialog)
    {
      if confirmed {
        DeletePackageEffect(packages, id);
        packages := DeletePackage(packages, id);
      }
    }
  }
}
