/**
 * The combo editor of the dashboard (`src/pages/dashboard/service/ServicePackage.tsx`):
 * packages carry numeric ids allocated as the largest id plus one, and a
 * blank name is reported through the `errors.name` message of the form,
 * which typing in the name input clears again.
 */
module DashboardServicePackage {
  import opened Wrappers
  import opened Text
  import opened Collections
  import opened PackageCatalog

  type Package = ServicePackage<int>

  const NameRequired: string := "Package name is required"

  class ServicePackagePage {
    var packages: seq<Package>
    var showModal: bool
    var showServiceDialog: bool
    var showProductDialog: bool
    var isEditMode: bool
    var currentPackage: Option<Package>
    var imagePreview: string
    var formData: PackageForm
    /** `errors.name`: empty, or the message of a failed save. */
    var errors: string

    /** Ids are distinct; every stored package and the form's selection are well formed. */
    ghost predicate Valid()
      reads this
    {
      NumberedStore(packages)
      && SelectionWellFormed(formData.services, formData.products)
      && (errors == "" || errors == NameRequired)
    }

    constructor()
      ensures Valid()
      ensures packages == SeedPackages(1, 2)
      ensures !showModal && !showServiceDialog && !showProductDialog && !isEditMode
      ensures currentPackage == None && imagePreview == "" && formData == EmptyForm() && errors == ""
    {
      packages := SeedPackages(1, 2);
      SeedPackagesNumbered();
      showModal := false;
      showServiceDialog := false;
      showProductDialog := false;
      isEditMode := false;
      currentPackage := None;
      imagePreview := "";
      formData := EmptyForm();
      errors := "";
    }

    method OpenCreateModal()
      requires Valid()
      modifies this
      ensures Valid()
      ensures !isEditMode && currentPackage == None && imagePreview == "" && formData == EmptyForm() && errors == "" && showModal
      ensures packages == old(packages) && showServiceDialog == old(showServiceDialog) && showProductDialog == old(showProductDialog)
    {
      isEditMode := false;
      currentPackage := None;
      imagePreview := "";
      formData := EmptyForm();
      errors := "";
      showModal := true;
    }

    method OpenEditModal(pkg: Package)
      requires Valid() && pkg in packages
      modifies this
      ensures Valid()
      ensures isEditMode && currentPackage == Some(pkg) && imagePreview == PreviewOf(pkg) && formData == FormOf(pkg)
      ensures errors == "" && showModal
      ensures packages == old(packages) && showServiceDialog == old(showServiceDialog) && showProductDialog == old(showProductDialog)
    {
      isEditMode := true;
      currentPackage := Some(pkg);
      imagePreview := PreviewOf(pkg);
      formData := FormOf(pkg);
      errors := "";
      showModal := true;
    }

    method CloseModal()
      requires Valid()
      modifies this
      ensures Valid()
      ensures !showModal && currentPackage == None && imagePreview == "" && errors == ""
      ensures packages == old(packages) && formData == old(formData) && isEditMode == old(isEditMode)
      ensures showServiceDialog == old(showServiceDialog) && showProductDialog == old(showProductDialog)
    {
      showModal := false;
      currentPackage := None;
      imagePreview := "";
      errors := "";
    }

    /** The image input once the file has been read, and its remove button with `preview == ""`. */
    method SetImagePreview(preview: string)
      requires Valid()
      modifies this
      ensures Valid()
      ensures imagePreview == preview
      ensures packages == old(packages) && formData == old(formData) && showModal == old(showModal) && errors == old(errors)
      ensures isEditMode == old(isEditMode) && currentPackage == old(currentPackage)
      ensures showServiceDialog == old(showServiceDialog) && showProductDialog == old(showProductDialog)
    {
      imagePreview := preview;
    }

    /** Typing a name also clears the name error; the other inputs leave it. */
    method SetField(field: FormField)
      requires Valid()
      modifies this
      ensures Valid()
      ensures formData == ApplyField(old(formData), field)
      ensures errors == if field.Name? then "" else old(errors)
      ensures packages == old(packages) && imagePreview == old(imagePreview) && showModal == old(showModal)
      ensures isEditMode == old(isEditMode) && currentPackage == old(currentPackage)
      ensures showServiceDialog == old(showServiceDialog) && showProductDialog == old(showProductDialog)
    {
      formData := ApplyField(formData, field);
      if field.Name? && errors != "" {
        errors := "";
      }
    }

    method RemoveServiceFromPackage(name: string)
      requires Valid()
      modifies this
      ensures Valid()
      ensures formData == old(formData).(services := RemoveService(old(formData).services, name))
      ensures packages == old(packages) && imagePreview == old(imagePreview) && showModal == old(showModal) && errors == old(errors)
      ensures isEditMode == old(isEditMode) && currentPackage == old(currentPackage)
      ensures showServiceDialog == old(showServiceDialog) && showProductDialog == old(showProductDialog)
    {
      RemoveEffect(formData.services, formData.products, name);
      formData := formData.(services := RemoveService(formData.services, name));
    }

    method RemoveProductFromPackage(name: string)
      requires Valid()
      modifies this
      ensures Valid()
      ensures formData == old(formData).(products := RemoveProduct(old(formData).products, name))
      ensures packages == old(packages) && imagePreview == old(imagePreview) && showModal == old(showModal) && errors == old(errors)
      ensures isEditMode == old(isEditMode) && currentPackage == old(currentPackage)
      ensures showServiceDialog == old(showServiceDialog) && showProductDialog == old(showProductDialog)
    {
      RemoveEffect(formData.services, formData.products, name);
      formData := formData.(products := RemoveProduct(formData.products, name));
    }

    method AddServiceToPackage(name: string)
      requires Valid()
      modifies this
      ensures Valid()
      ensures formData == old(formData).(services := AddService(old(formData).services, name))
      ensures name in formData.services && !showServiceDialog
      ensures packages == old(packages) && imagePreview == old(imagePreview) && showModal == old(showModal) && errors == old(errors)
      ensures isEditMode == old(isEditMode) && currentPackage == old(currentPackage) && showProductDialog == old(showProductDialog)
    {
      AddServiceEffect(formData.services, name);
      if name !in formData.services {
        formData := formData.(services := formData.services + [name]);
      }
      showServiceDialog := false;
    }

    method AddProductToPackage(name: string)
      requires Valid()
      modifies this
      ensures Valid()
      ensures formData == old(formData).(products := AddProduct(old(formData).products, name))
      ensures HasProduct(formData.products, name) && !showProductDialog
      ensures packages == old(packages) && imagePreview == old(imagePreview) && showModal == old(showModal) && errors == old(errors)
      ensures isEditMode == old(isEditMode) && currentPackage == old(currentPackage) && showServiceDialog == old(showServiceDialog)
    {
      AddProductEffect(formData.products, name);
      formData := formData.(products := AddProduct(formData.products, name));
      showProductDialog := false;
    }

    method UpdateProductQuantity(name: string, quantity: int)
      requires Valid()
      modifies this
      ensures Valid()
      ensures formData == old(formData).(products := UpdateQuantity(old(formData).products, name, quantity))
      ensures packages == old(packages) && imagePreview == old(imagePreview) && showModal == old(showModal) && errors == old(errors)
      ensures isEditMode == old(isEditMode) && currentPackage == old(currentPackage)
      ensures showServiceDialog == old(showServiceDialog) && showProductDialog == old(showProductDialog)
    {
      UpdateQuantityEffect(formData.products, name, quantity);
      formData := formData.(products := UpdateQuantity(formData.products, name, quantity));
    }

    /**
     * A blank name sets the name error and changes nothing else. Otherwise an
     * edit rewrites the package with the current id, a create appends a
     * package under the largest id plus one, and the modal closes; ids stay
     * distinct either way.
     */
    method HandleSave()
      requires Valid()
      modifies this
      ensures Valid()
      ensures IsBlank(old(formData).name) ==>
        errors == NameRequired && packages == old(packages) && showModal == old(showModal)
        && currentPackage == old(currentPackage) && imagePreview == old(imagePreview)
      ensures !IsBlank(old(formData).name) && old(isEditMode) && old(currentPackage).Some? ==>
        packages == EditPackages(old(packages), old(currentPackage).value.id, old(formData), old(imagePreview),
                                 AutoPrice(old(formData).services, old(formData).products))
      ensures !IsBlank(old(formData).name) && !(old(isEditMode) && old(currentPackage).Some?) ==>
        packages == old(packages) + [NewPackage(NextPackageId(old(packages)), old(formData), old(imagePreview),
                                                AutoPrice(old(formData).services, old(formData).products))]
      ensures !IsBlank(old(formData).name) ==> !showModal && currentPackage == None && imagePreview == "" && errors == ""
      ensures formData == old(formData) && isEditMode == old(isEditMode)
      ensures showServiceDialog == old(showServiceDialog) && showProductDialog == old(showProductDialog)
    {
      var blank := IsBlank(formData.name);
      if blank {
        errors := NameRequired;
        return;
      }
      errors := "";
      StoreForm();
    }

    /** The part of `handleSave` after validation: store the form's package and close the modal. */
    method StoreForm()
      requires Valid() && errors == ""
      modifies this
      ensures Valid()
      ensures old(isEditMode) && old(currentPackage).Some? ==>
        packages == EditPackages(old(packages), old(currentPackage).value.id, old(formData), old(imagePreview),
                                 AutoPrice(old(formData).services, old(formData).products))
      ensures !(old(isEditMode) && old(currentPackage).Some?) ==>
        packages == old(packages) + [NewPackage(NextPackageId(old(packages)), old(formData), old(imagePreview),
                                                AutoPrice(old(formData).services, old(formData).products))]
      ensures !showModal && currentPackage == None && imagePreview == "" && errors == ""
      ensures formData == old(formData) && isEditMode == old(isEditMode)
      ensures showServiceDialog == old(showServiceDialog) && showProductDialog == old(showProductDialog)
    {
      var autoPrice := CalculateTotalPrice(formData.services, formData.products);
      var editing := isEditMode && currentPackage.Some?;
      var target := if editing then currentPackage.value.id else 0;
      SaveKeepsNumberedStore(packages, target, formData, imagePreview, autoPrice);
      packages := if editing then EditPackages(packages, target, formData, imagePreview, autoPrice)
                  else packages + [NewPackage(NextPackageId(packages), formData, imagePreview, autoPrice)];
      CloseModal();
    }

    /** A confirmed delete removes the one package with that id, if any. */
    method HandleDelete(id: int, confirmed: bool)
      requires Valid()
      modifies this
      ensures Valid()
      ensures packages == if confirmed then DeletePackage(old(packages), id) else old(packages)
      ensures confirmed ==>
        |packages| == |old(packages)| - (if exists k :: 0 <= k < |old(packages)| && old(packages)[k].id == id then 1 else 0)
      ensures formData == old(formData) && imagePreview == old(imagePreview) && showModal == old(showModal) && errors == old(errors)
      ensures isEditMode == old(isEditMode) && currentPackage == old(currentPackage)
      ensures showServiceDialog == old(showServiceDialog) && showProductDialog == old(showProductDialog)
    {
      if confirmed {
        SaveKeepsNumberedStore(packages, id, formData, imagePreview, 0.0);
        DeletePackageEffect(packages, id);
        packages := DeletePackage(packages, id);
      }
    }
  }
}
