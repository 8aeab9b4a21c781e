/**
 * The product editor of the dashboard (`src/pages/dashboard/Products.tsx`):
 * products with numeric ids allocated as the largest id plus one, a name
 * error that typing a name clears, and a save that also refuses an empty or
 * non-positive price.
 */
module DashboardProducts {
  import opened Wrappers
  import opened Text
  import opened Collections
  import opened ProductCatalog

  class ProductsPage {
    var products: seq<ProductItem>
    var showModal: bool
    var showCategoryDialog: bool
    var isEditMode: bool
    var currentProduct: Option<ProductItem>
    var imagePreview: string
    var formData: ProductForm
    /** `errors.name`: empty, or the message of a failed save. */
    var errors: string

    /** Ids are distinct, prices positive, categories without repeats, in the list and in the form. */
    ghost predicate Valid()
      reads this
    {
      ProductStore(products) && NoDuplicates(formData.categories) && (errors == "" || errors == NameRequired)
    }

    constructor()
      ensures Valid()
      ensures products == SeedProducts()
      ensures !showModal && !showCategoryDialog && !isEditMode
      ensures currentProduct == None && imagePreview == "" && formData == EmptyForm() && errors == ""
    {
      products := SeedProducts();
      SeedProductsStore();
      showModal := false;
      showCategoryDialog := false;
      isEditMode := false;
      currentProduct := None;
      imagePreview := "";
      formData := EmptyForm();
      errors := "";
    }

    method OpenCreateModal()
      requires Valid()
      modifies this
      ensures Valid()
      ensures !isEditMode && currentProduct == None && imagePreview == "" && formData == EmptyForm() && errors == "" && showModal
      ensures products == old(products) && showCategoryDialog == old(showCategoryDialog)
    {
      isEditMode := false;
      currentProduct := None;
      imagePreview := "";
      formData := EmptyForm();
      errors := "";
      showModal := true;
    }

    method OpenEditModal(p: ProductItem)
      requires Valid() && p in products
      modifies this
      ensures Valid()
      ensures isEditMode && currentProduct == Some(p) && imagePreview == PreviewOf(p) && formData == FormOf(p)
      ensures errors == "" && showModal
      ensures products == old(products) && showCategoryDialog == old(showCategoryDialog)
    {
      isEditMode := true;
      currentProduct := Some(p);
      imagePreview := PreviewOf(p);
      formData := FormOf(p);
      errors := "";
      showModal := true;
    }

    method CloseModal()
      requires Valid()
      modifies this
      ensures Valid()
      ensures !showModal && currentProduct == None && imagePreview == "" && errors == ""
      ensures products == old(products) && formData == old(formData) && isEditMode == old(isEditMode)
      ensures showCategoryDialog == old(showCategoryDialog)
    {
      showModal := false;
      currentProduct := None;
      imagePreview := "";
      errors := "";
    }

    /** The image input once the file has been read, and its remove button with `preview == ""`. */
    method SetImagePreview(preview: string)
      requires Valid()
      modifies this
      ensures Valid()
      ensures imagePreview == preview
      ensures products == old(products) && formData == old(formData) && showModal == old(showModal) && errors == old(errors)
      ensures isEditMode == old(isEditMode) && currentProduct == old(currentProduct) && showCategoryDialog == old(showCategoryDialog)
    {
      imagePreview := preview;
    }

    /** Typing a name also clears the name error; the other inputs leave it. */
    method SetField(field: FormField)
      requires Valid()
      modifies this
      ensures Valid()
      ensures formData == ApplyField(old(formData), field)
      ensures errors == if field.Name? then "" else old(errors)
      ensures products == old(products) && imagePreview == old(imagePreview) && showModal == old(showModal)
      ensures isEditMode == old(isEditMode) && currentProduct == old(currentProduct) && showCategoryDialog == old(showCategoryDialog)
    {
      formData := ApplyField(formData, field);
      if field.Name? && errors != "" {
        errors := "";
      }
    }

    method RemoveCategoryFromProduct(name: string)
      requires Valid()
      modifies this
      ensures Valid()
      ensures formData == old(formData).(categories := RemoveCategory(old(formData).categories, name))
      ensures products == old(products) && imagePreview == old(imagePreview) && showModal == old(showModal) && errors == old(errors)
      ensures isEditMode == old(isEditMode) && currentProduct == old(currentProduct) && showCategoryDialog == old(showCategoryDialog)
    {
      RemoveCategoryEffect(formData.categories, name);
      formData := formData.(categories := RemoveCategory(formData.categories, name));
    }

    /** Picking a category in the dialog adds it once and closes the dialog. */
    method AddCategoryToProduct(name: string)
      requires Valid()
      modifies this
      ensures Valid()
      ensures formData == old(formData).(categories := AddCategory(old(formData).categories, name))
      ensures name in formData.categories && !showCategoryDialog
      ensures products == old(products) && imagePreview == old(imagePreview) && showModal == old(showModal) && errors == old(errors)
      ensures isEditMode == old(isEditMode) && currentProduct == old(currentProduct)
    {
      AddCategoryEffect(formData.categories, name);
      if name !in formData.categories {
        formData := formData.(categories := formData.categories + [name]);
      }
      showCategoryDialog := false;
    }

    /**
     * A blank name sets the name error; an empty or non-positive price stops
     * the save with the error cleared; in both cases the list is unchanged.
     * Otherwise an edit rewrites the product with the current id, a create
     * appends a product under the largest id plus one, and the modal closes.
     */
    method HandleSave()
      requires Valid()
      modifies this
      ensures Valid()
      ensures IsBlank(old(formData).name) ==> errors == NameRequired
      ensures !IsBlank(old(formData).name) && !PriceAccepted(old(formData).price) ==> errors == ""
      ensures IsBlank(old(formData).name) || !PriceAccepted(old(formData).price) ==>
        products == old(products) && showModal == old(showModal) && currentProduct == old(currentProduct) && imagePreview == old(imagePreview)
      ensures !IsBlank(old(formData).name) && PriceAccepted(old(formData).price) && old(isEditMode) && old(currentProduct).Some? ==>
        products == EditProducts(old(products), old(currentProduct).value.id, old(formData), old(imagePreview), old(formData).price.value)
      ensures !IsBlank(old(formData).name) && PriceAccepted(old(formData).price) && !(old(isEditMode) && old(currentProduct).Some?) ==>
        products == old(products) + [NewProduct(NextProductId(old(products)), old(formData), old(imagePreview), old(formData).price.value)]
      ensures !IsBlank(old(formData).name) && PriceAccepted(old(formData).price) ==>
        !showModal && currentProduct == None && imagePreview == "" && errors == ""
      ensures formData == old(formData) && isEditMode == old(isEditMode) && showCategoryDialog == old(showCategoryDialog)
    {
      errors := "";
      var hasError := false;
      var newErrors := "";
      if IsBlank(formData.name) {
        newErrors := NameRequired;
        hasError := true;
      }
      if hasError {
        errors := newErrors;
        return;
      }
      if !PriceAccepted(formData.price) {
        return;
      }
      StoreForm();
    }

    /** The part of `handleSave` after validation: store the form's product and close the modal. */
    method StoreForm()
      requires Valid() && PriceAccepted(formData.price)
      modifies this
      ensures Valid()
      ensures old(isEditMode) && old(currentProduct).Some? ==>
        products == EditProducts(old(products), old(currentProduct).value.id, old(formData), old(imagePreview), old(formData).price.value)
      ensures !(old(isEditMode) && old(currentProduct).Some?) ==>
        products == old(products) + [NewProduct(NextProductId(old(products)), old(formData), old(imagePreview), old(formData).price.value)]
      ensures !showModal && currentProduct == None && imagePreview == "" && errors == ""
      ensures formData == old(formData) && isEditMode == old(isEditMode) && showCategoryDialog == old(showCategoryDialog)
    {
      var price := formData.price.value;
      var editing := isEditMode && currentProduct.Some?;
      var target := if editing then currentProduct.value.id else 0;
      SaveKeepsProductStore(products, target, formData, imagePreview, price);
      products := if editing then EditProducts(products, target, formData, imagePreview, price)
                  else products + [NewProduct(NextProductId(products), formData, imagePreview, price)];
      CloseModal();
    }

    /** A confirmed delete removes the one product with that id, if any. */
    method HandleDelete(id: int, confirmed: bool)
      requires Valid()
      modifies this
      ensures Valid()
      ensures products == if confirmed then DeleteProduct(old(products), id) else old(products)
      ensures confirmed ==>
        |products| == |old(products)| - (if exists k :: 0 <= k < |old(products)| && old(products)[k].id == id then 1 else 0)
      ensures formData == old(formData) && imagePreview == old(imagePreview) && showModal == old(showModal) && errors == old(errors)
      ensures isEditMode == old(isEditMode) && currentProduct == old(currentProduct) && showCategoryDialog == old(showCategoryDialog)
    {
      if confirmed {
        DeleteProductEffect(products, id);
        SaveKeepsProductStore(products, id, formData, imagePreview, 1.0);
        products := DeleteProduct(products, id);
      }
    }
  }
}
