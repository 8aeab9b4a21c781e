/**
 * What the two product editors share: the product and form records, the
 * category list edits, the price check of a save, and the save-time records
 * and list updates.
 */
module ProductCatalog {
  import opened Wrappers
  import opened Text
  import opened Collections

  datatype ProductStatus = Active | Inactive

  datatype ProductItem = ProductItem(
    id: int,
    name: string,
    description: string,
    price: real,
    status: ProductStatus,
    stock: int,
    categories: seq<string>,
    image: Option<string>)

  datatype ProductForm = ProductForm(
    name: string,
    description: string,
    price: PriceField,
    status: ProductStatus,
    stock: int,
    categories: seq<string>)

  /** One of the plain inputs of the product form; the stock input gives `parseInt(text) || 0`. */
  datatype FormField = Name(text: string) | Description(text: string) | Price(price: PriceField) | Status(status: ProductStatus) | Stock(stock: int)

  datatype Category = Category(id: string, name: string)

  function AvailableCategories(): seq<Category> {
    [Category("CAT001", "Oil"), Category("CAT002", "Brake"), Category("CAT003", "Filter"),
     Category("CAT004", "Accessory"), Category("CAT005", "Cleaning")]
  }

  /** The name error of a save, "please enter the product name". */
  const NameRequired: string := "សូមបញ្ចូលឈ្មោះផលិតផល"

  /** The longer texts of the seed products, named by position and field. */
  const Product1Name: string := "Engine Oil 5W-30"
  const Product1Description: string := "High performance engine oil suitable for most gasoline engines."
  const Product1Image: string := "https://images.unsplash.com/photo-1486262715619-67b85e0b08d3?w=400&h=400&fit=crop"
  const Product2Name: string := "Brake Fluid DOT4"
  const Product2Description: string := "High boiling point brake fluid for modern braking systems."
  const Product2Image: string := "https://images.unsplash.com/photo-1625047509168-a7026f36de04?w=400&h=400&fit=crop"

  function SeedProducts(): seq<ProductItem> {
    [
      ProductItem(1, Product1Name, Product1Description,
                  15.0, Active, 50, ["Oil", "Engine"],
                  Some(Product1Image)),
      ProductItem(2, Product2Name, Product2Description,
                  8.0, Active, 120, ["Brake"],
                  Some(Product2Image))
    ]
  }

  function EmptyForm(): ProductForm {
    ProductForm("", "", Blank, Active, 1, [])
  }

  function ApplyField(form: ProductForm, field: FormField): ProductForm {
    match field
    case Name(t) => form.(name := t)
    case Description(t) => form.(description := t)
    case Price(p) => form.(price := p)
    case Status(s) => form.(status := s)
    case Stock(n) => form.(stock := n)
  }

  /** `openEditModal`: the form holds the product's fields, its price as text. */
  function FormOf(p: ProductItem): ProductForm {
    ProductForm(p.name, p.description, Typed(p.price), p.status, p.stock, p.categories)
  }

  /** `openEditModal`: the preview starts as the product's image, or empty. */
  function PreviewOf(p: ProductItem): string {
    if p.image.Some? then p.image.value else ""
  }

  // ---------------------------------------------------------------------------
  // Categories

  /** `addCategoryToProduct`: the name is appended unless it is already there. */
  function AddCategory(categories: seq<string>, name: string): seq<string> {
    if name in categories then categories else categories + [name]
  }

  /** `removeCategory` */
  function RemoveCategory(categories: seq<string>, name: string): seq<string> {
    Filter(categories, (c: string) => c != name)
  }

  /**
   * Adding keeps the earlier categories in order, makes the name present and
   * never creates a duplicate; grows the list by one only for a new name.
   */
  lemma AddCategoryEffect(categories: seq<string>, name: string)
    ensures name in AddCategory(categories, name)
    ensures AddCategory(categories, name)[..|categories|] == categories
    ensures |AddCategory(categories, name)| == |categories| + (if name in categories then 0 else 1)
    ensures NoDuplicates(categories) ==> NoDuplicates(AddCategory(categories, name))
  {
  }

  /** Removing drops exactly that name, keeps the others in order and creates no duplicate. */
  lemma RemoveCategoryEffect(categories: seq<string>, name: string)
    ensures Sublist(RemoveCategory(categories, name), categories)
    ensures name !in RemoveCategory(categories, name)
    ensures forall i :: 0 <= i < |categories| && categories[i] != name ==> categories[i] in RemoveCategory(categories, name)
    ensures NoDuplicates(categories) ==> NoDuplicates(RemoveCategory(categories, name))
  {
    FilterIsSublist(categories, (c: string) => c != name);
    if NoDuplicates(categories) {
      SublistKeepsDistinct(RemoveCategory(categories, name), categories, (c: string) => c);
      assert DistinctBy(RemoveCategory(categories, name), (c: string) => c);
    }
  }

  // ---------------------------------------------------------------------------
  // Saving

  /** The edited product: the form's fields, and the new preview or else the old image. */
  function EditedProduct(p: ProductItem, form: ProductForm, preview: string, price: real): ProductItem {
    p.(name := form.name, description := form.description, price := price, status := form.status,
       stock := form.stock, categories := form.categories,
       image := if preview != "" then Some(preview) else p.image)
  }

  /** The created product, whose image is the preview as it stands. */
  function NewProduct(id: int, form: ProductForm, preview: string, price: real): ProductItem {
    ProductItem(id, form.name, form.description, price, form.status, form.stock, form.categories, Some(preview))
  }

  function ProductId(p: ProductItem): int {
    p.id
  }

  /** The edit branch of `handleSave`: every product with that id becomes the edited product. */
  function EditProducts(products: seq<ProductItem>, id: int, form: ProductForm, preview: string, price: real): seq<ProductItem> {
    MapWhere(products, (p: ProductItem) => p.id == id, (p: ProductItem) => EditedProduct(p, form, preview, price))
  }

  /** `handleDelete` once confirmed. */
  function DeleteProduct(products: seq<ProductItem>, id: int): seq<ProductItem> {
    Filter(products, (p: ProductItem) => p.id != id)
  }

  /** `products.map(p => p.id)` */
  function ProductIds(products: seq<ProductItem>): (ids: seq<int>)
    ensures |ids| == |products| && forall i :: 0 <= i < |products| ==> ids[i] == products[i].id
  {
    seq(|products|, i requires 0 <= i < |products| => products[i].id)
  }

  /** `Math.max(...products.map(p => p.id), 0) + 1`: above every id in use. */
  function NextProductId(products: seq<ProductItem>): (id: int)
    ensures id >= 1
    ensures forall i :: 0 <= i < |products| ==> products[i].id < id
  {
    NextId(ProductIds(products))
  }

  /** The stored products: distinct ids, positive prices and no repeated category. */
  ghost predicate ProductStore(products: seq<ProductItem>) {
    DistinctBy(products, ProductId)
    && forall i :: 0 <= i < |products| ==> products[i].price > 0.0 && NoDuplicates(products[i].categories)
  }

  /**
   * An edit rewrites exactly the products with that id, keeps ids and order,
   * stores the checked price and keeps the old image when there is no new
   * preview.
   */
  lemma EditProductsEffect(products: seq<ProductItem>, id: int, form: ProductForm, preview: string, price: real)
    ensures |EditProducts(products, id, form, preview, price)| == |products|
    ensures forall k :: 0 <= k < |products| ==> EditProducts(products, id, form, preview, price)[k].id == products[k].id
    ensures forall k :: 0 <= k < |products| && products[k].id != id ==> EditProducts(products, id, form, preview, price)[k] == products[k]
    ensures forall k :: 0 <= k < |products| && products[k].id == id ==>
      EditProducts(products, id, form, preview, price)[k].price == price
      && EditProducts(products, id, form, preview, price)[k].categories == form.categories
      && EditProducts(products, id, form, preview, price)[k].image == (if preview != "" then Some(preview) else products[k].image)
  {
  }

  /** Deleting keeps the others in order and drops exactly that id; with distinct ids, one product at most. */
  lemma DeleteProductEffect(products: seq<ProductItem>, id: int)
    ensures Sublist(DeleteProduct(products, id), products)
    ensures forall k :: 0 <= k < |DeleteProduct(products, id)| ==> DeleteProduct(products, id)[k].id != id
    ensures forall k :: 0 <= k < |products| && products[k].id != id ==> products[k] in DeleteProduct(products, id)
    ensures DistinctBy(products, ProductId) ==>
      |DeleteProduct(products, id)| == |products| - (if exists k :: 0 <= k < |products| && products[k].id == id then 1 else 0)
  {
    var p := (q: ProductItem) => q.id != id;
    FilterIsSublist(products, p);
    if DistinctBy(products, ProductId) {
      FilterOutKey(products, p, ProductId, id);
    }
  }

  /** Saving an accepted price from a form without repeated categories, and deleting, keep the store sound. */
  lemma SaveKeepsProductStore(products: seq<ProductItem>, id: int, form: ProductForm, preview: string, price: real)
    requires ProductStore(products) && NoDuplicates(form.categories) && price > 0.0
    ensures ProductStore(EditProducts(products, id, form, preview, price))
    ensures ProductStore(products + [NewProduct(NextProductId(products), form, preview, price)])
    ensures ProductStore(DeleteProduct(products, id))
  {
    EditProductsEffect(products, id, form, preview, price);
    DistinctByAppend(products, NewProduct(NextProductId(products), form, preview, price), ProductId);
    var p := (q: ProductItem) => q.id != id;
    FilterKeepsDistinct(products, p, ProductId);
  }

  /** Opening a product for editing and saving it unchanged gives back the same product. */
  lemma OpenThenSaveIsIdentity(p: ProductItem)
    ensures PriceAccepted(FormOf(p).price) <==> p.price > 0.0
    ensures EditedProduct(p, FormOf(p), PreviewOf(p), FormOf(p).price.value) == p
  {
  }

  lemma SeedProductsStore()
    ensures ProductStore(SeedProducts())
  {
  }
}
