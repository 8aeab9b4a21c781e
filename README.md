# Garage admin dashboard — a Dafny model

This project models the in-memory logic of a garage's admin dashboard: the
invoice editor and list, the booking list, three versions of the
service-package composer, the product and service catalogue editors, the
notification inbox, the staff directory, the settings and profile pages, the
two login pages, and the service, auth and category stores.

Each page component is a `class` whose fields are its state variables, and
each event handler is a `method` on it. The browser's `confirm()` answer is a
boolean parameter, `alert()` is dropped, and where a handler is reachable only
from a button the view shows in some state (the draft-only invoice actions,
the pending-only booking decisions, the "next page" button), that condition is
a `requires`. The list logic behind the handlers is written as functions
(`Filter`, `MapWhere`, `RemoveAt`, `UpdateAt`, `NextId`), and lemmas prove
what each save, edit and delete does to the list.

Modules:

- `Wrappers`, `Text`, `Collections`: `Option`, the price input (blank or a
  number), and the JavaScript built-ins the pages use (`trim`, `toLowerCase`,
  `includes`, `split`, `padStart`, `filter`, `map`, `Math.max`, `slice`).
- `Invoices`, `Bookings`: the invoice and booking pages.
- `PackageCatalog`, `DashboardPackages`, `DashboardServicePackage`,
  `ServicesServicePackage`: what the three package composers share, then one
  class per composer.
- `ProductCatalog`, `DashboardProducts`, `ServiceProducts`: the two product
  editors.
- `DashboardServices`, `ServiceEditor`, `ServiceSlice`: the service editor
  that keeps its own list, the one that sends requests to the store, and the
  store itself.
- `Notifications`, `Staff`, `Settings`, `Profile`.
- `LoginCheck`, `LoginPage`, `AuthSlice`, `AuthLogin`, `CategorySlice`.

## Model

| member | source | states |
|---|---|---|
| Invoices.InvoiceNumberInjective | src/pages/invoices/Invoices.tsx:361-362 | Two counts that give the same `INV-2025-` number are the same count. |
| Invoices.InvoiceNumbersUnique | src/pages/invoices/Invoices.tsx:355-405 | A list numbered by count, as creation builds it, never repeats an invoice number. |
| Invoices.PositionOfId | src/pages/invoices/Invoices.tsx:359-403 | In a list numbered by count, the invoice with id n is at position n−1 and no other invoice has that id. |
| Invoices.SubtotalIsLineSum | src/pages/invoices/Invoices.tsx:261-262 | When every line total is quantity × unit price, the reduced subtotal equals the independent sum of quantity × unit price. |
| Invoices.TotalsOfConsistentLines | src/pages/invoices/Invoices.tsx:261-266 | For consistent lines, the subtotal is the line sum, the tax is taxRate % of it, and the total is line sum × (1 + taxRate/100) − discount. |
| Invoices.NegativeTotalWitness | src/pages/invoices/Invoices.tsx:264 | Nothing bounds the discount: one line of 10 at 10 % tax with a discount of 20 gives a total of −9. |
| Invoices.UpdateItemsEffect | src/pages/invoices/Invoices.tsx:269-287 | After a quantity or unit-price edit, the edited line's total is quantity × unit price. A description edit keeps the total. Items with other ids, the ids and the order are unchanged. |
| Invoices.UpdateItemsKeepsLines | src/pages/invoices/Invoices.tsx:269-287 | Cell edits keep every line consistent and the item ids distinct. |
| Invoices.AddItemKeepsTotals | src/pages/invoices/Invoices.tsx:290-299 | Appending the empty row (quantity 1, price 0, total 0) changes none of the totals. |
| Invoices.RemoveItemEffect | src/pages/invoices/Invoices.tsx:302-309 | With one row left, nothing is removed. Otherwise exactly the rows with that id go, and the rest keep their order. With distinct ids at least one row remains. |
| Invoices.SavedInvoiceWellFormed | src/pages/invoices/Invoices.tsx:355-405 | A created invoice gets id n and number `INV-2025-` followed by n. An edit keeps the id, number and booking. Both store the form's items, the final status and the totals of `calculateTotals`. |
| Invoices.InitialFormWellFormed | src/pages/invoices/Invoices.tsx:244-256 | The initial form is a draft with one consistent empty row (quantity 1, price 0, total 0). |
| Invoices.FormOfWellFormed | src/pages/invoices/Invoices.tsx:327-344 | Loading a well-formed invoice into the form keeps its rows and status and gives a well-formed form. |
| Invoices.FilteredInvoices | src/pages/invoices/Invoices.tsx:430-439 | The result is an order-preserving sublist holding exactly the invoices that pass the status filter and contain the term, ignoring case, in number, customer or plate. |
| Invoices.EmptySearchListsAll | src/pages/invoices/Invoices.tsx:430-439 | An empty term with the `all` filter lists every invoice. |
| Invoices.StatsAddUp | src/pages/invoices/Invoices.tsx:442-447 | The draft, paid and cancelled counts sum to the total. |
| Invoices.StatusChangeMovesOneCount | src/pages/invoices/Invoices.tsx:408-427 | Moving one draft to paid or cancelled moves exactly one count and keeps the total. |
| Invoices.InvoicePagination | src/pages/invoices/Invoices.tsx:450-453 | A page holds at most 6 invoices, and the pages up to `totalPages`, laid end to end, are the filtered list. |
| Invoices.SeedInvoicesNumbered | src/pages/invoices/Invoices.tsx:55-234 | The eight seed invoices carry ids 1–8 and numbers `INV-2025-001` to `INV-2025-008`. |
| Invoices.SeedInvoicesWellFormed | src/pages/invoices/Invoices.tsx:55-234 | Every seed line total is quantity × unit price, and every seed invoice stores the totals `calculateTotals` gives. |
| Invoices.InvoicesPage.constructor | src/pages/invoices/Invoices.tsx:55-258 | The page starts with the seed invoices, an empty search, the `all` filter, page 1 and the initial form. |
| Invoices.InvoicesPage.SetSearchTerm | src/pages/invoices/Invoices.tsx:520-523 | A new term resets to page 1 and changes nothing else. |
| Invoices.InvoicesPage.SetFilterStatus | src/pages/invoices/Invoices.tsx:534-537 | A new status filter resets to page 1 and changes nothing else. |
| Invoices.InvoicesPage.ResetFilters | src/pages/invoices/Invoices.tsx:455-459 | The filters are cleared, back to page 1, and every invoice is listed. |
| Invoices.InvoicesPage.PreviousPage | src/pages/invoices/Invoices.tsx:642-644 | One page back, never below 1. |
| Invoices.InvoicesPage.NextPage | src/pages/invoices/Invoices.tsx:637-668 | Shown only with more than one page: one page on, never past the last. |
| Invoices.InvoicesPage.GoToPage | src/pages/invoices/Invoices.tsx:650-657 | A page button selects that page. |
| Invoices.InvoicesPage.OpenCreateModal | src/pages/invoices/Invoices.tsx:312-317 | Create mode with the initial form and no selected invoice. |
| Invoices.InvoicesPage.OpenViewModal | src/pages/invoices/Invoices.tsx:320-324 | View mode on the chosen invoice. |
| Invoices.InvoicesPage.OpenEditModal | src/pages/invoices/Invoices.tsx:327-344 | Offered only on a draft. Loads the selected invoice into the form in edit mode. |
| Invoices.InvoicesPage.CloseModal | src/pages/invoices/Invoices.tsx:347-352 | The modal closes, the selection is dropped and the form is reset. |
| Invoices.InvoicesPage.SetField | src/pages/invoices/Invoices.tsx:841-903 | One input changes its field, never the rows or status. |
| Invoices.InvoicesPage.UpdateItemTotal | src/pages/invoices/Invoices.tsx:269-287 | The form's rows become `UpdateItems` of the old rows. |
| Invoices.InvoicesPage.AddItem | src/pages/invoices/Invoices.tsx:290-299 | One empty row is appended under a fresh id, and the totals are unchanged. |
| Invoices.InvoicesPage.RemoveItem | src/pages/invoices/Invoices.tsx:302-309 | The rows become `RemoveItemFrom` of the old rows, and at least one row remains. |
| Invoices.InvoicesPage.HandleSave | src/pages/invoices/Invoices.tsx:355-405 | Create appends invoice count+1. Edit replaces only the selected invoice, at its position. Both use the final status (paid when marked). The modal closes. |
| Invoices.InvoicesPage.HandleMarkAsPaid | src/pages/invoices/Invoices.tsx:408-415 | On a draft, only the selected invoice's status becomes paid, and the modal closes. |
| Invoices.InvoicesPage.HandleCancelInvoice | src/pages/invoices/Invoices.tsx:418-427 | On a draft, only the selected invoice's status becomes cancelled, and the modal closes. |
| Bookings.NewBookingFields | src/pages/bookings/Bookings.tsx:241-267 | A new booking is pending with id n. A typed service code is kept; a blank one becomes `#` plus four digits that read back as n. Items are trimmed, non-empty and comma-free. Included services exist only for a package with text. A description exists only when typed. |
| Bookings.FilteredBookings | src/pages/bookings/Bookings.tsx:179-188 | An order-preserving sublist holding exactly the bookings that match status, type and search. |
| Bookings.ClearedFiltersListAll | src/pages/bookings/Bookings.tsx:179-188 | With every filter off, all bookings are listed. |
| Bookings.CountsAddUp | src/pages/bookings/Bookings.tsx:171-176 | The pending, approved and rejected counts sum to the total, and so do the per-type counts. |
| Bookings.DecisionMovesOneCount | src/pages/bookings/Bookings.tsx:195-203 | Deciding one pending booking moves exactly one count from pending to the decision. |
| Bookings.BookingPagination | src/pages/bookings/Bookings.tsx:168-193 | A page holds at most 6 bookings, and the pages together list the filtered bookings once, in order. |
| Bookings.StatusDisplayDistinct | src/pages/bookings/Bookings.tsx:215-239 | Different statuses have different badge classes and different labels. |
| Bookings.BookingsPage.constructor | src/pages/bookings/Bookings.tsx:47-166 | The page starts with the seed bookings numbered 1 to n, no filters and page 1. |
| Bookings.BookingsPage.SetSearchTerm | src/pages/bookings/Bookings.tsx:352-355 | The term changes and the page is kept. |
| Bookings.BookingsPage.SetFilterType | src/pages/bookings/Bookings.tsx:365-368 | A new type filter resets to page 1. |
| Bookings.BookingsPage.SetFilterStatus | src/pages/bookings/Bookings.tsx:379-382 | A new status filter resets to page 1. |
| Bookings.BookingsPage.ClearFilters | src/pages/bookings/Bookings.tsx:392-397 | Every filter is off, back to page 1. |
| Bookings.BookingsPage.PreviousPage | src/pages/bookings/Bookings.tsx:483-485 | One page back, never below 1. |
| Bookings.BookingsPage.NextPage | src/pages/bookings/Bookings.tsx:507-509 | One page on, never past the last. |
| Bookings.BookingsPage.GoToPage | src/pages/bookings/Bookings.tsx:495-497 | A page button selects that page. |
| Bookings.BookingsPage.OpenDetailModal | src/pages/bookings/Bookings.tsx:205-208 | The chosen booking is shown. |
| Bookings.BookingsPage.CloseDetailModal | src/pages/bookings/Bookings.tsx:210-213 | The detail modal closes and the selection is dropped. |
| Bookings.BookingsPage.HandleStatusChange | src/pages/bookings/Bookings.tsx:195-203 | Offered only on a pending booking. Only that booking's status changes, and the modal closes. |
| Bookings.BookingsPage.OpenCreateModal | src/pages/bookings/Bookings.tsx:411-413 | The create modal opens. |
| Bookings.BookingsPage.CloseCreateModal | src/pages/bookings/Bookings.tsx:668-690 | The create modal closes and keeps what was typed. |
| Bookings.BookingsPage.SetField | src/pages/bookings/Bookings.tsx:699-831 | One input changes its field. |
| Bookings.BookingsPage.HandleSubmit | src/pages/bookings/Bookings.tsx:241-282 | Appends exactly `NewBooking(count+1, form)`, keeps the list numbered, closes the modal and clears the form. |
| Bookings.BookingsPage.StoreBooking | src/pages/bookings/Bookings.tsx:267-281 | A pending booking numbered count + 1 goes at the end, keeping the list numbered and adding one pending booking. The modal closes and the form is cleared. |
| PackageCatalog.PriceOfFindsFirst | src/pages/dashboard/service_package.tsx:183-187 | `find` by name returns nothing iff no entry has the name; otherwise it returns the price of the first entry with it. |
| PackageCatalog.CalculateTotalPrice | src/pages/dashboard/service_package.tsx:180-191 | The two accumulating loops compute the automatic price: every known service's price plus every known product's price × quantity. |
| PackageCatalog.UnknownServiceAddsNothing | src/pages/dashboard/service_package.tsx:182-185 | A service not in the catalogue adds nothing to the automatic price. |
| PackageCatalog.UnknownProductAddsNothing | src/pages/dashboard/service_package.tsx:186-189 | A product not in the catalogue adds nothing, whatever its quantity. |
| PackageCatalog.CatalogueServiceAddsItsPrice | src/pages/dashboard/service_package.tsx:182-185 | Selecting a catalogue service raises the automatic price by exactly its catalogue price. |
| PackageCatalog.CataloguePricesPositive | src/pages/dashboard/service_package.tsx:71-87 | Every catalogue price is positive. |
| PackageCatalog.AutoPriceNonNegative | src/pages/dashboard/service_package.tsx:180-191 | With quantities of at least 1, the automatic price is never negative. |
| PackageCatalog.AddServiceEffect | src/pages/dashboard/service_package.tsx:150-158 | Adding keeps the earlier services in order, makes the name selected, grows the list by one only for a new name, and never creates a duplicate. |
| PackageCatalog.AddProductEffect | src/pages/dashboard/service_package.tsx:160-169 | Adds `{name, 1}` only when the name is new. Names stay distinct and quantities positive. |
| PackageCatalog.RemoveEffect | src/pages/dashboard/service_package.tsx:136-148 | Removing by name drops exactly that name and keeps the rest in order. The selection stays well formed. |
| PackageCatalog.UpdateQuantityEffect | src/pages/dashboard/service_package.tsx:171-178 | The named product gets max(1, q) and the others are unchanged. Names stay distinct and quantities stay ≥ 1. |
| PackageCatalog.SavedPackageFields | src/pages/dashboard/service_package.tsx:193-236 | A save stores the typed price when there is one, else the automatic price. An edit keeps the id, and keeps the old image without a new preview. The package is well formed when the form is. |
| PackageCatalog.OpenThenSaveIsIdentity | src/pages/dashboard/service_package.tsx:104-117 | Opening a package and saving it untouched gives back the same package. |
| PackageCatalog.EditPackagesEffect | src/pages/dashboard/service_package.tsx:203-219 | An edit rewrites only the packages with that id and keeps ids, order, well-formedness and distinct ids. |
| PackageCatalog.DeletePackageEffect | src/pages/dashboard/service_package.tsx:238-243 | A delete keeps the others in order and drops exactly that id. With distinct ids it removes one package if the id is present, none otherwise. |
| PackageCatalog.NextPackageId | src/pages/dashboard/service/ServicePackage.tsx:243 | `max(ids, 0) + 1` is at least 1 and above every id in use. |
| PackageCatalog.CreateKeepsIdsDistinct | src/pages/dashboard/service/ServicePackage.tsx:241-250 | Appending under the next id keeps the ids distinct and the earlier packages unchanged. |
| PackageCatalog.SaveKeepsNumberedStore | src/pages/dashboard/service/ServicePackage.tsx:200-262 | Edit, create under the next id, and delete all keep ids distinct and packages well formed. |
| PackageCatalog.SeedPackagesWellFormed | src/pages/dashboard/service_package.tsx:27-51 | The seed packages hold no duplicate service or product and only positive quantities. |
| PackageCatalog.SeedPackagesNumbered | src/pages/dashboard/service/ServicePackage.tsx:29-53 | The seed packages, numbered 1 and 2, form a sound numbered list. |
| DashboardPackages.PackageCodeRoundTrip | src/pages/dashboard/service_package.tsx:223 | Codes `PKG` + padded n of different counts differ, and the count reads back from the code. |
| DashboardPackages.DeleteThenCreateRepeatsCode | src/pages/dashboard/service_package.tsx:223-243 | Because the code is the length plus one, in a list of two packages coded `PKG001` and `PKG002` (as the seeds are), deleting `PKG001` leaves only the second, and the next create hands out `PKG002`, which that package already holds. |
| DashboardPackages.ServicePackagePage.constructor | src/pages/dashboard/service_package.tsx:27-69 | The seed packages, coded `PKG001` and `PKG002`, and an empty form. |
| DashboardPackages.ServicePackagePage.OpenCreateModal | src/pages/dashboard/service_package.tsx:89-102 | Create mode with the empty form and no preview. |
| DashboardPackages.ServicePackagePage.OpenEditModal | src/pages/dashboard/service_package.tsx:104-117 | Edit mode with the package's fields, its price as text, and its image as the preview. |
| DashboardPackages.ServicePackagePage.CloseModal | src/pages/dashboard/service_package.tsx:119-123 | The modal closes and the current package and preview are dropped. |
| DashboardPackages.ServicePackagePage.SetImagePreview | src/pages/dashboard/service_package.tsx:125-134 | The preview becomes the read image, or empty when removed. |
| DashboardPackages.ServicePackagePage.SetField | src/pages/dashboard/service_package.tsx:416-456 | One input changes its field. |
| DashboardPackages.ServicePackagePage.RemoveServiceFromPackage | src/pages/dashboard/service_package.tsx:136-141 | The name is removed from the selected services. |
| DashboardPackages.ServicePackagePage.RemoveProductFromPackage | src/pages/dashboard/service_package.tsx:143-148 | The products of that name are removed. |
| DashboardPackages.ServicePackagePage.AddServiceToPackage | src/pages/dashboard/service_package.tsx:150-158 | The service is added once and the dialog closes. |
| DashboardPackages.ServicePackagePage.AddProductToPackage | src/pages/dashboard/service_package.tsx:160-169 | The product is added once with quantity 1 and the dialog closes. |
| DashboardPackages.ServicePackagePage.UpdateProductQuantity | src/pages/dashboard/service_package.tsx:171-178 | The named product's quantity becomes max(1, q). |
| DashboardPackages.ServicePackagePage.HandleSave | src/pages/dashboard/service_package.tsx:193-236 | A blank name changes nothing. Otherwise an edit rewrites the current package and a create appends one coded from the length plus one, priced by the typed or automatic price. The modal closes. |
| DashboardPackages.ServicePackagePage.StoreForm | src/pages/dashboard/service_package.tsx:199-235 | An edit rewrites the current package. A create appends one coded from the length plus one, priced by the typed or automatic price. The modal closes. |
| DashboardPackages.ServicePackagePage.HandleDelete | src/pages/dashboard/service_package.tsx:238-243 | Only a confirmed delete removes the packages with that code. |
| DashboardServicePackage.ServicePackagePage.constructor | src/pages/dashboard/service/ServicePackage.tsx:29-73 | Seed packages 1 and 2, an empty form and no error. |
| DashboardServicePackage.ServicePackagePage.OpenCreateModal | src/pages/dashboard/service/ServicePackage.tsx:93-107 | Create mode with the empty form, and the error cleared. |
| DashboardServicePackage.ServicePackagePage.OpenEditModal | src/pages/dashboard/service/ServicePackage.tsx:109-123 | Edit mode on a listed package, and the error cleared. |
| DashboardServicePackage.ServicePackagePage.CloseModal | src/pages/dashboard/service/ServicePackage.tsx:125-130 | The modal closes and the error is cleared. |
| DashboardServicePackage.ServicePackagePage.SetImagePreview | src/pages/dashboard/service/ServicePackage.tsx:132-141 | The preview becomes the read image, or empty. |
| DashboardServicePackage.ServicePackagePage.SetField | src/pages/dashboard/service/ServicePackage.tsx:374-416 | One input changes its field. Typing a name clears the name error. |
| DashboardServicePackage.ServicePackagePage.RemoveServiceFromPackage | src/pages/dashboard/service/ServicePackage.tsx:143-148 | The name is removed from the selected services. |
| DashboardServicePackage.ServicePackagePage.RemoveProductFromPackage | src/pages/dashboard/service/ServicePackage.tsx:150-155 | The products of that name are removed. |
| DashboardServicePackage.ServicePackagePage.AddServiceToPackage | src/pages/dashboard/service/ServicePackage.tsx:157-165 | The service is added once and the dialog closes. |
| DashboardServicePackage.ServicePackagePage.AddProductToPackage | src/pages/dashboard/service/ServicePackage.tsx:167-176 | The product is added once with quantity 1 and the dialog closes. |
| DashboardServicePackage.ServicePackagePage.UpdateProductQuantity | src/pages/dashboard/service/ServicePackage.tsx:178-185 | The named product's quantity becomes max(1, q). |
| DashboardServicePackage.ServicePackagePage.HandleSave | src/pages/dashboard/service/ServicePackage.tsx:200-256 | A blank name sets the name error and changes nothing else. Otherwise an edit rewrites the current id, a create appends under max+1, the modal closes, and ids stay distinct. |
| DashboardServicePackage.ServicePackagePage.StoreForm | src/pages/dashboard/service/ServicePackage.tsx:219-255 | Stores the edited or created package and closes the modal. |
| DashboardServicePackage.ServicePackagePage.HandleDelete | src/pages/dashboard/service/ServicePackage.tsx:258-262 | A confirmed delete removes the one package with that id, if any, so the length drops by exactly that. |
| ServicesServicePackage.ServicePackagePage.constructor | src/pages/services/service-package/ServicePackage.tsx:29-73 | Seed packages 1 and 2, an empty form and no error. |
| ServicesServicePackage.ServicePackagePage.OpenCreateModal | src/pages/services/service-package/ServicePackage.tsx:93-107 | Create mode with the empty form, and the error cleared. |
| ServicesServicePackage.ServicePackagePage.OpenEditModal | src/pages/services/service-package/ServicePackage.tsx:109-123 | Edit mode on a listed package, and the error cleared. |
| ServicesServicePackage.ServicePackagePage.CloseModal | src/pages/services/service-package/ServicePackage.tsx:125-130 | The modal closes and the error is cleared. |
| ServicesServicePackage.ServicePackagePage.SetImagePreview | src/pages/services/service-package/ServicePackage.tsx:132-141 | The preview becomes the read image. |
| ServicesServicePackage.ServicePackagePage.SetField | src/pages/services/service-package/ServicePackage.tsx:302-335 | One input changes its field. The name error is left as it is. |
| ServicesServicePackage.ServicePackagePage.RemoveServiceFromPackage | src/pages/services/service-package/ServicePackage.tsx:143-148 | The name is removed from the selected services. |
| ServicesServicePackage.ServicePackagePage.RemoveProductFromPackage | src/pages/services/service-package/ServicePackage.tsx:150-155 | The products of that name are removed. |
| ServicesServicePackage.ServicePackagePage.AddServiceToPackage | src/pages/services/service-package/ServicePackage.tsx:157-165 | The service is added once and the dialog closes. |
| ServicesServicePackage.ServicePackagePage.AddProductToPackage | src/pages/services/service-package/ServicePackage.tsx:167-176 | The product is added once with quantity 1 and the dialog closes. |
| ServicesServicePackage.ServicePackagePage.EnterService | src/pages/services/service-package/ServicePackage.tsx:364-371 | Enter adds the trimmed text as a service, once, when it is not blank. |
| ServicesServicePackage.ServicePackagePage.EnterProduct | src/pages/services/service-package/ServicePackage.tsx:439-447 | Enter adds the trimmed text as a product of quantity 1, once, when it is not blank. |
| ServicesServicePackage.ServicePackagePage.ToggleServiceDialog | src/pages/services/service-package/ServicePackage.tsx:378 | Flips the service suggestions. |
| ServicesServicePackage.ServicePackagePage.ToggleProductDialog | src/pages/services/service-package/ServicePackage.tsx:453 | Flips the product suggestions. |
| ServicesServicePackage.ServicePackagePage.UpdateProductQuantity | src/pages/services/service-package/ServicePackage.tsx:178-185 | The named product's quantity becomes max(1, q). |
| ServicesServicePackage.ServicePackagePage.HandleSave | src/pages/services/service-package/ServicePackage.tsx:200-253 | A blank name sets the name error and changes nothing else. Otherwise an edit rewrites the current id, a create appends under max+1, the modal closes, and ids stay distinct. |
| ServicesServicePackage.ServicePackagePage.StoreForm | src/pages/services/service-package/ServicePackage.tsx:216-252 | Stores the edited or created package and closes the modal. |
| ServicesServicePackage.ServicePackagePage.HandleDelete | src/pages/services/service-package/ServicePackage.tsx:255-259 | A confirmed delete removes the one package with that id, if any. |
| ProductCatalog.AddCategoryEffect | src/pages/dashboard/Products.tsx:127-135 | Adding keeps earlier categories in order, makes the name present, grows the list only for a new name, and never creates a duplicate. |
| ProductCatalog.RemoveCategoryEffect | src/pages/dashboard/Products.tsx:120-125 | Removing drops exactly that name, keeps the others in order, and creates no duplicate. |
| ProductCatalog.NextProductId | src/pages/dashboard/Products.tsx:180 | `max(ids, 0) + 1` is at least 1 and above every id. |
| ProductCatalog.EditProductsEffect | src/pages/dashboard/Products.tsx:162-177 | An edit rewrites exactly the products with that id. It keeps ids and order, stores the checked price, and keeps the old image without a new preview. |
| ProductCatalog.DeleteProductEffect | src/pages/dashboard/Products.tsx:197-201 | A delete keeps the others in order and drops exactly that id; with distinct ids, one product at most. |
| ProductCatalog.SaveKeepsProductStore | src/pages/dashboard/Products.tsx:137-201 | Edit, create under max+1, and delete keep ids distinct, prices positive and categories unrepeated. |
| ProductCatalog.OpenThenSaveIsIdentity | src/pages/dashboard/Products.tsx:86-100 | The opened price passes the price check exactly when it is positive, and saving an untouched product gives it back. |
| ProductCatalog.SeedProductsStore | src/pages/dashboard/Products.tsx:20-41 | The seed products form a sound store. |
| DashboardProducts.ProductsPage.constructor | src/pages/dashboard/Products.tsx:20-60 | The seed products, an empty form and no error. |
| DashboardProducts.ProductsPage.OpenCreateModal | src/pages/dashboard/Products.tsx:70-84 | Create mode with the empty form, and the error cleared. |
| DashboardProducts.ProductsPage.OpenEditModal | src/pages/dashboard/Products.tsx:86-100 | Edit mode with the product's fields and image, and the error cleared. |
| DashboardProducts.ProductsPage.CloseModal | src/pages/dashboard/Products.tsx:102-107 | The modal closes and the error is cleared. |
| DashboardProducts.ProductsPage.SetImagePreview | src/pages/dashboard/Products.tsx:109-118 | The preview becomes the read image, or empty. |
| DashboardProducts.ProductsPage.SetField | src/pages/dashboard/Products.tsx:374-426 | One input changes its field. Typing a name clears the name error. |
| DashboardProducts.ProductsPage.RemoveCategoryFromProduct | src/pages/dashboard/Products.tsx:120-125 | The category is removed from the form. |
| DashboardProducts.ProductsPage.AddCategoryToProduct | src/pages/dashboard/Products.tsx:127-135 | The category is added once and the dialog closes. |
| DashboardProducts.ProductsPage.HandleSave | src/pages/dashboard/Products.tsx:137-195 | A blank name sets the name error. An empty or non-positive price stops with the error cleared. Otherwise an edit rewrites the current id, a create appends under max+1, and the modal closes. |
| DashboardProducts.ProductsPage.StoreForm | src/pages/dashboard/Products.tsx:160-194 | Stores the edited or created product and closes the modal. |
| DashboardProducts.ProductsPage.HandleDelete | src/pages/dashboard/Products.tsx:197-201 | A confirmed delete removes the one product with that id, if any. |
| ServiceProducts.ProductsPage.constructor | src/pages/dashboard/services/products/Products.tsx:20-60 | The seed products, an empty form and no error. |
| ServiceProducts.ProductsPage.OpenCreateModal | src/pages/dashboard/services/products/Products.tsx:70-84 | Create mode with the empty form, and the error cleared. |
| ServiceProducts.ProductsPage.OpenEditModal | src/pages/dashboard/services/products/Products.tsx:86-100 | Edit mode with the product's fields and image. |
| ServiceProducts.ProductsPage.CloseModal | src/pages/dashboard/services/products/Products.tsx:102-107 | The modal closes and the error is cleared. |
| ServiceProducts.ProductsPage.SetImagePreview | src/pages/dashboard/services/products/Products.tsx:109-118 | The preview becomes the read image. |
| ServiceProducts.ProductsPage.SetField | src/pages/dashboard/services/products/Products.tsx:306-348 | One input changes its field. The name error is left as it is. |
| ServiceProducts.ProductsPage.RemoveCategoryFromProduct | src/pages/dashboard/services/products/Products.tsx:120-125 | The category is removed from the form. |
| ServiceProducts.ProductsPage.AddCategoryToProduct | src/pages/dashboard/services/products/Products.tsx:127-135 | The category is added once and the dialog closes. |
| ServiceProducts.ProductsPage.EnterCategory | src/pages/dashboard/services/products/Products.tsx:362-370 | Enter adds the trimmed text as a category, once, when it is not blank. |
| ServiceProducts.ProductsPage.ToggleCategoryDialog | src/pages/dashboard/services/products/Products.tsx:374 | Flips the category suggestions. |
| ServiceProducts.ProductsPage.HandleSave | src/pages/dashboard/services/products/Products.tsx:137-193 | A blank name sets the name error. A bad price stops with the error cleared. Otherwise edit or create under max+1, and the modal closes. |
| ServiceProducts.ProductsPage.StoreForm | src/pages/dashboard/services/products/Products.tsx:158-192 | Stores the edited or created product and closes the modal. |
| ServiceProducts.ProductsPage.HandleDelete | src/pages/dashboard/services/products/Products.tsx:195-199 | A confirmed delete removes the one product with that id, if any. |
| DashboardServices.AddRowEffect | src/pages/dashboard/Services.tsx:112-117 | One empty row of quantity 1 is appended after the unchanged rows. |
| DashboardServices.RemoveRowEffect | src/pages/dashboard/Services.tsx:119-124 | Removing by index drops exactly that row, if it exists, and keeps the others in order. |
| DashboardServices.UpdateRowEffect | src/pages/dashboard/Services.tsx:126-140 | Only the row at that index changes. A rename keeps its quantity; a quantity update keeps its name and stores max(1, q). |
| DashboardServices.SaveEffect | src/pages/dashboard/Services.tsx:142-193 | An edit rewrites exactly the services with that id and keeps id, order and old image. Saving an accepted form, and deleting, keep prices positive and rows ≥ 1. |
| DashboardServices.OpenThenSaveIsIdentity | src/pages/dashboard/Services.tsx:81-93 | Opening a service and saving it untouched gives it back. |
| DashboardServices.SeedServicesStore | src/pages/dashboard/Services.tsx:14-51 | The four seed services have positive prices and rows of at least one unit. |
| DashboardServices.SeedServicesCoded | src/pages/dashboard/Services.tsx:14-51 | The four seed services are coded by position, `0001` to `0004`. |
| DashboardServices.DeleteThenCreateRepeatsId | src/pages/dashboard/Services.tsx:174-193 | Because the id is the length plus one, for services coded by position (as the seeds are), deleting `0001` leaves the others in order, and the next create hands out the code the last service still holds. |
| DashboardServices.ServicesPage.constructor | src/pages/dashboard/Services.tsx:14-65 | The seed services and an empty form. |
| DashboardServices.ServicesPage.OpenCreateModal | src/pages/dashboard/Services.tsx:67-79 | Create mode with the empty form. |
| DashboardServices.ServicesPage.OpenEditModal | src/pages/dashboard/Services.tsx:81-93 | Edit mode with the service's fields and image. |
| DashboardServices.ServicesPage.CloseModal | src/pages/dashboard/Services.tsx:95-99 | The modal closes. |
| DashboardServices.ServicesPage.SetImagePreview | src/pages/dashboard/Services.tsx:101-110 | The preview becomes the read image, or empty. |
| DashboardServices.ServicesPage.SetField | src/pages/dashboard/Services.tsx:363-409 | One input changes its field. |
| DashboardServices.ServicesPage.AddProductToService | src/pages/dashboard/Services.tsx:112-117 | The rows become `AddRow` of the old rows. |
| DashboardServices.ServicesPage.RemoveProduct | src/pages/dashboard/Services.tsx:119-124 | The rows become `RemoveRow` of the old rows at that index. |
| DashboardServices.ServicesPage.UpdateProductName | src/pages/dashboard/Services.tsx:126-131 | The row at that index is renamed. |
| DashboardServices.ServicesPage.UpdateProductQuantity | src/pages/dashboard/Services.tsx:133-140 | The row at that index gets max(1, q). |
| DashboardServices.ServicesPage.HandleSave | src/pages/dashboard/Services.tsx:142-186 | A blank name or a bad price changes nothing. Otherwise an edit rewrites the current id, a create appends under the padded length plus one, and the modal closes. |
| DashboardServices.ServicesPage.StoreForm | src/pages/dashboard/Services.tsx:153-185 | Stores the edited or created service and closes the modal. |
| DashboardServices.ServicesPage.HandleDelete | src/pages/dashboard/Services.tsx:188-193 | A confirmed delete removes the services with that id. |
| ServiceSlice.FindIndex | src/store/service/serviceSlice.ts:40 | `findIndex` gives the first position holding the id, or −1 exactly when none does. |
| ServiceSlice.ReplaceFirstEffect | src/store/service/serviceSlice.ts:39-44 | An update keeps the length and the ids in order. It stores the payload over the first entry with its id and leaves the others, and changes nothing when the id is absent. |
| ServiceSlice.RemoveServiceEffect | src/store/service/serviceSlice.ts:46-48 | A delete keeps the others in order and leaves no entry with that id. |
| ServiceSlice.ServiceState.constructor | src/store/service/serviceSlice.ts:11-15 | Empty list, not loading, no error. |
| ServiceSlice.ServiceState.FetchPending | src/store/service/serviceSlice.ts:23-25 | Only the loading flag is raised. |
| ServiceSlice.ServiceState.FetchFulfilled | src/store/service/serviceSlice.ts:26-29 | The list is replaced and loading stops; an earlier error stays. |
| ServiceSlice.ServiceState.FetchRejected | src/store/service/serviceSlice.ts:30-33 | Loading stops, the error is set, and the list is kept. |
| ServiceSlice.ServiceState.CreateFulfilled | src/store/service/serviceSlice.ts:35-37 | The created service goes to the front. |
| ServiceSlice.ServiceState.UpdateFulfilled | src/store/service/serviceSlice.ts:39-44 | The list becomes `ReplaceFirst` of the old list, at the same length. |
| ServiceSlice.ServiceState.DeleteFulfilled | src/store/service/serviceSlice.ts:46-48 | The entries with that id are filtered out. |
| ServiceEditor.OpenThenSaveRoundTrip | src/pages/services/services/Services.tsx:78-97 | Turning a service into the form and back into a payload gives back its name, description, image, price, duration, availability and associations. The opened price passes the check iff it is positive. |
| ServiceEditor.RowsRoundTrip | src/pages/services/services/Services.tsx:90-95 | Rows turned into associations and back are the same rows. |
| ServiceEditor.RowEditsEffect | src/pages/services/services/Services.tsx:118-137 | Add appends one empty required row of quantity 1. Update changes only the given field of row `index`. Remove drops only row `index`. |
| ServiceEditor.ServiceEditorPage.constructor | src/pages/services/services/Services.tsx:20-40 | No modal and an empty form. |
| ServiceEditor.ServiceEditorPage.OpenCreateModal | src/pages/services/services/Services.tsx:63-76 | Create mode with the empty form. |
| ServiceEditor.ServiceEditorPage.OpenEditModal | src/pages/services/services/Services.tsx:78-97 | Edit mode with `FormOf` the service and its image. |
| ServiceEditor.ServiceEditorPage.CloseModal | src/pages/services/services/Services.tsx:99-103 | The modal closes. |
| ServiceEditor.ServiceEditorPage.SetImagePreview | src/pages/services/services/Services.tsx:106-115 | The preview becomes the read image. |
| ServiceEditor.ServiceEditorPage.SetField | src/pages/services/services/Services.tsx:275-333 | One input changes its field. |
| ServiceEditor.ServiceEditorPage.AddProductToService | src/pages/services/services/Services.tsx:118-123 | The rows become `AddRow` of the old rows. |
| ServiceEditor.ServiceEditorPage.RemoveProduct | src/pages/services/services/Services.tsx:125-130 | The row at that index is removed. |
| ServiceEditor.ServiceEditorPage.UpdateProduct | src/pages/services/services/Services.tsx:132-137 | One field of the row at that index changes. |
| ServiceEditor.ServiceEditorPage.HandleSave | src/pages/services/services/Services.tsx:139-172 | A blank name or a bad price sends nothing. Otherwise the form's payload goes out as an update of the current service or as a create, and the modal closes. |
| ServiceEditor.ServiceEditorPage.HandleDelete | src/pages/services/services/Services.tsx:175-180 | Only a confirmed delete sends the delete request. |
| Notifications.FilteredNotifications | src/pages/notifications/Notifications.tsx:116-131 | Each tab shows, in order, exactly the notifications it stands for, and the `all` tab shows the whole list. |
| Notifications.TabBadges | src/pages/notifications/Notifications.tsx:290-307 | The unread and action tabs show as many as their counters. The booking, technician and system badges sum to the `all` badge. |
| Notifications.PriorityBadgesDistinct | src/pages/notifications/Notifications.tsx:141-158 | Different priorities never share a class, a label or an icon colour. Only normal has no class; a class is shown exactly for the priorities that need action. |
| Notifications.MarkAllReadEffect | src/pages/notifications/Notifications.tsx:160-163 | Marking all read leaves nothing unread, changes nothing but the status, keeps the action count, is idempotent, and keeps the ids numbered. |
| Notifications.MarkReadEffect | src/pages/notifications/Notifications.tsx:171-177 | With numbered ids, a click marks that notification and no other read, and lowers the unread count by one exactly when it was unread. |
| Notifications.SendEffect | src/pages/notifications/Notifications.tsx:179-200 | The length plus one is an id no notification holds. Prepending under it keeps the ids numbered and adds one unread. |
| Notifications.SeedNotificationsNumbered | src/pages/notifications/Notifications.tsx:24-116 | The eight seed notifications have distinct ids between 1 and 8. |
| Notifications.NotificationsPage.constructor | src/pages/notifications/Notifications.tsx:17-116 | The seeds, the `all` tab, the form closed and empty. |
| Notifications.NotificationsPage.SetActiveFilter | src/pages/notifications/Notifications.tsx:312 | A tab click selects that tab. |
| Notifications.NotificationsPage.SetShowSendForm | src/pages/notifications/Notifications.tsx:233 | The send form opens or closes. |
| Notifications.NotificationsPage.SetFormField | src/pages/notifications/Notifications.tsx:217-222 | One input changes its field. |
| Notifications.NotificationsPage.HandleMarkAllRead | src/pages/notifications/Notifications.tsx:160-163 | Everything becomes read and the unread count is 0. |
| Notifications.NotificationsPage.HandleClearAll | src/pages/notifications/Notifications.tsx:165-169 | Only a confirmed clear empties the list. |
| Notifications.NotificationsPage.HandleNotificationClick | src/pages/notifications/Notifications.tsx:171-177 | Only the clicked notification becomes read, and the unread count drops by one exactly when it was unread. |
| Notifications.NotificationsPage.HandleSendNotification | src/pages/notifications/Notifications.tsx:179-214 | An empty field changes nothing. Otherwise the new unread, normal system notification is put first under the length plus one, and the form is reset and closed. |
| Staff.FilteredStaff | src/pages/staff/Staff.tsx:21-30 | A query that is blank after trimming lists everyone. Otherwise, in order, exactly the members whose lowered name, phone or role includes the trimmed, lowered query. |
| Staff.SearchIgnoresOuterSpace | src/pages/staff/Staff.tsx:22 | Spaces around the query change nothing. |
| Staff.FindStaff | src/pages/staff/Staff.tsx:71 | `find` returns a listed member with that id, and nothing exactly when no member has it. |
| Staff.NextStaffId | src/pages/staff/Staff.tsx:95 | `max(0, ids) + 1` is at least 1 and above every id. |
| Staff.EditStaffEffect | src/pages/staff/Staff.tsx:89-93 | An edit keeps length, ids and the other members, and merges the form into the members with that id. |
| Staff.DeleteStaffEffect | src/pages/staff/Staff.tsx:32-38 | A delete keeps the others in order and drops exactly that id; with distinct ids, one member at most. |
| Staff.SaveKeepsIdsDistinct | src/pages/staff/Staff.tsx:84-105 | Edit, add under the next id, and delete keep ids distinct. |
| Staff.OpenThenSaveIsIdentity | src/pages/staff/Staff.tsx:70-93 | With distinct ids, opening a member and saving the untouched form leaves the list as it was. |
| Staff.SeedStaffIdsDistinct | src/pages/staff/Staff.tsx:15-19 | The seed members have distinct ids. |
| Staff.StaffPage.constructor | src/pages/staff/Staff.tsx:14-48 | The seed members, an empty query and an empty form. |
| Staff.StaffPage.SetQuery | src/pages/staff/Staff.tsx:117 | The search box sets the query. |
| Staff.StaffPage.SetField | src/pages/staff/Staff.tsx:215-256 | One input changes its field. |
| Staff.StaffPage.OpenAdd | src/pages/staff/Staff.tsx:63-68 | Add mode with the empty form. |
| Staff.StaffPage.OpenEdit | src/pages/staff/Staff.tsx:70-77 | An unknown id changes nothing. Otherwise edit mode with the member's fields. |
| Staff.StaffPage.CloseModal | src/pages/staff/Staff.tsx:79-82 | The modal closes and the current member is dropped. |
| Staff.StaffPage.HandleSave | src/pages/staff/Staff.tsx:84-105 | A blank trimmed name changes nothing. Otherwise an edit merges the form into the current member, an add appends under max+1, and the modal closes. |
| Staff.StaffPage.HandleDelete | src/pages/staff/Staff.tsx:32-38 | A confirmed delete removes the one member with that id, if any. |
| Settings.ToggleEffect | src/pages/settings/Settings.tsx:31-33 | A toggle flips exactly that section, leaves the other four alone, and twice is a no-op. |
| Settings.PasswordCheckMeaning | src/pages/settings/Settings.tsx:67-81 | A save goes through iff no password input is filled, or the current one is given and the new one equals its confirmation and has ≥ 6 characters. Missing current is reported first, then mismatch. |
| Settings.SettingsPage.constructor | src/pages/settings/Settings.tsx:6-46 | All sections open but the advanced one, and empty password inputs. |
| Settings.SettingsPage.ToggleSection | src/pages/settings/Settings.tsx:31-33 | Flips only that section. |
| Settings.SettingsPage.SetPasswordField | src/pages/settings/Settings.tsx:247-277 | One password input changes. |
| Settings.SettingsPage.HandleSave | src/pages/settings/Settings.tsx:67-89 | A failed check changes nothing. A success shows the note and clears all three password inputs. |
| Settings.SettingsPage.HideSuccess | src/pages/settings/Settings.tsx:85 | The timer hides the success note. |
| Profile.PasswordCheckMeaning | src/pages/profile/Profile.tsx:36-46 | A change goes through iff the new password has ≥ 8 characters and equals its confirmation. A short password is reported as short whatever the confirmation. |
| Profile.ProfilePage.constructor | src/pages/profile/Profile.tsx:5-15 | The initial account, not editing, no backup. |
| Profile.ProfilePage.SetField | src/pages/profile/Profile.tsx:72-98 | One input changes its field, and the backup is untouched. |
| Profile.ProfilePage.HandleEditToggle | src/pages/profile/Profile.tsx:24-34 | Entering edit mode backs up the whole form. Leaving it restores the backup, so edits made in between are undone. |
| Profile.ProfilePage.CancelEdit | src/pages/profile/Profile.tsx:106-116 | The backup becomes the form and edit mode ends. |
| Profile.ProfilePage.HandleSaveAccount | src/pages/profile/Profile.tsx:17-22 | The edited form is kept, edit mode ends and the backup is dropped. |
| Profile.ProfilePage.HandleSavePassword | src/pages/profile/Profile.tsx:36-49 | A rejected change keeps everything. An accepted one clears only the new password and its confirmation. |
| LoginCheck.CheckMeaning | src/pages/Login.tsx:15-22 | A submit goes ahead iff neither field is blank after trimming. A blank identifier is reported first, and a password of spaces counts as missing. |
| LoginPage.LoginForm.constructor | src/pages/Login.tsx:8-10 | Empty fields and no error. |
| LoginPage.LoginForm.SetIdentifier | src/pages/Login.tsx:40-43 | The input labelled `name` sets the identifier. |
| LoginPage.LoginForm.SetPassword | src/pages/Login.tsx:51-54 | The input labelled `password` sets the password. |
| LoginPage.LoginForm.HandleSubmit | src/pages/Login.tsx:12-25 | The old error is cleared. A blank field sets its own error and stays. Otherwise the page goes to `/dashboard`. It navigates exactly when no error is left. |
| AuthSlice.AuthState.constructor | src/store/auth/authSlice.ts:5-10 | The token is the stored one. The admin is signed in iff that token is present and not empty. Not loading, no error. |
| AuthSlice.AuthState.Logout | src/store/auth/authSlice.ts:16-20 | The token is dropped from the store and from storage, and the admin is signed out. |
| AuthSlice.AuthState.LoginPending | src/store/auth/authSlice.ts:24-27 | Loading starts and the error is cleared. |
| AuthSlice.AuthState.LoginFulfilled | src/store/auth/authSlice.ts:28-33 | The access token is kept and stored, the admin is signed in, and loading stops. |
| AuthSlice.AuthState.LoginRejected | src/store/auth/authSlice.ts:34-37 | Loading stops and the error is set. Token and sign-in are left as they were. |
| AuthLogin.ShownError | src/pages/auth/Login.tsx:59 | The page's own error wins; otherwise the store's error is shown. |
| AuthLogin.AuthLoginForm.constructor | src/pages/auth/Login.tsx:13-15 | Empty fields and no error. |
| AuthLogin.AuthLoginForm.SetIdentifier | src/pages/auth/Login.tsx:48 | The first input sets the identifier. |
| AuthLogin.AuthLoginForm.SetPassword | src/pages/auth/Login.tsx:55 | The second input sets the password. |
| AuthLogin.AuthLoginForm.HandleSubmit | src/pages/auth/Login.tsx:17-35 | A blank field sets the page's error, sends nothing and leaves the store alone. Otherwise the untrimmed fields are sent and the store goes through pending. A fulfilled login signs in and moves to `/dashboard`; a rejected one records the error and stays. |
| CategorySlice.CategoryState.constructor | src/store/category/categorySlice.ts:11-15 | Empty list, not loading, no error. |
| CategorySlice.CategoryState.FetchPending | src/store/category/categorySlice.ts:24-26 | Only the loading flag is raised. |
| CategorySlice.CategoryState.FetchFulfilled | src/store/category/categorySlice.ts:27-30 | The list is replaced and loading stops; an earlier error is not cleared. |
| CategorySlice.CategoryState.FetchRejected | src/store/category/categorySlice.ts:31-34 | Loading stops, the error is set, and the list is kept. |

## Left out

- Money is exact `real` arithmetic. IEEE double rounding, `toFixed` display and `parseFloat`/`Number` parsing are not modelled. A price input is either blank or a parsed number, so `NaN` cannot arise.
- `FileReader` image upload is left out. The preview is the string the reader would produce, passed to `SetImagePreview`.
- `alert` and `console.log` are dropped. `confirm` answers are boolean parameters. Where a handler returns after an alert, the model returns with the state unchanged; the settings and profile checks return which alert would show.
- `Date.now()` line-item ids and `new Date()` default dates are method parameters of the invoice page.
- The light/dark theme toggles of the staff and settings pages, and their `localStorage` and `document` writes, are left out. They change no state the other handlers read.
- The settings page's plain inputs (garage, invoice, notification and advanced fields) are left out. Their handlers only store what was typed, and no handler reads them.
- The HTTP clients and async thunks (`*Service.ts`, `*Thunk.ts`) are left out. A login's outcome is an input of `AuthLogin.AuthLoginForm.HandleSubmit`. The service editor's requests are returned as `Request` values.
- The product list that `src/pages/services/services/Services.tsx` loads for its product picker is left out. It only fills a dropdown.
- Text is a sequence of code points. `toLowerCase` is modelled for ASCII letters only, and string lengths count code points, not UTF-16 units. The two count differently only outside the Basic Multilingual Plane.
- The modal overlays' and close buttons' plain `setShow…(false)` calls are modelled where a handler exists. Bare dialog open buttons that only set one flag are left out of the three package composers and the two product editors.
- ServiceEditor.ServiceEditorPage.UpdateProduct: the quantity input's `Number(text) \|\| 1` is taken as an already parsed integer. Negative quantities pass through, as in the source.
- Staff.FilteredStaff: lower-casing covers ASCII letters only, so a query in another cased script may match fewer members than the source's.
