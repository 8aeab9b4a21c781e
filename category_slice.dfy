/**
 * The category store (`src/store/category/categorySlice.ts` with the record
 * of `src/store/category/categoryTypes.ts`): the list of categories loaded
 * by the fetch request, its loading flag and its error.
 */
module CategorySlice {
  import opened Wrappers

  datatype Category = Category(categoryId: int, name: string, description: string)

  class CategoryState {
    var list: seq<Category>
    var loading: bool
    var error: Option<string>

    constructor()
      ensures list == [] && !loading && error == None
    {
      list := [];
      loading := false;
      error := None;
    }

    /** `fetchCategories.pending`: only the loading flag is raised; an earlier error stays. */
    method FetchPending()
      modifies this
      ensures loading && list == old(list) && error == old(error)
    {
      loading := true;
    }

    /** `fetchCategories.fulfilled`: the list is replaced; an earlier error is not cleared. */
    method FetchFulfilled(payload: seq<Category>)
      modifies this
      ensures !loading && list == payload && error == old(error)
    {
      loading := false;
      list := payload;
    }

    /** `fetchCategories.rejected`: the error is kept and the list is left as it was. */
    method FetchRejected(message: string)
      modifies this
      ensures !loading && error == Some(message) && list == old(list)
    {
      loading := false;
      error := Some(message);
    }
  }
}
