/** The category list (app/categories/page.tsx). It reads the store
    directly, keeps the raw documents, and deletes a category without
    touching the songs that name it. */
module CategoriesPage {
  import opened Wrappers
  import opened Types
  import opened Seqs
  import opened Firebase
  import opened CategoryService

  function NotId(id: string): ((string, CategoryDoc)) -> bool {
    (e: (string, CategoryDoc)) => e.0 != id
  }

  class Page {
    var categories: seq<(string, CategoryDoc)>
    var loading: bool

    constructor()
      ensures categories == [] && loading
    {
      categories := [];
      loading := true;
    }

    /** `fetchCategories`: the categories with an order, lowest first. */
    method FetchCategories(db: Backend, snapshot: seq<(string, CategoryDoc)>, fails: bool)
      requires IsAllCategoriesAnswer(db.categories, snapshot)
      modifies this
      ensures categories == if fails then old(categories) else snapshot
      ensures !loading
    {
      if !fails {
        categories := snapshot;
      }
      loading := false;
    }

    /** `handleDelete`: after confirmation deletes the document; the row goes
        away only when that succeeded. Songs keep the deleted id. */
    method HandleDelete(db: Backend, id: string, confirmed: bool, fails: bool)
      returns (r: Option<Result<(), Error>>)
      modifies this, db
      ensures r.None? <==> !confirmed
      ensures r.Some? ==> r.value == if fails then Err(Unavailable) else Ok(())
      ensures db.categories == if confirmed && !fails then old(db.categories) - {id} else old(db.categories)
      ensures db.songs == old(db.songs) && db.blobs == old(db.blobs)
      ensures categories == if confirmed && !fails then Filter(NotId(id), old(categories)) else old(categories)
      ensures loading == old(loading)
    {
      if !confirmed { return None; }
      var deleted := db.DeleteCategoryDoc(id, fails);
      if deleted.Ok? {
        categories := Filter(NotId(id), categories);
      }
      r := Some(deleted);
    }
  }
}
