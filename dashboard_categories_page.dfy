/** The dashboard's category manager (app/dashboard/categories/page.tsx):
    a list loaded through the category service and one modal form used both
    to create and to edit a category. */
module DashboardCategoriesPage {
  import opened Js
  import opened Wrappers
  import opened Types
  import opened Seqs
  import opened Firebase
  import opened CategoryService

  /** The modal's fields. `order` holds whatever the order input produced,
      which can be NaN. */
  datatype CategoryForm = CategoryForm(name: string, description: string, order: Number)

  const EmptyForm: CategoryForm := CategoryForm("", "", Int(0))

  /** `updateCategory(id, formData)`: all three fields, as they are. */
  function FormPatch(form: CategoryForm): CategoryPatch {
    CategoryPatch(Some(form.name), Some(Val(form.description)), None, Some(form.order))
  }

  /** `createCategory(formData)`. */
  function FormData(form: CategoryForm): CreateCategoryData {
    CreateCategoryData(form.name, Some(form.description), None, Some(form.order))
  }

  /** The categories after the save: an edit of an existing category
      merges the form into it, a create adds it under `newId`. */
  function SavedCategories(store: map<string, CategoryDoc>, editing: Option<Category>, form: CategoryForm,
                           now: int, newId: string, writeFails: bool): map<string, CategoryDoc>
  {
    if writeFails then store
    else if editing.Some? then
      (if editing.value.id in store then store[editing.value.id := ApplyCategoryPatch(store[editing.value.id], FormPatch(form))]
       else store)
    else store[newId := NewCategoryDoc(FormData(form), now)]
  }

  /** Whether the save succeeds. */
  predicate Saved(store: map<string, CategoryDoc>, editing: Option<Category>, writeFails: bool) {
    !writeFails && (editing.None? || editing.value.id in store)
  }

  /** The category id `x` is not `id`. */
  function NotId(id: string): Category -> bool {
    (c: Category) => c.id != id
  }

  class Page {
    var categories: seq<Category>
    var loading: bool
    var showModal: bool
    var editingCategory: Option<Category>
    var formData: CategoryForm
    var saving: bool

    constructor()
      ensures categories == [] && loading && !showModal && editingCategory == None
      ensures formData == EmptyForm && !saving
    {
      categories := [];
      loading := true;
      showModal := false;
      editingCategory := None;
      formData := EmptyForm;
      saving := false;
    }

    /** `loadCategories`: a failure keeps the list; loading ends either way. */
    method LoadCategories(db: Backend, snapshot: seq<(string, CategoryDoc)>, now: int, fails: bool)
      requires IsAllCategoriesAnswer(db.categories, snapshot)
      modifies this
      ensures categories == if fails then old(categories) else NormalizeCategories(snapshot, now)
      ensures !loading
      ensures showModal == old(showModal) && editingCategory == old(editingCategory)
      ensures formData == old(formData) && saving == old(saving)
    {
      var r := GetAllCategories(db, snapshot, now, fails);
      if r.Ok? {
        categories := r.value;
      }
      loading := false;
    }

    /** `handleOpenModal`: for an edit the form starts from the category
        (a missing description as ""), for a create it is empty with the
        next order, the number of listed categories. */
    method HandleOpenModal(category: Option<Category>)
      modifies this
      ensures showModal && editingCategory == category
      ensures formData == if category.Some?
                          then CategoryForm(category.value.name,
                                            if Truthy(category.value.description) then category.value.description.value else "",
                                            Int(category.value.order))
                          else CategoryForm("", "", Int(|categories|))
      ensures categories == old(categories) && loading == old(loading) && saving == old(saving)
    {
      editingCategory := category;
      if category.Some? {
        formData := CategoryForm(category.value.name,
                                 if Truthy(category.value.description) then category.value.description.value else "",
                                 Int(category.value.order));
      } else {
        formData := CategoryForm("", "", Int(|categories|));
      }
      showModal := true;
    }

    method HandleCloseModal()
      modifies this
      ensures !showModal && editingCategory == None && formData == EmptyForm
      ensures categories == old(categories) && loading == old(loading) && saving == old(saving)
    {
      showModal := false;
      editingCategory := None;
      formData := EmptyForm;
    }

    /** The order input as written: `parseInt(value)` with no fallback, so
        clearing the field puts NaN in the form. */
    method HandleOrderInput(text: string)
      modifies this
      ensures formData == old(formData).(order := ParseInt(text))
      ensures categories == old(categories) && loading == old(loading) && showModal == old(showModal)
      ensures editingCategory == old(editingCategory) && saving == old(saving)
    {
      formData := formData.(order := ParseInt(text));
    }

    /** The order input with the `|| 0` fallback the create page uses: the
        form's order is always an integer. */
    method HandleOrderInputOrZero(text: string)
      modifies this
      ensures formData == old(formData).(order := Int(OrZero(ParseInt(text))))
      ensures formData.order.Int?
      ensures categories == old(categories) && loading == old(loading) && showModal == old(showModal)
      ensures editingCategory == old(editingCategory) && saving == old(saving)
    {
      formData := formData.(order := Int(OrZero(ParseInt(text))));
    }

    /** `handleSubmit`: updates the category being edited or creates a new
        one; after a successful save it reloads the list (from `reloaded`, the
        answer over the saved categories) and closes the modal. A failed save
        leaves the modal open with its form. `saving` is set during the save
        and cleared after. */
    method HandleSubmit(db: Backend, now: int, newId: string, writeFails: bool,
                        reloaded: seq<(string, CategoryDoc)>, reloadFails: bool)
      returns (r: Result<(), Error>, ghost savingDuringWrite: bool)
      requires newId !in db.categories
      requires IsAllCategoriesAnswer(SavedCategories(db.categories, editingCategory, formData, now, newId, writeFails), reloaded)
      modifies this, db
      ensures db.categories == SavedCategories(old(db.categories), old(editingCategory), old(formData), now, newId, writeFails)
      ensures r.Ok? <==> Saved(old(db.categories), old(editingCategory), writeFails)
      ensures savingDuringWrite && !saving
      ensures r.Ok? ==> !showModal && editingCategory == None && formData == EmptyForm
      ensures r.Ok? ==> categories == if reloadFails then old(categories) else NormalizeCategories(reloaded, now)
      ensures r.Ok? ==> !loading
      ensures r.Err? ==> showModal == old(showModal) && editingCategory == old(editingCategory)
                         && formData == old(formData) && categories == old(categories)
                         && loading == old(loading)
      ensures db.songs == old(db.songs) && db.blobs == old(db.blobs)
    {
      saving := true;
      savingDuringWrite := saving;
      if editingCategory.Some? {
        r := UpdateCategory(db, editingCategory.value.id, FormPatch(formData), writeFails);
      } else {
        var created := CreateCategory(db, FormData(formData), now, newId, writeFails);
        r := if created.Ok? then Ok(()) else Err(created.error);
      }
      if r.Ok? {
        LoadCategories(db, reloaded, now, reloadFails);
        HandleCloseModal();
      }
      saving := false;
    }

    /** `handleDelete`: nothing happens unless confirmed; a successful
        delete drops the category from the list, a failed one keeps it. */
    method HandleDelete(db: Backend, id: string, confirmed: bool, fails: bool)
      returns (r: Option<Result<(), Error>>)
      modifies this, db
      ensures r.None? <==> !confirmed
      ensures db.categories == if confirmed && !fails then old(db.categories) - {id} else old(db.categories)
      ensures categories == if confirmed && !fails then Filter(NotId(id), old(categories)) else old(categories)
      ensures forall c :: c in categories ==> c.id != id || !confirmed || fails
      ensures db.songs == old(db.songs) && db.blobs == old(db.blobs)
      ensures loading == old(loading) && showModal == old(showModal) && editingCategory == old(editingCategory)
      ensures formData == old(formData) && saving == old(saving)
    {
      if !confirmed { return None; }
      var deleted := DeleteCategory(db, id, fails);
      if deleted.Ok? {
        categories := Filter(NotId(id), categories);
      }
      r := Some(deleted);
    }
  }

  /** An empty description is written as "" by an edit but as null by a
      create. */
  lemma EmptyDescriptionDependsOnPath(d: CategoryDoc, form: CategoryForm, now: int)
    requires form.description == ""
    ensures ApplyCategoryPatch(d, FormPatch(form)).description == Val("")
    ensures NewCategoryDoc(FormData(form), now).description == Null
  {
  }

  /** Clearing the order input while editing stores NaN: the input yields
      NaN, and the update writes it unchanged. */
  lemma ClearedOrderInputStoresNaN(d: CategoryDoc, form: CategoryForm)
    ensures ParseInt("") == NaN
    ensures ApplyCategoryPatch(d, FormPatch(form.(order := ParseInt("")))).order == Val(NaN)
  {
  }

  /** With the `|| 0` fallback every save keeps all stored orders integers,
      so by `IntegerOrdersListAscending` the list reads back ascending. */
  lemma IntegerFormOrderKeepsIntegerOrders(store: map<string, CategoryDoc>, editing: Option<Category>,
                                           form: CategoryForm, now: int, newId: string, writeFails: bool)
    requires IntegerOrders(store) && form.order.Int?
    ensures IntegerOrders(SavedCategories(store, editing, form, now, newId, writeFails))
  {
  }
}
