/** Creating a category (app/categories/new/page.tsx): the page trims the
    name and the description and writes the document itself. */
module CategoriesNewPage {
  import opened Js
  import opened Wrappers
  import opened Types
  import opened Firebase

  datatype NewCategoryForm = NewCategoryForm(name: string, description: string, order: int)

  datatype Outcome = Refused | Failed(error: Error) | Created(id: string)

  /** `parseInt(value) || 0`: text that does not start with a number gives 0. */
  function OrderFromInput(text: string): int {
    OrZero(ParseInt(text))
  }

  /** Typing the decimal form of a number sets exactly that order; text with
      no leading number sets 0. */
  lemma OrderInputReadsNumbers(n: int, junk: string)
    requires StartsWithoutNumber(junk)
    ensures OrderFromInput(IntToString(n)) == n
    ensures OrderFromInput(junk) == 0
  {
    ParseIntOfIntToString(n);
    ParseIntOfNonNumber(junk);
  }

  /** The document `handleSubmit` writes. */
  function PageCategoryDoc(form: NewCategoryForm, serverNow: int): CategoryDoc {
    CategoryDoc(Trim(form.name), OrNull(Val(Trim(form.description))), Null, Val(Int(form.order)), Val(serverNow))
  }

  class Page {
    var formData: NewCategoryForm
    var loading: bool

    constructor()
      ensures formData == NewCategoryForm("", "", 0) && !loading
    {
      formData := NewCategoryForm("", "", 0);
      loading := false;
    }

    method HandleOrderInput(text: string)
      modifies this
      ensures formData == old(formData).(order := OrderFromInput(text)) && loading == old(loading)
    {
      formData := formData.(order := OrderFromInput(text));
    }

    /** `handleSubmit`: refuses a blank name; otherwise adds the document
        with the trimmed name, the trimmed description or null, no icon and
        the order as entered. */
    method HandleSubmit(db: Backend, serverNow: int, newId: string, fails: bool)
      returns (outcome: Outcome, ghost loadingDuringWrite: bool)
      requires newId !in db.categories
      modifies this, db
      ensures outcome.Refused? <==> Trim(old(formData).name) == ""
      ensures outcome.Failed? <==> !outcome.Refused? && fails
      ensures outcome.Created? ==> outcome.id == newId
      ensures db.categories == if outcome.Created? then old(db.categories)[newId := PageCategoryDoc(old(formData), serverNow)]
                               else old(db.categories)
      ensures !outcome.Refused? ==> loadingDuringWrite && !loading
      ensures outcome.Refused? ==> loading == old(loading)
      ensures db.songs == old(db.songs) && db.blobs == old(db.blobs) && formData == old(formData)
    {
      loadingDuringWrite := false;
      if Trim(formData.name) == "" {
        return Refused, loadingDuringWrite;
      }
      loading := true;
      loadingDuringWrite := loading;
      var added := db.AddCategoryDoc(newId, PageCategoryDoc(formData, serverNow), fails);
      outcome := if added.Ok? then Created(added.value) else Failed(added.error);
      loading := false;
    }
  }

  /** A stored name is never blank and trimming it again changes nothing;
      a blank description is stored as null. */
  lemma StoredCategoryIsTrimmed(form: NewCategoryForm, serverNow: int)
    requires Trim(form.name) != ""
    ensures PageCategoryDoc(form, serverNow).name != ""
    ensures Trim(PageCategoryDoc(form, serverNow).name) == PageCategoryDoc(form, serverNow).name
    ensures PageCategoryDoc(form, serverNow).description == Null <==> AllWhiteSpace(form.description)
  {
    var d := PageCategoryDoc(form, serverNow);
    assert d.name == Trim(form.name);
    TrimIdempotent(form.name);
    var t := Trim(form.description);
    assert d.description == OrNull(Val(t));
    TrimEmptyIff(form.description);
  }
}
