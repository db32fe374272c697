/** The category service (lib/services/category-service.ts): reading
    category documents into `Category` records, creating, updating and
    deleting them. */
module CategoryService {
  import opened Js
  import opened Wrappers
  import opened Types
  import opened Seqs
  import opened Firebase

  /** What `createCategory` accepts (CreateCategoryData; its declaration is
      not part of lib/types.ts, so the fields are the ones `createCategory`
      reads). */
  datatype CreateCategoryData = CreateCategoryData(
    name: string,
    description: Option<string>,
    iconUrl: Option<string>,
    order: Option<Number>)

  /** What `updateCategory` accepts (`Partial<CreateCategoryData>`): each
      field left out (None) or supplied; an optional text supplied as
      `undefined` is Absent, which the store refuses. */
  datatype CategoryPatch = CategoryPatch(
    name: Option<string>,
    description: Option<Field<string>>,
    iconUrl: Option<Field<string>>,
    order: Option<Number>)

  // ---------------------------------------------------------------------------
  // Reading

  /** The record a read builds: a falsy order reads as 0, a missing creation
      time as `now`; name, description and icon pass through. */
  function NormalizeCategory(entry: (string, CategoryDoc), now: int): Category {
    var d := entry.1;
    Category(entry.0, d.name, d.description, d.iconUrl, FieldOrZero(d.order),
             if d.createdAt.Val? then d.createdAt.value else now)
  }

  function NormalizeCategories(snap: seq<(string, CategoryDoc)>, now: int): seq<Category> {
    Map((e: (string, CategoryDoc)) => NormalizeCategory(e, now), snap)
  }

  /** `getDocs(query(categories, orderBy('order', 'asc')))`. */
  ghost predicate IsAllCategoriesAnswer(store: map<string, CategoryDoc>, snap: seq<(string, CategoryDoc)>) {
    IsAnswer(store, snap, HasOrder, CategoryBefore)
  }

  predicate HasIntOrder(d: CategoryDoc) {
    d.order.Val? && d.order.value.Int?
  }

  /** `getAllCategories`: every category with an order, lowest order first. */
  method GetAllCategories(db: Backend, snapshot: seq<(string, CategoryDoc)>, now: int, fails: bool)
    returns (r: Result<seq<Category>, Error>)
    requires IsAllCategoriesAnswer(db.categories, snapshot)
    ensures r.Ok? <==> !fails
    ensures r.Ok? ==> r.value == NormalizeCategories(snapshot, now)
    ensures r.Ok? ==> ((set c | c in r.value :: c.id)
                       == (set id | id in db.categories && HasOrder(db.categories[id])))
    ensures r.Ok? ==> forall i, j :: (0 <= i < j < |r.value| && HasIntOrder(snapshot[i].1)
                                      && HasIntOrder(snapshot[j].1)) ==>
                        r.value[i].order <= r.value[j].order
  {
    if fails { return Err(Unavailable); }
    var cats := NormalizeCategories(snapshot, now);
    ListedCategoryIds(db.categories, snapshot, now);
    forall i, j | 0 <= i < j < |cats| && HasIntOrder(snapshot[i].1) && HasIntOrder(snapshot[j].1)
      ensures cats[i].order <= cats[j].order
    {
      IntOrdersInOrder(snapshot, i, j, now);
    }
    r := Ok(cats);
  }

  /** The listing names exactly the categories that have an order. */
  lemma ListedCategoryIds(store: map<string, CategoryDoc>, snap: seq<(string, CategoryDoc)>, now: int)
    requires IsAllCategoriesAnswer(store, snap)
    ensures (set c | c in NormalizeCategories(snap, now) :: c.id)
         == (set id | id in store && HasOrder(store[id]))
  {
    var cats := NormalizeCategories(snap, now);
    forall id | id in store && HasOrder(store[id]) ensures id in (set c | c in cats :: c.id) {
      var i :| 0 <= i < |snap| && snap[i] == (id, store[id]);
      assert cats[i].id == id;
    }
    forall c | c in cats ensures c.id in store && HasOrder(store[c.id]) {
      var i :| 0 <= i < |cats| && cats[i] == c;
      assert c.id == snap[i].0;
    }
  }

  /** Two listed entries with integer orders read back in ascending order. */
  lemma IntOrdersInOrder(snap: seq<(string, CategoryDoc)>, i: int, j: int, now: int)
    requires SortedBy(snap, CategoryBefore)
    requires 0 <= i < j < |snap| && HasIntOrder(snap[i].1) && HasIntOrder(snap[j].1)
    ensures NormalizeCategories(snap, now)[i].order <= NormalizeCategories(snap, now)[j].order
  {
    assert CategoryBefore(snap[i], snap[j]);
    assert NormalizeCategories(snap, now)[i] == NormalizeCategory(snap[i], now);
    assert NormalizeCategories(snap, now)[j] == NormalizeCategory(snap[j], now);
  }

  /** Every stored order is an integer (no null, no NaN). */
  ghost predicate IntegerOrders(store: map<string, CategoryDoc>) {
    forall id :: id in store ==> HasIntOrder(store[id])
  }

  /** When every stored order is an integer, the listing reads back in
      ascending order of the orders it shows. */
  lemma IntegerOrdersListAscending(store: map<string, CategoryDoc>, snap: seq<(string, CategoryDoc)>, now: int)
    requires IsAllCategoriesAnswer(store, snap)
    requires IntegerOrders(store)
    ensures forall i, j :: 0 <= i < j < |snap| ==>
              NormalizeCategories(snap, now)[i].order <= NormalizeCategories(snap, now)[j].order
  {
    forall i, j | 0 <= i < j < |snap|
      ensures NormalizeCategories(snap, now)[i].order <= NormalizeCategories(snap, now)[j].order
    {
      assert snap[i].0 in store && snap[j].0 in store;
      IntOrdersInOrder(snap, i, j, now);
    }
  }

  /** A stored NaN order sorts before every number but reads back as 0, so a
      NaN-ordered category is listed ahead of one with order -1 while showing
      the larger order. */
  lemma NaNOrderBreaksAscending(now: int)
    ensures var a := CategoryDoc("A", Null, Null, Val(NaN), Val(now));
            var b := CategoryDoc("B", Null, Null, Val(Int(-1)), Val(now));
            var snap := [("a", a), ("b", b)];
      && IsAllCategoriesAnswer(map["a" := a, "b" := b], snap)
      && NormalizeCategories(snap, now)[0].order > NormalizeCategories(snap, now)[1].order
  {
    var a := CategoryDoc("A", Null, Null, Val(NaN), Val(now));
    var b := CategoryDoc("B", Null, Null, Val(Int(-1)), Val(now));
    var snap := [("a", a), ("b", b)];
    var store := map["a" := a, "b" := b];
    assert CategoryBefore(snap[0], snap[1]);
    forall id | id in store && HasOrder(store[id]) ensures (id, store[id]) in snap {
      if id == "a" { assert snap[0] == (id, store[id]); } else { assert snap[1] == (id, store[id]); }
    }
  }

  /** `getCategoryById`: the normalised category, or null for an unknown id. */
  method GetCategoryById(db: Backend, id: string, now: int, fails: bool)
    returns (r: Result<Option<Category>, Error>)
    ensures r == Err(Unavailable) <==> fails
    ensures r.Ok? <==> !fails
    ensures r.Ok? ==> (r.value.None? <==> id !in db.categories)
    ensures r.Ok? && id in db.categories ==> r.value.value == NormalizeCategory((id, db.categories[id]), now)
  {
    var doc := db.GetCategoryDoc(id, fails);
    if doc.Err? { return Err(doc.error); }
    if doc.value.None? { return Ok(None); }
    r := Ok(Some(NormalizeCategory((id, doc.value.value), now)));
  }

  // ---------------------------------------------------------------------------
  // Writing

  /** The document `createCategory` writes: falsy description or icon become
      null, a missing or falsy order becomes 0; the name is not checked. */
  function NewCategoryDoc(data: CreateCategoryData, now: int): CategoryDoc {
    CategoryDoc(data.name, OptionOrNull(data.description), OptionOrNull(data.iconUrl),
                Val(Int(if data.order.Some? then OrZero(data.order.value) else 0)), Val(now))
  }

  /** `createCategory`: adds the new document under a fresh id. */
  method CreateCategory(db: Backend, data: CreateCategoryData, now: int, newId: string, fails: bool)
    returns (r: Result<string, Error>)
    requires newId !in db.categories
    modifies db
    ensures r == if fails then Err(Unavailable) else Ok(newId)
    ensures db.categories == if fails then old(db.categories) else old(db.categories)[newId := NewCategoryDoc(data, now)]
    ensures db.songs == old(db.songs) && db.blobs == old(db.blobs)
  {
    r := db.AddCategoryDoc(newId, NewCategoryDoc(data, now), fails);
  }

  /** A created category always has an integer order, so creating keeps
      `IntegerOrders`; it reads back with the given name, order (0 when
      absent or NaN), creation time, and description and icon (null when
      absent or empty). */
  lemma CreatedCategoryReadsBack(store: map<string, CategoryDoc>, id: string, data: CreateCategoryData, now: int, later: int)
    requires IntegerOrders(store)
    ensures IntegerOrders(store[id := NewCategoryDoc(data, now)])
    ensures var c := NormalizeCategory((id, NewCategoryDoc(data, now)), later);
      && c.name == data.name && c.createdAt == now
      && (data.order.None? || data.order.value == NaN ==> c.order == 0)
      && (data.order.Some? && data.order.value.Int? ==> c.order == data.order.value.i)
      && (c.description == Null <==> (data.description.None? || data.description.value == ""))
      && (data.description.Some? && data.description.value != "" ==> c.description == Val(data.description.value))
      && (c.iconUrl == Null <==> (data.iconUrl.None? || data.iconUrl.value == ""))
      && (data.iconUrl.Some? && data.iconUrl.value != "" ==> c.iconUrl == Val(data.iconUrl.value))
  {
  }

  /** No supplied field is `undefined`. */
  predicate PatchDefined(p: CategoryPatch) {
    (p.description.None? || !p.description.value.Absent?)
    && (p.iconUrl.None? || !p.iconUrl.value.Absent?)
  }

  /** The document after `updateDoc(ref, patch)`: the patch is written as
      given (no `|| null`, no `|| 0`) and nothing else changes. */
  function ApplyCategoryPatch(d: CategoryDoc, p: CategoryPatch): CategoryDoc {
    CategoryDoc(
      p.name.GetOr(d.name),
      p.description.GetOr(d.description),
      p.iconUrl.GetOr(d.iconUrl),
      Overwrite(p.order, d.order),
      d.createdAt)
  }

  /** `updateCategory`: merges the patch into an existing document. */
  method UpdateCategory(db: Backend, id: string, p: CategoryPatch, fails: bool)
    returns (r: Result<(), Error>)
    modifies db
    ensures r == if !PatchDefined(p) then Err(InvalidArgument)
                 else if fails then Err(Unavailable)
                 else if id !in old(db.categories) then Err(NotFound)
                 else Ok(())
    ensures db.categories == if r.Ok? then old(db.categories)[id := ApplyCategoryPatch(old(db.categories)[id], p)]
                             else old(db.categories)
    ensures db.songs == old(db.songs) && db.blobs == old(db.blobs)
  {
    if !PatchDefined(p) { return Err(InvalidArgument); }
    if fails { return Err(Unavailable); }
    if id !in db.categories { return Err(NotFound); }
    db.categories := db.categories[id := ApplyCategoryPatch(db.categories[id], p)];
    r := Ok(());
  }

  /** An update keeps the creation time and every field it was not given,
      is idempotent, and keeps `IntegerOrders` exactly when the order it
      writes (if any) is an integer. */
  lemma UpdateTouchesOnlySupplied(store: map<string, CategoryDoc>, id: string, p: CategoryPatch)
    requires id in store && IntegerOrders(store)
    ensures var u := ApplyCategoryPatch(store[id], p);
      && u.createdAt == store[id].createdAt
      && (p.name.None? ==> u.name == store[id].name)
      && (p.description.None? ==> u.description == store[id].description)
      && (p.iconUrl.None? ==> u.iconUrl == store[id].iconUrl)
      && (p.order.None? ==> u.order == store[id].order)
      && ApplyCategoryPatch(u, p) == u
      && (IntegerOrders(store[id := u]) <==> (p.order.None? || p.order.value.Int?))
  {
    var u := ApplyCategoryPatch(store[id], p);
    if p.order.Some? && p.order.value.NaN? {
      assert id in store[id := u] && store[id := u][id].order == Val(NaN);
    }
  }

  /** `deleteCategory`: removes the document (succeeding also when it does
      not exist). Songs that name the category keep its id. */
  method DeleteCategory(db: Backend, id: string, fails: bool)
    returns (r: Result<(), Error>)
    modifies db
    ensures r == if fails then Err(Unavailable) else Ok(())
    ensures db.categories == if fails then old(db.categories) else old(db.categories) - {id}
    ensures db.songs == old(db.songs) && db.blobs == old(db.blobs)
  {
    r := db.DeleteCategoryDoc(id, fails);
  }
}
