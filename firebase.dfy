/** The managed backend as the catalog code sees it: two document
    collections and a blob store, held as maps, with the calls the code makes
    on them. Each remote call takes a flag saying whether it fails (the
    network, permissions, a server error); what a call does when it
    succeeds is fixed. Queries are answered by snapshots whose contents and
    order the predicates below pin down. */
module Firebase {
  import opened Js
  import opened Wrappers
  import opened Types
  import opened Seqs

  /** Why a backend call rejected. */
  datatype Error =
    | Unavailable       // the call did not go through
    | NotFound          // updateDoc on a document that does not exist
    | InvalidArgument   // a document field set to `undefined`
    | ObjectNotFound    // deleteObject or getDownloadURL on a missing object
    | InvalidUrl        // ref() on a URL that is not a storage location

  // ---------------------------------------------------------------------------
  // Document order

  /** Document ids compare character by character; a proper prefix comes first. */
  predicate IdLess(a: string, b: string)
    decreases |a|
  {
    if a == [] then b != []
    else if b == [] then false
    else if a[0] == b[0] then IdLess(a[1..], b[1..])
    else a[0] < b[0]
  }

  lemma {:induction false} IdLessIrreflexive(a: string)
    ensures !IdLess(a, a)
    decreases |a|
  {
    if a != [] { IdLessIrreflexive(a[1..]); }
  }

  lemma {:induction false} IdLessTransitive(a: string, b: string, c: string)
    requires IdLess(a, b) && IdLess(b, c)
    ensures IdLess(a, c)
    decreases |a|
  {
    if a != [] && a[0] == b[0] && b[0] == c[0] {
      IdLessTransitive(a[1..], b[1..], c[1..]);
    }
  }

  /** For `orderBy('createdAt', 'desc')`: `a` sorts strictly ahead of `b`.
      A null timestamp sorts below every timestamp. */
  predicate CreatedAhead(a: Field<int>, b: Field<int>) {
    a.Val? && (b.Null? || (b.Val? && a.value > b.value))
  }

  /** Newest first; equal timestamps in descending id order. */
  predicate SongBefore(x: (string, SongDoc), y: (string, SongDoc)) {
    CreatedAhead(x.1.createdAt, y.1.createdAt)
    || (x.1.createdAt == y.1.createdAt && IdLess(y.0, x.0))
  }

  lemma SongOrderIsStrict()
    ensures StrictOrder(SongBefore)
  {
    forall x ensures !SongBefore(x, x) { IdLessIrreflexive(x.0); }
    forall x, y, z | SongBefore(x, y) && SongBefore(y, z) ensures SongBefore(x, z) {
      if IdLess(y.0, x.0) && IdLess(z.0, y.0) { IdLessTransitive(z.0, y.0, x.0); }
    }
  }

  /** For `orderBy('order', 'asc')`: `a` sorts strictly below `b`. Null sorts
      below NaN, and NaN below every other number. */
  predicate OrderBelow(a: Field<Number>, b: Field<Number>) {
    (a.Null? && b.Val?)
    || (a.Val? && a.value.NaN? && b.Val? && b.value.Int?)
    || (a.Val? && a.value.Int? && b.Val? && b.value.Int? && a.value.i < b.value.i)
  }

  /** Lowest order first; equal orders in ascending id order. */
  predicate CategoryBefore(x: (string, CategoryDoc), y: (string, CategoryDoc)) {
    OrderBelow(x.1.order, y.1.order)
    || (x.1.order == y.1.order && IdLess(x.0, y.0))
  }

  lemma CategoryOrderIsStrict()
    ensures StrictOrder(CategoryBefore)
  {
    forall x ensures !CategoryBefore(x, x) { IdLessIrreflexive(x.0); }
    forall x, y, z | CategoryBefore(x, y) && CategoryBefore(y, z) ensures CategoryBefore(x, z) {
      if IdLess(x.0, y.0) && IdLess(y.0, z.0) { IdLessTransitive(x.0, y.0, z.0); }
    }
  }

  /** Documents a `createdAt` ordering can return: those that have the field. */
  predicate HasCreatedAt(d: SongDoc) {
    !d.createdAt.Absent?
  }

  /** Documents an `order` ordering can return: those that have the field. */
  predicate HasOrder(d: CategoryDoc) {
    !d.order.Absent?
  }

  /** `where('categoryIds', 'array-contains', c)`. */
  predicate InCategory(d: SongDoc, c: string) {
    d.categoryIds.Val? && c in d.categoryIds.value
  }

  // ---------------------------------------------------------------------------
  // Query answers

  /** `snap` lists exactly the stored documents that `matches` admits, in
      `before` order. */
  ghost predicate IsAnswer<D>(store: map<string, D>, snap: seq<(string, D)>,
                              matches: D -> bool, before: ((string, D), (string, D)) -> bool)
  {
    (forall i :: 0 <= i < |snap| ==>
       snap[i].0 in store && store[snap[i].0] == snap[i].1 && matches(snap[i].1))
    && (forall id :: id in store && matches(store[id]) ==> (id, store[id]) in snap)
    && SortedBy(snap, before)
  }

  /** `snap` is the first `limit` entries of the ordered answer. */
  ghost predicate IsLimitedAnswer<D>(store: map<string, D>, snap: seq<(string, D)>,
                                     matches: D -> bool, before: ((string, D), (string, D)) -> bool,
                                     limit: nat)
  {
    (forall i :: 0 <= i < |snap| ==>
       snap[i].0 in store && store[snap[i].0] == snap[i].1 && matches(snap[i].1))
    && SortedBy(snap, before)
    && |snap| <= limit
    && (forall id :: id in store && matches(store[id]) && (id, store[id]) !in snap ==>
          |snap| == limit && forall i :: 0 <= i < |snap| ==> before(snap[i], (id, store[id])))
  }

  /** `snap` lists every stored document once, in no particular order. */
  ghost predicate IsCollection<D>(store: map<string, D>, snap: seq<(string, D)>) {
    (forall i :: 0 <= i < |snap| ==> snap[i].0 in store && store[snap[i].0] == snap[i].1)
    && (forall id :: id in store ==> (id, store[id]) in snap)
    && (forall i, j :: 0 <= i < j < |snap| ==> snap[i].0 != snap[j].0)
  }

  /** A snapshot of a whole collection has as many entries as there are
      documents (`snapshot.size`). */
  lemma CollectionSize<D>(store: map<string, D>, snap: seq<(string, D)>)
    requires IsCollection(store, snap)
    ensures |snap| == |store|
  {
    var ids := Map((e: (string, D)) => e.0, snap);
    DistinctCardinality(ids);
    var idSet := set x | x in ids;
    assert idSet == store.Keys by {
      forall id | id in store ensures id in idSet {
        var i :| 0 <= i < |snap| && snap[i] == (id, store[id]);
        assert ids[i] == id;
      }
    }
    assert |store.Keys| == |store|;
  }

  // ---------------------------------------------------------------------------
  // Storage locations

  /** Where download URLs point; the bucket name and the access token that the
      real URL carries are abstracted away. */
  const DownloadPrefix: string := "https://firebasestorage.googleapis.com/v0/b/bucket/o/"

  /** `getDownloadURL` of the object stored at `path`. */
  function DownloadUrl(path: string): string {
    DownloadPrefix + path
  }

  /** The object path `ref(storage, url)` designates: a download URL names its
      object, any other http(s) URL is rejected, and anything else is taken
      as a path from the bucket root. */
  function RefPath(url: string): Option<string> {
    if |url| >= |DownloadPrefix| && url[..|DownloadPrefix|] == DownloadPrefix then
      Some(url[|DownloadPrefix|..])
    else if (|url| >= 8 && url[..8] == "https://") || (|url| >= 7 && url[..7] == "http://") then
      None
    else
      Some(url)
  }

  /** A download URL designates the object it was obtained for. */
  lemma RefPathOfDownloadUrl(path: string)
    ensures RefPath(DownloadUrl(path)) == Some(path)
  {
    assert DownloadUrl(path)[..|DownloadPrefix|] == DownloadPrefix;
  }

  // ---------------------------------------------------------------------------
  // The backend

  class Backend {
    var songs: map<string, SongDoc>
    var categories: map<string, CategoryDoc>
    var blobs: map<string, File>

    constructor (songs0: map<string, SongDoc>, categories0: map<string, CategoryDoc>,
                 blobs0: map<string, File>)
      ensures songs == songs0 && categories == categories0 && blobs == blobs0
    {
      songs, categories, blobs := songs0, categories0, blobs0;
    }

    /** `addDoc` on the songs collection; `id` is the fresh id the store picks. */
    method AddSongDoc(id: string, doc: SongDoc, fails: bool) returns (r: Result<string, Error>)
      requires id !in songs
      modifies this
      ensures r == if fails then Err(Unavailable) else Ok(id)
      ensures songs == if fails then old(songs) else old(songs)[id := doc]
      ensures categories == old(categories) && blobs == old(blobs)
    {
      if fails { return Err(Unavailable); }
      songs := songs[id := doc];
      r := Ok(id);
    }

    /** `addDoc` on the categories collection. */
    method AddCategoryDoc(id: string, doc: CategoryDoc, fails: bool) returns (r: Result<string, Error>)
      requires id !in categories
      modifies this
      ensures r == if fails then Err(Unavailable) else Ok(id)
      ensures categories == if fails then old(categories) else old(categories)[id := doc]
      ensures songs == old(songs) && blobs == old(blobs)
    {
      if fails { return Err(Unavailable); }
      categories := categories[id := doc];
      r := Ok(id);
    }

    /** `getDoc` on the songs collection. */
    method GetSongDoc(id: string, fails: bool) returns (r: Result<Option<SongDoc>, Error>)
      ensures fails <==> r.Err?
      ensures r.Err? ==> r.error == Unavailable
      ensures r.Ok? ==> (r.value.Some? <==> id in songs)
      ensures r.Ok? && id in songs ==> r.value.value == songs[id]
    {
      if fails { return Err(Unavailable); }
      r := Ok(if id in songs then Some(songs[id]) else None);
    }

    /** `getDoc` on the categories collection. */
    method GetCategoryDoc(id: string, fails: bool) returns (r: Result<Option<CategoryDoc>, Error>)
      ensures fails <==> r.Err?
      ensures r.Err? ==> r.error == Unavailable
      ensures r.Ok? ==> (r.value.Some? <==> id in categories)
      ensures r.Ok? && id in categories ==> r.value.value == categories[id]
    {
      if fails { return Err(Unavailable); }
      r := Ok(if id in categories then Some(categories[id]) else None);
    }

    /** `deleteDoc` on the songs collection; deleting a missing document succeeds. */
    method DeleteSongDoc(id: string, fails: bool) returns (r: Result<(), Error>)
      modifies this
      ensures r == if fails then Err(Unavailable) else Ok(())
      ensures songs == if fails then old(songs) else old(songs) - {id}
      ensures categories == old(categories) && blobs == old(blobs)
    {
      if fails { return Err(Unavailable); }
      songs := songs - {id};
      r := Ok(());
    }

    /** `deleteDoc` on the categories collection. */
    method DeleteCategoryDoc(id: string, fails: bool) returns (r: Result<(), Error>)
      modifies this
      ensures r == if fails then Err(Unavailable) else Ok(())
      ensures categories == if fails then old(categories) else old(categories) - {id}
      ensures songs == old(songs) && blobs == old(blobs)
    {
      if fails { return Err(Unavailable); }
      categories := categories - {id};
      r := Ok(());
    }

    /** `uploadBytes`: stores `file` at `path`, replacing what was there. */
    method UploadBytes(path: string, file: File, fails: bool) returns (r: Result<(), Error>)
      modifies this
      ensures r == if fails then Err(Unavailable) else Ok(())
      ensures blobs == if fails then old(blobs) else old(blobs)[path := file]
      ensures songs == old(songs) && categories == old(categories)
    {
      if fails { return Err(Unavailable); }
      blobs := blobs[path := file];
      r := Ok(());
    }

    /** `getDownloadURL` of the object at `path`. */
    method GetDownloadUrl(path: string, fails: bool) returns (r: Result<string, Error>)
      ensures r == if fails then Err(Unavailable)
                   else if path !in blobs then Err(ObjectNotFound)
                   else Ok(DownloadUrl(path))
    {
      if fails { return Err(Unavailable); }
      if path !in blobs { return Err(ObjectNotFound); }
      r := Ok(DownloadUrl(path));
    }

    /** `deleteObject(ref(storage, url))`. */
    method DeleteObject(url: string, fails: bool) returns (r: Result<(), Error>)
      modifies this
      ensures r.Ok? <==> !fails && RefPath(url).Some? && RefPath(url).value in old(blobs)
      ensures blobs == if r.Ok? then old(blobs) - {RefPath(url).value} else old(blobs)
      ensures songs == old(songs) && categories == old(categories)
    {
      var path := RefPath(url);
      if path.None? { return Err(InvalidUrl); }
      if fails { return Err(Unavailable); }
      if path.value !in blobs { return Err(ObjectNotFound); }
      blobs := blobs - {path.value};
      r := Ok(());
    }
  }
}
