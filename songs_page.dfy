/** The song list (app/songs/page.tsx). It reads the stores directly and
    keeps the raw documents; deleting removes only the song document. */
module SongsPage {
  import opened Js
  import opened Wrappers
  import opened Types
  import opened Seqs
  import opened Firebase
  import opened SongService
  import opened CategoryLabels

  /** The song entry is not `id`. */
  function NotId(id: string): ((string, SongDoc)) -> bool {
    (e: (string, SongDoc)) => e.0 != id
  }

  /** (id, name) pairs of raw category documents. */
  function NamePairs(cats: seq<(string, CategoryDoc)>): seq<(string, string)> {
    Map((e: (string, CategoryDoc)) => (e.0, e.1.name), cats)
  }

  class Page {
    var songs: seq<(string, SongDoc)>
    var categories: seq<(string, CategoryDoc)>
    var loading: bool

    constructor()
      ensures songs == [] && categories == [] && loading
    {
      songs := [];
      categories := [];
      loading := true;
    }

    /** `fetchSongs`: the songs with a creation time, newest first, as
        stored; a failure keeps the list; loading ends either way. */
    method FetchSongs(db: Backend, snapshot: seq<(string, SongDoc)>, fails: bool)
      requires IsAllSongsAnswer(db.songs, snapshot)
      modifies this
      ensures songs == if fails then old(songs) else snapshot
      ensures !loading && categories == old(categories)
    {
      if !fails {
        songs := snapshot;
      }
      loading := false;
    }

    /** `fetchCategories`: every category document, in no particular order. */
    method FetchCategories(db: Backend, snapshot: seq<(string, CategoryDoc)>, fails: bool)
      requires IsCollection(db.categories, snapshot)
      modifies this
      ensures categories == if fails then old(categories) else snapshot
      ensures songs == old(songs) && loading == old(loading)
    {
      if !fails {
        categories := snapshot;
      }
    }

    /** `handleDelete`: after confirmation deletes the song document only
        (its audio and image stay in storage); the row goes away only when
        the delete succeeded. */
    method HandleDelete(db: Backend, id: string, confirmed: bool, fails: bool)
      returns (r: Option<Result<(), Error>>)
      modifies this, db
      ensures r.None? <==> !confirmed
      ensures r.Some? ==> r.value == if fails then Err(Unavailable) else Ok(())
      ensures db.songs == if confirmed && !fails then old(db.songs) - {id} else old(db.songs)
      ensures db.blobs == old(db.blobs) && db.categories == old(db.categories)
      ensures songs == if confirmed && !fails then Filter(NotId(id), old(songs)) else old(songs)
      ensures categories == old(categories) && loading == old(loading)
    {
      if !confirmed { return None; }
      var deleted := db.DeleteSongDoc(id, fails);
      if deleted.Ok? {
        songs := Filter(NotId(id), songs);
      }
      r := Some(deleted);
    }

    /** The category cell: the names, or "No categories". A document whose
        `categoryIds` is not an array makes the row fail to render (None). */
    function CategoryLabel(d: SongDoc): (cell: Option<string>)
      reads this
      ensures cell.None? <==> !d.categoryIds.Val?
      ensures cell.Some? ==> cell.value != ""
      ensures cell == Some("No categories") <==>
                d.categoryIds.Val? && (CategoryNames(d.categoryIds.value, NamePairs(categories)) == ""
                                       || CategoryNames(d.categoryIds.value, NamePairs(categories)) == "No categories")
      ensures d.categoryIds.Val? && CategoryNames(d.categoryIds.value, NamePairs(categories)) != "" ==>
                cell == Some(CategoryNames(d.categoryIds.value, NamePairs(categories)))
    {
      if !d.categoryIds.Val? then None
      else
        var names := CategoryNames(d.categoryIds.value, NamePairs(categories));
        Some(if names != "" then names else "No categories")
    }
  }
}
