/** The dashboard's song list (app/dashboard/songs/page.tsx): songs and
    categories come from the services, and deleting goes through
    `deleteSong`, which also removes the song's files. */
module DashboardSongsPage {
  import opened Js
  import opened Wrappers
  import opened Types
  import opened Seqs
  import opened Firebase
  import opened SongService
  import opened CategoryService
  import opened CategoryLabels

  function NotId(id: string): Song -> bool {
    (s: Song) => s.id != id
  }

  /** The lyrics excerpt `lyrics.substring(0, 60)`: the first 60 characters,
      or all of them when there are fewer. */
  function LyricsPreview(lyrics: string): (r: string)
    ensures |r| == if |lyrics| < 60 then |lyrics| else 60
    ensures r <= lyrics
  {
    Substring(lyrics, 0, 60)
  }

  function CategoryPairs(cats: seq<Category>): seq<(string, string)> {
    Map((c: Category) => (c.id, c.name), cats)
  }

  class Page {
    var songs: seq<Song>
    var categories: seq<Category>
    var loading: bool
    var deleting: Option<string>

    constructor()
      ensures songs == [] && categories == [] && loading && deleting == None
    {
      songs := [];
      categories := [];
      loading := true;
      deleting := None;
    }

    /** `loadData`: both lists are requested together and set only when
        both arrive. */
    method LoadData(db: Backend, songSnapshot: seq<(string, SongDoc)>, categorySnapshot: seq<(string, CategoryDoc)>,
                    now: int, songsFail: bool, categoriesFail: bool)
      requires IsAllSongsAnswer(db.songs, songSnapshot)
      requires IsAllCategoriesAnswer(db.categories, categorySnapshot)
      modifies this
      ensures songs == if songsFail || categoriesFail then old(songs) else NormalizeSongs(songSnapshot, now)
      ensures categories == if songsFail || categoriesFail then old(categories) else NormalizeCategories(categorySnapshot, now)
      ensures !loading && deleting == old(deleting)
    {
      var s := GetAllSongs(db, songSnapshot, now, songsFail);
      var c := GetAllCategories(db, categorySnapshot, now, categoriesFail);
      if s.Ok? && c.Ok? {
        songs := s.value;
        categories := c.value;
      }
      loading := false;
    }

    /** The delete button of a row is disabled while that song is being
        deleted. */
    predicate IsDeleteDisabled(songId: string)
      reads this
    {
      deleting == Some(songId)
    }

    /** `handleDelete`: after confirmation marks the song as being deleted,
        runs `deleteSong`, drops the row when it succeeded, and clears the
        mark either way. */
    method HandleDelete(db: Backend, id: string, confirmed: bool, now: int,
                        readFails: bool, audioFails: bool, imageFails: bool, docFails: bool)
      returns (r: Option<Result<(), Error>>, ghost disabledDuringDelete: bool,
               ghost cleanup: seq<CleanupAttempt>)
      modifies this, db
      ensures r.None? <==> !confirmed
      ensures r.Some? ==> r.value == if readFails || docFails then Err(Unavailable) else Ok(())
      ensures confirmed ==> disabledDuringDelete
      ensures songs == if r.Some? && r.value.Ok? then Filter(NotId(id), old(songs)) else old(songs)
      ensures db.songs == if confirmed && !readFails && !docFails then old(db.songs) - {id} else old(db.songs)
      ensures !confirmed || readFails ==> cleanup == []
      ensures confirmed && !readFails ==>
                Map(AttemptUrl, cleanup) == if id in old(db.songs) then AssetUrls(old(db.songs)[id]) else []
      ensures db.blobs == old(db.blobs) - Removed(cleanup)
      ensures SucceededOn(cleanup, old(db.blobs))
      ensures db.categories == old(db.categories)
      ensures deleting == (if confirmed then None else old(deleting))
      ensures categories == old(categories) && loading == old(loading)
    {
      disabledDuringDelete := false;
      cleanup := [];
      if !confirmed { return None, disabledDuringDelete, cleanup; }
      deleting := Some(id);
      disabledDuringDelete := IsDeleteDisabled(id);
      var deleted;
      deleted, cleanup := DeleteSong(db, id, now, readFails, audioFails, imageFails, docFails);
      if deleted.Ok? {
        songs := Filter(NotId(id), songs);
      }
      deleting := None;
      r := Some(deleted);
    }

    /** The category cell: the names, or "-". */
    function CategoryLabel(song: Song): (cell: string)
      reads this
      ensures cell != ""
      ensures cell == "-" <==> (CategoryNames(song.categoryIds, CategoryPairs(categories)) == ""
                                 || CategoryNames(song.categoryIds, CategoryPairs(categories)) == "-")
      ensures CategoryNames(song.categoryIds, CategoryPairs(categories)) != "" ==>
                cell == CategoryNames(song.categoryIds, CategoryPairs(categories))
    {
      var names := CategoryNames(song.categoryIds, CategoryPairs(categories));
      if names != "" then names else "-"
    }
  }
}
