/** The song service (lib/services/song-service.ts): reading song documents
    into `Song` records, creating, updating and deleting them, and storing
    their audio and image files. */
module SongService {
  import opened Js
  import opened Wrappers
  import opened Types
  import opened Seqs
  import opened Firebase

  /** What `createSong` accepts (CreateSongData; its declaration is not part
      of lib/types.ts, so the fields are the ones `createSong` reads). */
  datatype CreateSongData = CreateSongData(
    title: string,
    lyrics: string,
    categoryIds: seq<string>,
    audioUrl: Option<string>,
    thumbnailUrl: Option<string>)

  /** What `updateSong` accepts (UpdateSongData): each field is either left
      out (None) or supplied. The asset slots can be supplied as null or, by
      mistake, as `undefined` (Absent), which the store refuses. */
  datatype SongPatch = SongPatch(
    title: Option<string>,
    lyrics: Option<string>,
    categoryIds: Option<seq<string>>,
    audioUrl: Option<Field<string>>,
    thumbnailUrl: Option<Field<string>>,
    playCount: Option<int>,
    createdAt: Option<int>,
    updatedAt: Option<int>,
    metadata: Option<Metadata>)

  // ---------------------------------------------------------------------------
  // Reading

  /** The record a read builds from a stored document: a missing
      `categoryIds` reads as `[]`, a falsy `playCount` as 0, a missing
      timestamp as the current time `now`; everything else passes through. */
  function NormalizeSong(entry: (string, SongDoc), now: int): Song {
    var d := entry.1;
    Song(
      entry.0,
      d.title,
      d.lyrics,
      if d.categoryIds.Val? then d.categoryIds.value else [],
      d.audioUrl,
      d.thumbnailUrl,
      FieldOrZero(d.playCount),
      if d.createdAt.Val? then d.createdAt.value else now,
      if d.updatedAt.Val? then d.updatedAt.value else now,
      d.metadata)
  }

  function NormalizeSongs(snap: seq<(string, SongDoc)>, now: int): seq<Song> {
    Map((e: (string, SongDoc)) => NormalizeSong(e, now), snap)
  }

  /** The read defaults: ids and texts pass through, a missing id list is
      empty, a falsy play count is 0, a stored timestamp is kept and a
      missing one is `now`. */
  lemma ReadDefaults(id: string, d: SongDoc, now: int)
    ensures var s := NormalizeSong((id, d), now);
      && s.id == id && s.title == d.title && s.lyrics == d.lyrics
      && (d.categoryIds.Val? ==> s.categoryIds == d.categoryIds.value)
      && (!d.categoryIds.Val? ==> s.categoryIds == [])
      && (d.playCount.Val? && TruthyNumber(d.playCount.value) ==> Int(s.playCount) == d.playCount.value)
      && (!(d.playCount.Val? && TruthyNumber(d.playCount.value)) ==> s.playCount == 0)
      && (d.createdAt.Val? ==> s.createdAt == d.createdAt.value)
      && (!d.createdAt.Val? ==> s.createdAt == now)
      && s.audioUrl == d.audioUrl && s.thumbnailUrl == d.thumbnailUrl
  {
  }

  /** `getDocs(query(songs, orderBy('createdAt', 'desc')))`. */
  ghost predicate IsAllSongsAnswer(store: map<string, SongDoc>, snap: seq<(string, SongDoc)>) {
    IsAnswer(store, snap, HasCreatedAt, SongBefore)
  }

  function MatchesCategory(c: string): SongDoc -> bool {
    (d: SongDoc) => HasCreatedAt(d) && InCategory(d, c)
  }

  /** The same query narrowed by `where('categoryIds', 'array-contains', c)`. */
  ghost predicate IsCategorySongsAnswer(store: map<string, SongDoc>, snap: seq<(string, SongDoc)>, c: string) {
    IsAnswer(store, snap, MatchesCategory(c), SongBefore)
  }

  /** `getAllSongs`: every song with a creation time, newest first. */
  method GetAllSongs(db: Backend, snapshot: seq<(string, SongDoc)>, now: int, fails: bool)
    returns (r: Result<seq<Song>, Error>)
    requires IsAllSongsAnswer(db.songs, snapshot)
    ensures r.Ok? <==> !fails
    ensures r.Ok? ==> r.value == NormalizeSongs(snapshot, now)
    ensures r.Ok? ==> ((set s | s in r.value :: s.id)
                       == (set id | id in db.songs && HasCreatedAt(db.songs[id])))
    ensures r.Ok? ==> forall i, j :: (0 <= i < j < |r.value| && snapshot[j].1.createdAt.Val?) ==>
                        r.value[i].createdAt >= r.value[j].createdAt
  {
    if fails { return Err(Unavailable); }
    var songs := NormalizeSongs(snapshot, now);
    ListedSongIds(db.songs, snapshot, now);
    forall i, j | 0 <= i < j < |songs| && snapshot[j].1.createdAt.Val?
      ensures songs[i].createdAt >= songs[j].createdAt
    {
      NewestFirst(snapshot, i, j, now);
    }
    r := Ok(songs);
  }

  /** The listing names exactly the songs that have a creation time. */
  lemma ListedSongIds(store: map<string, SongDoc>, snap: seq<(string, SongDoc)>, now: int)
    requires IsAllSongsAnswer(store, snap)
    ensures (set s | s in NormalizeSongs(snap, now) :: s.id)
         == (set id | id in store && HasCreatedAt(store[id]))
  {
    var songs := NormalizeSongs(snap, now);
    forall id | id in store && HasCreatedAt(store[id]) ensures id in (set s | s in songs :: s.id) {
      var i :| 0 <= i < |snap| && snap[i] == (id, store[id]);
      assert songs[i].id == id;
    }
    forall s | s in songs ensures s.id in store && HasCreatedAt(store[s.id]) {
      var i :| 0 <= i < |songs| && songs[i] == s;
      assert s.id == snap[i].0;
    }
  }

  /** An earlier listed song is at least as new as a later one that has a
      stored creation time. */
  lemma NewestFirst(snap: seq<(string, SongDoc)>, i: int, j: int, now: int)
    requires SortedBy(snap, SongBefore)
    requires 0 <= i < j < |snap| && snap[j].1.createdAt.Val?
    ensures NormalizeSongs(snap, now)[i].createdAt >= NormalizeSongs(snap, now)[j].createdAt
  {
    var a, b := snap[i], snap[j];
    assert SongBefore(a, b);
    assert a.1.createdAt.Val? && a.1.createdAt.value >= b.1.createdAt.value;
    assert NormalizeSongs(snap, now)[i] == NormalizeSong(a, now);
    assert NormalizeSongs(snap, now)[j] == NormalizeSong(b, now);
  }

  /** `getSongById`: the normalised song, or null for an unknown id. */
  method GetSongById(db: Backend, id: string, now: int, fails: bool)
    returns (r: Result<Option<Song>, Error>)
    ensures r == Err(Unavailable) <==> fails
    ensures r.Ok? <==> !fails
    ensures r.Ok? ==> (r.value.None? <==> id !in db.songs)
    ensures r.Ok? && id in db.songs ==> r.value.value == NormalizeSong((id, db.songs[id]), now)
  {
    var doc := db.GetSongDoc(id, fails);
    if doc.Err? { return Err(doc.error); }
    if doc.value.None? { return Ok(None); }
    r := Ok(Some(NormalizeSong((id, doc.value.value), now)));
  }

  /** `getSongsByCategory`: the songs tagged with `c`, newest first. */
  method GetSongsByCategory(db: Backend, c: string, snapshot: seq<(string, SongDoc)>, now: int, fails: bool)
    returns (r: Result<seq<Song>, Error>)
    requires IsCategorySongsAnswer(db.songs, snapshot, c)
    ensures r.Ok? <==> !fails
    ensures r.Ok? ==> r.value == NormalizeSongs(snapshot, now)
    ensures r.Ok? ==> forall s :: s in r.value ==> c in s.categoryIds
  {
    if fails { return Err(Unavailable); }
    r := Ok(NormalizeSongs(snapshot, now));
    forall s | s in r.value ensures c in s.categoryIds {
      var i :| 0 <= i < |snapshot| && r.value[i] == s;
      assert MatchesCategory(c)(snapshot[i].1);
    }
  }

  /** The songs of a category are exactly the songs of the full listing
      that carry the category, in the same order. */
  lemma {:induction false} CategorySongsAreFilteredAllSongs(
    store: map<string, SongDoc>, all: seq<(string, SongDoc)>, byCat: seq<(string, SongDoc)>,
    c: string, now: int)
    requires IsAllSongsAnswer(store, all)
    requires IsCategorySongsAnswer(store, byCat, c)
    ensures NormalizeSongs(byCat, now) == Filter((s: Song) => c in s.categoryIds, NormalizeSongs(all, now))
  {
    CategoryAnswerIsFilteredAnswer(store, all, byCat, c);
    MapFilter((e: (string, SongDoc)) => NormalizeSong(e, now), EntryInCategory(c),
              (s: Song) => c in s.categoryIds, all);
  }

  /** Whether a listed entry carries category `c`. */
  function EntryInCategory(c: string): ((string, SongDoc)) -> bool {
    (e: (string, SongDoc)) => InCategory(e.1, c)
  }

  /** The category query's answer is the full listing's answer with the
      entries outside the category dropped. */
  lemma CategoryAnswerIsFilteredAnswer(
    store: map<string, SongDoc>, all: seq<(string, SongDoc)>, byCat: seq<(string, SongDoc)>, c: string)
    requires IsAllSongsAnswer(store, all)
    requires IsCategorySongsAnswer(store, byCat, c)
    ensures Filter(EntryInCategory(c), all) == byCat
  {
    var p := EntryInCategory(c);
    var filtered := Filter(p, all);
    FilterSorted(p, all, SongBefore);
    SongOrderIsStrict();
    forall e | e in filtered ensures e in byCat {
      assert e in all && p(e);
      var k :| 0 <= k < |all| && all[k] == e;
      assert MatchesCategory(c)(store[e.0]);
    }
    forall e | e in byCat ensures e in filtered {
      var i :| 0 <= i < |byCat| && byCat[i] == e;
      assert MatchesCategory(c)(e.1);
      assert (e.0, store[e.0]) in all;
    }
    SortedUnique(filtered, byCat, SongBefore);
  }

  // ---------------------------------------------------------------------------
  // Writing

  /** The document `createSong` writes. */
  function NewSongDoc(data: CreateSongData, now: int): SongDoc {
    SongDoc(data.title, data.lyrics, Val(data.categoryIds),
            OptionOrNull(data.audioUrl), OptionOrNull(data.thumbnailUrl),
            Val(Int(0)), Val(now), Val(now), Val(map[]))
  }

  /** `createSong`: a new document with play count 0, equal creation and
      update times, empty metadata, and null for a missing asset URL. */
  method CreateSong(db: Backend, data: CreateSongData, now: int, newId: string, fails: bool)
    returns (r: Result<string, Error>)
    requires newId !in db.songs
    modifies db
    ensures r == if fails then Err(Unavailable) else Ok(newId)
    ensures db.songs == if fails then old(db.songs) else old(db.songs)[newId := NewSongDoc(data, now)]
    ensures db.categories == old(db.categories) && db.blobs == old(db.blobs)
  {
    r := db.AddSongDoc(newId, NewSongDoc(data, now), fails);
  }

  /** Reading back a created song: the given texts and ids, play count 0,
      created and updated at `now`, empty metadata, and a null asset URL
      wherever none (or an empty one) was given. */
  lemma CreatedSongReadsBack(id: string, data: CreateSongData, now: int, later: int)
    ensures var s := NormalizeSong((id, NewSongDoc(data, now)), later);
      && s == Song(id, data.title, data.lyrics, data.categoryIds,
                   s.audioUrl, s.thumbnailUrl, 0, now, now, Val(map[]))
      && (s.audioUrl == Null <==> (data.audioUrl.None? || data.audioUrl.value == ""))
      && (s.audioUrl != Null ==> s.audioUrl == Val(data.audioUrl.value))
      && (s.thumbnailUrl == Null <==> (data.thumbnailUrl.None? || data.thumbnailUrl.value == ""))
      && (s.thumbnailUrl != Null ==> s.thumbnailUrl == Val(data.thumbnailUrl.value))
  {
  }

  /** No supplied field is `undefined`. */
  predicate PatchDefined(p: SongPatch) {
    (p.audioUrl.None? || !p.audioUrl.value.Absent?)
    && (p.thumbnailUrl.None? || !p.thumbnailUrl.value.Absent?)
  }

  /** The document after `updateDoc(ref, { ...patch, updatedAt: now })`. */
  function ApplySongPatch(d: SongDoc, p: SongPatch, now: int): SongDoc {
    SongDoc(
      p.title.GetOr(d.title),
      p.lyrics.GetOr(d.lyrics),
      Overwrite(p.categoryIds, d.categoryIds),
      p.audioUrl.GetOr(d.audioUrl),
      p.thumbnailUrl.GetOr(d.thumbnailUrl),
      Overwrite(if p.playCount.Some? then Some(Int(p.playCount.value)) else None, d.playCount),
      Overwrite(p.createdAt, d.createdAt),
      Val(now),
      Overwrite(p.metadata, d.metadata))
  }

  /** `updateSong`: merges the supplied fields into an existing document and
      stamps it with `now`. Refused for a missing document or an undefined
      field value. */
  method UpdateSong(db: Backend, id: string, p: SongPatch, now: int, fails: bool)
    returns (r: Result<(), Error>)
    modifies db
    ensures r == if !PatchDefined(p) then Err(InvalidArgument)
                 else if fails then Err(Unavailable)
                 else if id !in old(db.songs) then Err(NotFound)
                 else Ok(())
    ensures db.songs == if r.Ok? then old(db.songs)[id := ApplySongPatch(old(db.songs)[id], p, now)]
                        else old(db.songs)
    ensures db.categories == old(db.categories) && db.blobs == old(db.blobs)
  {
    if !PatchDefined(p) { return Err(InvalidArgument); }
    if fails { return Err(Unavailable); }
    if id !in db.songs { return Err(NotFound); }
    db.songs := db.songs[id := ApplySongPatch(db.songs[id], p, now)];
    r := Ok(());
  }

  /** An update always stamps the document with the current time, whatever
      `updatedAt` the caller supplied, and leaves every field it was not
      given as it was. */
  lemma UpdateTouchesOnlySupplied(d: SongDoc, p: SongPatch, now: int)
    ensures var u := ApplySongPatch(d, p, now);
      && u.updatedAt == Val(now)
      && u == ApplySongPatch(d, p.(updatedAt := None), now)
      && (p.title.None? ==> u.title == d.title)
      && (p.lyrics.None? ==> u.lyrics == d.lyrics)
      && (p.categoryIds.None? ==> u.categoryIds == d.categoryIds)
      && (p.audioUrl.None? ==> u.audioUrl == d.audioUrl)
      && (p.thumbnailUrl.None? ==> u.thumbnailUrl == d.thumbnailUrl)
      && (p.playCount.None? ==> u.playCount == d.playCount)
      && (p.createdAt.None? ==> u.createdAt == d.createdAt)
      && (p.metadata.None? ==> u.metadata == d.metadata)
  {
  }

  /** Applying the same update twice at the same time is applying it once. */
  lemma UpdateIdempotent(d: SongDoc, p: SongPatch, now: int)
    ensures ApplySongPatch(ApplySongPatch(d, p, now), p, now) == ApplySongPatch(d, p, now)
  {
  }

  // ---------------------------------------------------------------------------
  // Deleting

  /** The asset URLs `deleteSong` tries to remove for a stored song: the
      audio URL, then the image URL, each only when truthy. */
  function AssetUrls(d: SongDoc): seq<string> {
    (if Truthy(d.audioUrl) then [d.audioUrl.value] else [])
    + (if Truthy(d.thumbnailUrl) then [d.thumbnailUrl.value] else [])
  }

  /** One best-effort blob delete and how it ended. Failures are logged,
      never propagated. */
  datatype CleanupAttempt = CleanupAttempt(url: string, result: Result<(), Error>)

  /** The URL an attempt was made on. */
  function AttemptUrl(a: CleanupAttempt): string { a.url }

  /** The object paths a sequence of clean-up attempts removed. */
  ghost function Removed(cleanup: seq<CleanupAttempt>): set<string> {
    set i | 0 <= i < |cleanup| && cleanup[i].result.Ok? && RefPath(cleanup[i].url).Some?
          :: RefPath(cleanup[i].url).value
  }

  /** Every attempt that succeeded named an object that was in `blobs`. */
  ghost predicate SucceededOn(cleanup: seq<CleanupAttempt>, blobs: map<string, File>) {
    forall i :: 0 <= i < |cleanup| && cleanup[i].result.Ok? ==>
      RefPath(cleanup[i].url).Some? && RefPath(cleanup[i].url).value in blobs
  }

  /** `deleteSong`: read the song, try to delete its audio and its image
      (swallowing failures), then delete the document, which happens even
      when the song does not exist. Only a failed read stops it early. */
  method DeleteSong(db: Backend, id: string, now: int,
                    readFails: bool, audioFails: bool, imageFails: bool, docFails: bool)
    returns (r: Result<(), Error>, cleanup: seq<CleanupAttempt>)
    modifies db
    ensures db.categories == old(db.categories)
    ensures readFails ==> r == Err(Unavailable) && cleanup == []
                          && db.songs == old(db.songs) && db.blobs == old(db.blobs)
    ensures !readFails ==> r == if docFails then Err(Unavailable) else Ok(())
    ensures !readFails ==> db.songs == if docFails then old(db.songs) else old(db.songs) - {id}
    ensures !readFails ==> Map(AttemptUrl, cleanup)
                           == if id in old(db.songs) then AssetUrls(old(db.songs)[id]) else []
    ensures db.blobs == old(db.blobs) - Removed(cleanup)
    ensures SucceededOn(cleanup, old(db.blobs))
    ensures !readFails && id in old(db.songs) && Truthy(old(db.songs)[id].audioUrl) && !audioFails
            && RefPath(old(db.songs)[id].audioUrl.value).Some?
            ==> RefPath(old(db.songs)[id].audioUrl.value).value !in db.blobs
    ensures !readFails && id in old(db.songs) && Truthy(old(db.songs)[id].thumbnailUrl) && !imageFails
            && RefPath(old(db.songs)[id].thumbnailUrl.value).Some?
            ==> RefPath(old(db.songs)[id].thumbnailUrl.value).value !in db.blobs
  {
    var read := GetSongById(db, id, now, readFails);
    if read.Err? { return Err(read.error), []; }
    var song := read.value;
    ghost var before := db.blobs;
    ghost var audio := if song.Some? && Truthy(song.value.audioUrl) then [song.value.audioUrl.value] else [];
    ghost var image := if song.Some? && Truthy(song.value.thumbnailUrl) then [song.value.thumbnailUrl.value] else [];
    assert (if id in db.songs then AssetUrls(db.songs[id]) else []) == audio + image;
    cleanup := [];
    if song.Some? && Truthy(song.value.audioUrl) {
      ghost var mid := db.blobs;
      var a := TryDeleteAsset(db, song.value.audioUrl.value, audioFails);
      AttemptAdded(cleanup, a, before, mid, db.blobs);
      cleanup := cleanup + [a];
    }
    assert Map(AttemptUrl, cleanup) == audio;
    if song.Some? && Truthy(song.value.thumbnailUrl) {
      ghost var mid := db.blobs;
      var a := TryDeleteAsset(db, song.value.thumbnailUrl.value, imageFails);
      AttemptAdded(cleanup, a, before, mid, db.blobs);
      cleanup := cleanup + [a];
    }
    assert Map(AttemptUrl, cleanup) == audio + image;
    r := db.DeleteSongDoc(id, docFails);
  }

  /** One `try { deleteObject(ref(storage, url)) } catch { log }` block: the
      outcome is recorded, never thrown. Only the named object can go, and
      without a storage failure it is gone afterwards. */
  method TryDeleteAsset(db: Backend, url: string, fails: bool) returns (a: CleanupAttempt)
    modifies db
    ensures a.url == url
    ensures db.blobs == old(db.blobs) - Removed([a])
    ensures SucceededOn([a], old(db.blobs))
    ensures !fails && RefPath(url).Some? ==> RefPath(url).value !in db.blobs
    ensures db.songs == old(db.songs) && db.categories == old(db.categories)
  {
    var deleted := db.DeleteObject(url, fails);
    a := CleanupAttempt(url, deleted);
    assert a == [a][0];
  }

  /** Appending one attempt to the log keeps the log's account of the store:
      what is gone is what the attempts removed, and each success named an
      object that was there at the start. */
  lemma AttemptAdded(cleanup: seq<CleanupAttempt>, a: CleanupAttempt,
                     before: map<string, File>, mid: map<string, File>, after: map<string, File>)
    requires mid == before - Removed(cleanup) && SucceededOn(cleanup, before)
    requires after == mid - Removed([a]) && SucceededOn([a], mid)
    ensures after == before - Removed(cleanup + [a])
    ensures SucceededOn(cleanup + [a], before)
    ensures Map(AttemptUrl, cleanup + [a]) == Map(AttemptUrl, cleanup) + [a.url]
  {
    var c := cleanup + [a];
    assert c[|cleanup|] == [a][0];
    forall p | p in Removed(c) ensures p in Removed(cleanup) + Removed([a]) {
      var i :| 0 <= i < |c| && c[i].result.Ok? && RefPath(c[i].url).Some? && p == RefPath(c[i].url).value;
      if i < |cleanup| { assert c[i] == cleanup[i]; }
    }
    forall p | p in Removed(cleanup) ensures p in Removed(c) {
      var i :| 0 <= i < |cleanup| && cleanup[i].result.Ok? && RefPath(cleanup[i].url).Some? && p == RefPath(cleanup[i].url).value;
      assert c[i] == cleanup[i];
    }
    forall i | 0 <= i < |c| && c[i].result.Ok?
      ensures RefPath(c[i].url).Some? && RefPath(c[i].url).value in before
    {
      if i < |cleanup| { assert c[i] == cleanup[i]; }
    }
  }

  // ---------------------------------------------------------------------------
  // Storage keys and uploads

  /** The characters the file-name sanitiser keeps: `[a-zA-Z0-9._-]`. */
  predicate KeptInFileName(c: char) {
    ('a' <= c <= 'z') || ('A' <= c <= 'Z') || ('0' <= c <= '9') || c == '.' || c == '_' || c == '-'
  }

  /** `name.replace(/[^a-zA-Z0-9._-]/g, '_')`: same length, kept characters
      unchanged, every other character replaced by `_`. */
  function Sanitize(name: string): (r: string)
    ensures |r| == |name|
    ensures forall i :: 0 <= i < |name| ==>
              r[i] == if KeptInFileName(name[i]) then name[i] else '_'
  {
    if name == [] then []
    else [if KeptInFileName(name[0]) then name[0] else '_'] + Sanitize(name[1..])
  }

  /** Sanitising is idempotent, and a name is left as it is exactly when all
      its characters are kept ones. */
  lemma {:induction false} SanitizeIdempotent(name: string)
    ensures Sanitize(Sanitize(name)) == Sanitize(name)
    ensures Sanitize(name) == name <==> forall i :: 0 <= i < |name| ==> KeptInFileName(name[i])
  {
    var s := Sanitize(name);
    assert forall i :: 0 <= i < |s| ==> KeptInFileName(s[i]);
    if Sanitize(name) == name {
      forall i | 0 <= i < |name| ensures KeptInFileName(name[i]) { assert s[i] == name[i]; }
    }
  }

  const AudioFolder: string := "songs/"
  const ImageFolder: string := "song-images/"

  /** `${folder}${timestamp}_${sanitised name}`. */
  function StorageKey(folder: string, timestamp: int, name: string): string {
    folder + IntToString(timestamp) + "_" + Sanitize(name)
  }

  /** Where `uploadAudioFile` stores a file. */
  function AudioKey(timestamp: int, name: string): string {
    StorageKey(AudioFolder, timestamp, name)
  }

  /** Where `uploadImageFile` stores a file. */
  function ImageKey(timestamp: int, name: string): string {
    StorageKey(ImageFolder, timestamp, name)
  }

  /** Two strings joined by a separator that neither head contains split back
      at the first separator. */
  lemma SplitAtSeparator(a: string, b: string, x: string, y: string, sep: char)
    requires forall i :: 0 <= i < |a| ==> a[i] != sep
    requires forall i :: 0 <= i < |b| ==> b[i] != sep
    requires a + [sep] + x == b + [sep] + y
    ensures a == b && x == y
  {
    var u := a + [sep] + x;
    assert forall k :: 0 <= k < |a| ==> u[k] == a[k];
    assert forall k :: 0 <= k < |b| ==> u[k] == b[k];
    assert u[|a|] == sep && u[|b|] == sep;
    assert |a| == |b|;
    assert a == u[..|a|] && b == u[..|b|];
    assert x == u[|a| + 1..] && y == u[|b| + 1..];
  }

  lemma CancelPrefix(p: string, x: string, y: string)
    requires p + x == p + y
    ensures x == y
  {
    assert x == (p + x)[|p|..] && y == (p + y)[|p|..];
  }

  lemma StorageKeyParts(folder: string, t: int, name: string)
    ensures StorageKey(folder, t, name) == folder + (IntToString(t) + ['_'] + Sanitize(name))
  {
  }

  /** Keys in one folder identify their upload: equal keys come from the same
      timestamp and the same sanitised name. */
  lemma {:induction false} StorageKeyInjective(folder: string, t1: int, n1: string, t2: int, n2: string)
    requires StorageKey(folder, t1, n1) == StorageKey(folder, t2, n2)
    ensures t1 == t2 && Sanitize(n1) == Sanitize(n2)
  {
    var a, b := IntToString(t1), IntToString(t2);
    StorageKeyParts(folder, t1, n1);
    StorageKeyParts(folder, t2, n2);
    CancelPrefix(folder, a + ['_'] + Sanitize(n1), b + ['_'] + Sanitize(n2));
    SplitAtSeparator(a, b, Sanitize(n1), Sanitize(n2), '_');
    IntToStringInjective(t1, t2);
  }

  /** Audio keys and image keys never coincide. */
  lemma AudioAndImageKeysDiffer(t1: int, n1: string, t2: int, n2: string)
    ensures AudioKey(t1, n1) != ImageKey(t2, n2)
  {
    StorageKeyStartsWithFolder(AudioFolder, t1, n1, 4);
    StorageKeyStartsWithFolder(ImageFolder, t2, n2, 4);
  }

  /** A storage key begins with its folder. */
  lemma StorageKeyStartsWithFolder(folder: string, timestamp: int, name: string, i: int)
    requires 0 <= i < |folder|
    ensures i < |StorageKey(folder, timestamp, name)| && StorageKey(folder, timestamp, name)[i] == folder[i]
  {
  }

  /** `uploadAudioFile`: stores the file under its audio key and returns its
      download URL. The song title plays no part. */
  method UploadAudioFile(db: Backend, file: File, songTitle: string, now: int,
                         uploadFails: bool, urlFails: bool)
    returns (r: Result<string, Error>)
    modifies db
    ensures db.blobs == if uploadFails then old(db.blobs) else old(db.blobs)[AudioKey(now, file.name) := file]
    ensures r == if uploadFails || urlFails then Err(Unavailable) else Ok(DownloadUrl(AudioKey(now, file.name)))
    ensures db.songs == old(db.songs) && db.categories == old(db.categories)
  {
    r := UploadTo(db, AudioKey(now, file.name), file, uploadFails, urlFails);
  }

  /** `uploadImageFile`: the same, under the image key. */
  method UploadImageFile(db: Backend, file: File, now: int, uploadFails: bool, urlFails: bool)
    returns (r: Result<string, Error>)
    modifies db
    ensures db.blobs == if uploadFails then old(db.blobs) else old(db.blobs)[ImageKey(now, file.name) := file]
    ensures r == if uploadFails || urlFails then Err(Unavailable) else Ok(DownloadUrl(ImageKey(now, file.name)))
    ensures db.songs == old(db.songs) && db.categories == old(db.categories)
  {
    r := UploadTo(db, ImageKey(now, file.name), file, uploadFails, urlFails);
  }

  /** `uploadBytes` then `getDownloadURL` at one key. */
  method UploadTo(db: Backend, key: string, file: File, uploadFails: bool, urlFails: bool)
    returns (r: Result<string, Error>)
    modifies db
    ensures db.blobs == if uploadFails then old(db.blobs) else old(db.blobs)[key := file]
    ensures r == if uploadFails || urlFails then Err(Unavailable) else Ok(DownloadUrl(key))
    ensures db.songs == old(db.songs) && db.categories == old(db.categories)
  {
    var stored := db.UploadBytes(key, file, uploadFails);
    if stored.Err? { return Err(stored.error); }
    r := db.GetDownloadUrl(key, urlFails);
  }
}
