/** Creating a song from the song form (`handleSubmit` in
    app/songs/new/page.tsx): the audio file, if any, is uploaded under a key
    built from the raw file name, then the document is written directly. */
module SongsNewPage {
  import opened Js
  import opened Wrappers
  import opened Types
  import opened Firebase
  import opened SongService

  /** `songs/${Date.now()}_${name}`: the file name is not sanitised. */
  function RawAudioKey(now: int, name: string): string {
    AudioFolder + IntToString(now) + "_" + name
  }

  /** The audio URL written with the song: the uploaded file's URL when a
      file was chosen, the form's URL otherwise. */
  function SubmittedAudioUrl(data: SongFormData, now: int): Option<string> {
    if data.audioFile.Some? then Some(DownloadUrl(RawAudioKey(now, data.audioFile.value.name)))
    else data.audioUrl
  }

  /** The document the page writes: no thumbnail and null metadata, play
      count 0, both timestamps the server's time. */
  function PageSongDoc(data: SongFormData, audioUrl: Option<string>, serverNow: int): SongDoc {
    SongDoc(data.title, data.lyrics, Val(data.categoryIds), OptionOrNull(audioUrl), Null,
            Val(Int(0)), Val(serverNow), Val(serverNow), Null)
  }

  /** The raw key is the service's key exactly when the file name needs no
      sanitising. */
  lemma RawKeyIsServiceKeyIff(now: int, name: string)
    ensures RawAudioKey(now, name) == AudioKey(now, name) <==> Sanitize(name) == name
  {
    StorageKeyParts(AudioFolder, now, name);
    var p := AudioFolder + IntToString(now) + "_";
    assert RawAudioKey(now, name) == p + name;
    assert AudioKey(now, name) == p + Sanitize(name);
    if p + name == p + Sanitize(name) {
      CancelPrefix(p, name, Sanitize(name));
    }
  }

  /** Uploads the chosen audio file, then adds the song document. The chosen
      image is ignored. A failed step ends the submission with its error; an
      upload that succeeded stays in storage even when the document is not
      written. */
  method HandleSubmit(db: Backend, data: SongFormData, now: int, serverNow: int, newId: string,
                      uploadFails: bool, urlFails: bool, addFails: bool)
    returns (r: Result<string, Error>)
    requires newId !in db.songs
    modifies db
    ensures db.blobs == if data.audioFile.Some? && !uploadFails
                        then old(db.blobs)[RawAudioKey(now, data.audioFile.value.name) := data.audioFile.value]
                        else old(db.blobs)
    ensures r == if data.audioFile.Some? && (uploadFails || urlFails) then Err(Unavailable)
                 else if addFails then Err(Unavailable)
                 else Ok(newId)
    ensures db.songs == if r.Ok? then old(db.songs)[newId := PageSongDoc(data, SubmittedAudioUrl(data, now), serverNow)]
                        else old(db.songs)
    ensures db.categories == old(db.categories)
  {
    var audioUrl := data.audioUrl;
    if data.audioFile.Some? {
      var uploaded := UploadTo(db, RawAudioKey(now, data.audioFile.value.name), data.audioFile.value,
                               uploadFails, urlFails);
      if uploaded.Err? { return Err(uploaded.error); }
      audioUrl := Some(uploaded.value);
    }
    r := db.AddSongDoc(newId, PageSongDoc(data, audioUrl, serverNow), addFails);
  }

  /** A song created here reads back with the form's texts and ids, play
      count 0, no thumbnail, and a null audio URL exactly when neither a file
      nor a non-empty URL was given. */
  lemma PageSongReadsBack(id: string, data: SongFormData, now: int, serverNow: int, later: int)
    ensures var s := NormalizeSong((id, PageSongDoc(data, SubmittedAudioUrl(data, now), serverNow)), later);
      && s.title == data.title && s.lyrics == data.lyrics && s.categoryIds == data.categoryIds
      && s.playCount == 0 && s.thumbnailUrl == Null && s.createdAt == serverNow && s.updatedAt == serverNow
      && (s.audioUrl == Null <==> data.audioFile.None? && (data.audioUrl.None? || data.audioUrl.value == ""))
  {
  }
}
