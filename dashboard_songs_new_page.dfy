/** The dashboard's new-song page (app/dashboard/songs/new/page.tsx): its
    own form state, the audio picker wiring, and a submit that goes through
    the song service. */
module DashboardSongsNewPage {
  import opened Js
  import opened Wrappers
  import opened Types
  import opened Firebase
  import opened Selection
  import opened FileChecks
  import opened SongService
  import opened CategoryService
  import opened AudioUploadComponent

  datatype NewSongForm = NewSongForm(title: string, lyrics: string, categoryIds: seq<string>)

  datatype Outcome = Refused | Failed(error: Error) | Created(id: string)

  /** What the page passes to `createSong`. */
  function SongData(form: NewSongForm, audioUrl: Option<string>): CreateSongData {
    CreateSongData(form.title, form.lyrics, form.categoryIds, audioUrl, None)
  }

  class Page {
    var loading: bool
    var categories: seq<Category>
    var audioFile: Option<File>
    var formData: NewSongForm

    constructor()
      ensures !loading && categories == [] && audioFile == None && formData == NewSongForm("", "", [])
    {
      loading := false;
      categories := [];
      audioFile := None;
      formData := NewSongForm("", "", []);
    }

    /** The effect's `loadCategories`: a failure keeps the list. */
    method LoadCategories(db: Backend, snapshot: seq<(string, CategoryDoc)>, now: int, fails: bool)
      requires IsAllCategoriesAnswer(db.categories, snapshot)
      modifies this
      ensures categories == if fails then old(categories) else NormalizeCategories(snapshot, now)
      ensures loading == old(loading) && audioFile == old(audioFile) && formData == old(formData)
    {
      var r := GetAllCategories(db, snapshot, now, fails);
      if r.Ok? {
        categories := r.value;
      }
    }

    method HandleCategoryToggle(id: string)
      modifies this
      ensures formData == old(formData).(categoryIds := Toggle(old(formData).categoryIds, id))
      ensures loading == old(loading) && categories == old(categories) && audioFile == old(audioFile)
    {
      formData := formData.(categoryIds := Toggle(formData.categoryIds, id));
    }

    /** `onFileSelect={setAudioFile}`. */
    method OnFileSelect(file: Option<File>)
      modifies this
      ensures audioFile == file
      ensures loading == old(loading) && categories == old(categories) && formData == old(formData)
    {
      audioFile := file;
    }

    /** A file chosen in the picker: the picker checks it and, if it accepts
        it, hands it to the page. */
    method ChooseAudio(upload: AudioUpload, chosen: Option<File>, objectUrl: string)
      returns (alert: Option<Verdict>)
      requires upload.Valid()
      modifies this, upload
      ensures upload.Valid()
      ensures alert == if chosen.Some? && CheckAudio(chosen.value) != Accepted
                       then Some(CheckAudio(chosen.value)) else None
      ensures audioFile == if chosen.Some? && alert.None? then chosen else old(audioFile)
      ensures upload.selectedFile == if chosen.Some? && alert.None? then chosen else old(upload.selectedFile)
      ensures loading == old(loading) && categories == old(categories) && formData == old(formData)
    {
      var notify;
      alert, notify := upload.HandleFileChange(chosen, objectUrl);
      if notify.Some? {
        OnFileSelect(notify.value);
      }
    }

    /** The picker's remove button: both the picker and the page forget the
        file. */
    method RemoveAudio(upload: AudioUpload)
      modifies this, upload
      ensures upload.Valid() && upload.selectedFile == None && audioFile == None
      ensures loading == old(loading) && categories == old(categories) && formData == old(formData)
    {
      var notify := upload.HandleRemove();
      OnFileSelect(notify.value);
    }

    /** `handleSubmit`: refuses an empty title or empty lyrics (white space
        and an empty category list pass), uploads the chosen audio through
        the service, then creates the song. `loading` is set while the
        writes run and cleared afterwards. */
    method HandleSubmit(db: Backend, now: int, newId: string, uploadFails: bool, urlFails: bool, createFails: bool)
      returns (outcome: Outcome, ghost loadingDuringWrites: bool)
      requires newId !in db.songs
      modifies this, db
      ensures outcome.Refused? <==> old(formData).title == "" || old(formData).lyrics == ""
      ensures !outcome.Refused? ==> loadingDuringWrites && !loading
      ensures outcome.Refused? ==> loading == old(loading)
      ensures db.blobs == if !outcome.Refused? && old(audioFile).Some? && !uploadFails
                          then old(db.blobs)[AudioKey(now, old(audioFile).value.name) := old(audioFile).value]
                          else old(db.blobs)
      ensures outcome.Created? <==> !outcome.Refused? && !createFails
                                    && (old(audioFile).None? || (!uploadFails && !urlFails))
      ensures outcome.Created? ==> outcome.id == newId
      ensures db.songs == if outcome.Created?
                          then old(db.songs)[newId := NewSongDoc(SongData(old(formData),
                                 if old(audioFile).Some? then Some(DownloadUrl(AudioKey(now, old(audioFile).value.name)))
                                 else None), now)]
                          else old(db.songs)
      ensures db.categories == old(db.categories)
      ensures formData == old(formData) && categories == old(categories) && audioFile == old(audioFile)
    {
      loadingDuringWrites := false;
      if formData.title == "" || formData.lyrics == "" {
        return Refused, loadingDuringWrites;
      }
      loading := true;
      loadingDuringWrites := loading;
      var audioUrl: Option<string> := None;
      if audioFile.Some? {
        var uploaded := UploadAudioFile(db, audioFile.value, formData.title, now, uploadFails, urlFails);
        if uploaded.Err? {
          loading := false;
          return Failed(uploaded.error), loadingDuringWrites;
        }
        audioUrl := Some(uploaded.value);
      }
      var created := CreateSong(db, SongData(formData, audioUrl), now, newId, createFails);
      outcome := if created.Ok? then Created(created.value) else Failed(created.error);
      loading := false;
    }
  }
}
