/** The audio picker component (components/AudioUpload.tsx). It keeps the
    chosen file and a preview URL, and reports every change to its parent
    through `onFileSelect`. */
module AudioUploadComponent {
  import opened Wrappers
  import opened Types
  import opened FileChecks

  class AudioUpload {
    var selectedFile: Option<File>
    var previewUrl: Option<string>

    /** A chosen file always has a preview. */
    predicate Valid()
      reads this
    {
      selectedFile.Some? ==> previewUrl.Some?
    }

    /** Starts with no file and previews the current audio URL, if any. */
    constructor(currentAudioUrl: Option<string>)
      ensures Valid()
      ensures selectedFile == None
      ensures previewUrl == if currentAudioUrl.Some? && currentAudioUrl.value != "" then currentAudioUrl else None
    {
      selectedFile := None;
      previewUrl := if currentAudioUrl.Some? && currentAudioUrl.value != "" then currentAudioUrl else None;
    }

    /** `handleFileChange`: a file that passes the audio check is kept,
        previewed through `objectUrl` and passed to `onFileSelect`
        (`notify`); a refused one changes nothing and is not passed on. */
    method HandleFileChange(chosen: Option<File>, objectUrl: string)
      returns (alert: Option<Verdict>, notify: Option<Option<File>>)
      requires Valid()
      modifies this
      ensures Valid()
      ensures alert == if chosen.Some? && CheckAudio(chosen.value) != Accepted
                       then Some(CheckAudio(chosen.value)) else None
      ensures notify == if chosen.Some? && alert.None? then Some(chosen) else None
      ensures selectedFile == if notify.Some? then chosen else old(selectedFile)
      ensures previewUrl == if notify.Some? then Some(objectUrl) else old(previewUrl)
    {
      alert, notify := None, None;
      if chosen.Some? {
        var verdict := CheckAudio(chosen.value);
        if verdict != Accepted {
          alert := Some(verdict);
          return;
        }
        selectedFile := chosen;
        previewUrl := Some(objectUrl);
        notify := Some(chosen);
      }
    }

    /** `handleRemove`: forgets the file and the preview and tells the
        parent that there is no file. */
    method HandleRemove() returns (notify: Option<Option<File>>)
      modifies this
      ensures Valid()
      ensures selectedFile == None && previewUrl == None
      ensures notify == Some(None)
    {
      selectedFile := None;
      previewUrl := None;
      notify := Some(None);
    }
  }
}
