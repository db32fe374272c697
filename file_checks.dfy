/** The checks a chosen file must pass before a form keeps it: its MIME type
    must be one of a fixed list, and only then its size must be within a
    limit (components/SongForm.tsx, components/AudioUpload.tsx). */
module FileChecks {
  import opened Types

  datatype Verdict = Accepted | WrongType | TooLarge

  const MiB: nat := 1024 * 1024

  const AudioTypes: set<string> := {"audio/mpeg", "audio/wav", "audio/aac", "audio/mp3"}
  const MaxAudioSize: nat := 50 * MiB

  const ImageTypes: set<string> := {"image/jpeg", "image/jpg", "image/png", "image/webp"}
  const MaxImageSize: nat := 5 * MiB

  /** The type is checked first; the size limit is inclusive. */
  function Check(f: File, types: set<string>, maxSize: nat): (v: Verdict)
    ensures v == Accepted <==> f.mimeType in types && f.size <= maxSize
    ensures v == WrongType <==> f.mimeType !in types
    ensures v == TooLarge <==> f.mimeType in types && f.size > maxSize
  {
    if f.mimeType !in types then WrongType
    else if f.size > maxSize then TooLarge
    else Accepted
  }

  function CheckAudio(f: File): Verdict {
    Check(f, AudioTypes, MaxAudioSize)
  }

  function CheckImage(f: File): Verdict {
    Check(f, ImageTypes, MaxImageSize)
  }

  /** A file of exactly 50 MiB passes the audio check although the message
      speaks of "less than 50MB"; one byte more does not. The image limit
      behaves the same at 5 MiB. */
  lemma LimitsAreInclusive(name: string)
    ensures CheckAudio(File(name, "audio/mpeg", 52428800)) == Accepted
    ensures CheckAudio(File(name, "audio/mpeg", 52428801)) == TooLarge
    ensures CheckImage(File(name, "image/png", 5242880)) == Accepted
    ensures CheckImage(File(name, "image/png", 5242881)) == TooLarge
  {
  }
}
