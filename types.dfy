/** The catalog's records (lib/types.ts) and the shapes in which the
    document store keeps them. */
module Types {
  import opened Js
  import opened Wrappers

  /** Free-form song metadata; the values are abstracted to strings. */
  type Metadata = map<string, string>

  /** A file chosen in the browser: its name, MIME type and size in bytes. */
  datatype File = File(name: string, mimeType: string, size: nat)

  /** A song as the service layer hands it to pages (interface Song). */
  datatype Song = Song(
    id: string,
    title: string,
    lyrics: string,
    categoryIds: seq<string>,
    audioUrl: Field<string>,
    thumbnailUrl: Field<string>,
    playCount: int,
    createdAt: int,
    updatedAt: int,
    metadata: Field<Metadata>)

  /** A category as the service layer hands it to pages (interface Category). */
  datatype Category = Category(
    id: string,
    name: string,
    description: Field<string>,
    iconUrl: Field<string>,
    order: int,
    createdAt: int)

  /** What the song form hands to its `onSubmit` (interface SongFormData,
      with the `imageFile` and `imageUrl` that the form also sets). */
  datatype SongFormData = SongFormData(
    title: string,
    lyrics: string,
    categoryIds: seq<string>,
    audioFile: Option<File>,
    audioUrl: Option<string>,
    imageFile: Option<File>,
    imageUrl: Field<string>)

  /** A stored song document. Every field but the two texts may be missing
      or null; timestamps are milliseconds. */
  datatype SongDoc = SongDoc(
    title: string,
    lyrics: string,
    categoryIds: Field<seq<string>>,
    audioUrl: Field<string>,
    thumbnailUrl: Field<string>,
    playCount: Field<Number>,
    createdAt: Field<int>,
    updatedAt: Field<int>,
    metadata: Field<Metadata>)

  /** A stored category document. */
  datatype CategoryDoc = CategoryDoc(
    name: string,
    description: Field<string>,
    iconUrl: Field<string>,
    order: Field<Number>,
    createdAt: Field<int>)

  /** `x || null` for an optional string argument. */
  function OptionOrNull(o: Option<string>): Field<string> {
    if o.Some? then OrNull(Val(o.value)) else Null
  }

  /** A supplied value, or the stored one when none was supplied. */
  function Overwrite<T>(supplied: Option<T>, current: Field<T>): Field<T> {
    if supplied.Some? then Val(supplied.value) else current
  }
}
