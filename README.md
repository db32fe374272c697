# MezmurHub-Admin catalog model

MezmurHub-Admin is an admin console for a catalog of songs (mezmur) and
their categories. The data lives in a hosted document store: a `songs`
collection and a `categories` collection. Audio and image files live in a
blob store. This project is a Dafny model of the console's catalog logic,
with proofs about it:

- the song and category services that read, create, update and delete
  documents and upload files;
- the song form and the audio picker components;
- the eight pages that list, create, edit and delete songs and categories;
- the dashboard statistics.

How the model is built:

- **Stores.** The document and blob stores are one object, `Firebase.Backend`.
  It holds three maps: songs, categories and blobs.
  - Each store primitive is a method. It is `addDoc`, `getDoc`, `deleteDoc`,
    `uploadBytes`, `getDownloadURL` or `deleteObject`.
  - Each primitive takes a flag that says whether the remote call fails.
- **Query results.** A query result (`getDocs`) is an input snapshot.
  - A `requires` says that the snapshot is the answer to the query over the
    current store.
  - The answer has exactly the matching documents.
  - Its order is the store's order: the `orderBy` field first, then the
    document id.
- **JavaScript values.** These are modelled explicitly:
  - `undefined`, `null` and a value (`Js.Field`);
  - numbers that may be NaN (`Js.Number`);
  - truthiness and `||`;
  - `trim`, `parseInt`, `` `${n}` ``, `join` and `substring`.
- **Components and pages.** Each is a class. Its fields are the React state;
  its methods are the handlers.
- **Inputs.** The clock, `confirm()` answers, file-reader results and object
  URLs are parameters.

Points where the code behaves in ways that are easy to miss:

- **Order of equal keys.** Categories with equal `order`, and songs with
  equal `createdAt`, come back in document-id order, the store's tie-break,
  not insertion order.
- **Name validation.** `createCategory` does not check the name. Only
  app/categories/new/page.tsx refuses a blank name.
- **Song validation.** `createSong` does not validate either. Each form
  validates differently:
  - components/SongForm.tsx trims the title and lyrics and requires a category;
  - app/dashboard/songs/new/page.tsx only refuses empty strings.
- **Upload keys can collide.** Two uploads collide when they happen in the
  same millisecond and their names sanitise alike, such as `a b.mp3` and
  `a_b.mp3`. `SongService.StorageKeyInjective` proves the rest: a key
  determines its timestamp and its sanitised name.

## Model

| member | source | states |
|---|---|---|
| Js.OrZero | lib/services/category-service.ts:30 | `n \|\| 0`: NaN and 0 give 0, any other integer is kept |
| Js.FieldOrZero | lib/services/song-service.ts:34 | `field \|\| 0` on a stored number is non-zero exactly when the field holds a truthy number; missing, null, NaN and 0 all read as 0 |
| Js.Trim | components/SongForm.tsx:118-126 | `trim()` yields the middle of the text: what it drops on each side is all white space, and it neither starts nor ends with white space |
| Js.TrimEmptyIff | components/SongForm.tsx:118-126 | a trimmed text is empty exactly when the text is all white space |
| Js.TrimIdempotent | app/categories/new/page.tsx:31-32 | trimming twice equals trimming once |
| Js.IntToString | lib/services/song-service.ts:125 | `${timestamp}` starts with a minus sign or a digit and holds no `_` and no white space, so the `_` after it in a storage key is the first one |
| Js.ParseIntOfIntToString | app/categories/new/page.tsx:136 | `parseInt` of the decimal text of any integer gives that integer back |
| Js.IntToStringInjective | lib/services/song-service.ts:125 | different timestamps have different decimal texts |
| Js.Join | app/songs/page.tsx:70-75 | joining non-empty names gives "" exactly when there are no names |
| Seqs.Filter | app/songs/page.tsx:62 | `filter` keeps exactly the elements that pass, and nothing else |
| Seqs.SortedUnique | lib/services/song-service.ts:147-151 | two listings of the same documents that are both in a strict order are equal |
| Firebase.SongOrderIsStrict | lib/services/song-service.ts:22 | newest `createdAt` first (null last), equal times in descending document-id order, is a strict order |
| Firebase.CategoryOrderIsStrict | lib/services/category-service.ts:20 | ascending `order` (null, then NaN, then numbers), ties broken by document id, is a strict order |
| Firebase.CollectionSize | app/dashboard/page.tsx:38-39 | `snapshot.size` of a whole collection is the number of stored documents |
| Firebase.RefPathOfDownloadUrl | lib/services/song-service.ts:101-102 | `ref(storage, url)` of a download URL names the object the URL was made for |
| Firebase.Backend.AddSongDoc | lib/services/song-service.ts:81 | `addDoc` stores the document under the new id, or changes nothing on failure |
| Firebase.Backend.GetSongDoc | lib/services/song-service.ts:43-48 | `getDoc` returns the stored document, or none for a missing id; it fails only when the call fails |
| Firebase.Backend.AddCategoryDoc | lib/services/category-service.ts:66 | `addDoc` stores the category under the new id, or changes nothing on failure |
| Firebase.Backend.GetCategoryDoc | lib/services/category-service.ts:37-42 | `getDoc` returns the stored category, or none for a missing id; it fails only when the call fails |
| Firebase.Backend.DeleteCategoryDoc | lib/services/category-service.ts:78-81 | `deleteDoc` removes the id and also succeeds when it is missing |
| Firebase.Backend.UploadBytes | lib/services/song-service.ts:128 | `uploadBytes` stores the file at the path, replacing what was there, or changes nothing on failure |
| Firebase.Backend.DeleteSongDoc | lib/services/song-service.ts:119-120 | `deleteDoc` removes the id and also succeeds when it is missing |
| Firebase.Backend.DeleteObject | lib/services/song-service.ts:101-102 | `deleteObject` succeeds exactly when the URL names a stored object, and then removes only that object |
| Firebase.Backend.GetDownloadUrl | lib/services/song-service.ts:129 | `getDownloadURL` fails for a missing object and otherwise gives the URL of its path |
| SongService.ReadDefaults | lib/services/song-service.ts:25-39 | on read, a missing `categoryIds` is `[]`, a falsy `playCount` is 0, a missing timestamp is now, and the rest passes through |
| SongService.GetAllSongs | lib/services/song-service.ts:20-40 | returns exactly the ids of the songs with a creation time, normalised, newest first |
| SongService.GetSongById | lib/services/song-service.ts:42-63 | fails exactly when the read fails; otherwise null exactly for a missing id, else the normalised song |
| SongService.GetSongsByCategory | lib/services/song-service.ts:145-169 | every returned song carries the category |
| SongService.CategorySongsAreFilteredAllSongs | lib/services/song-service.ts:145-169 | the songs of a category are exactly the full song list filtered by that category, in the same order |
| SongService.CreateSong | lib/services/song-service.ts:65-83 | on success the new id holds the document built from the data (see `CreatedSongReadsBack`); a failure writes nothing; no other collection changes |
| SongService.CreatedSongReadsBack | lib/services/song-service.ts:69-79 | a created song has play count 0, `createdAt == updatedAt`, empty metadata, and a null URL exactly when none or "" was given |
| SongService.UpdateSong | lib/services/song-service.ts:85-93 | merges the patch into an existing document; refused for a missing document or an `undefined` value |
| SongService.UpdateTouchesOnlySupplied | lib/services/song-service.ts:87-90 | `updatedAt` is always now, whatever the caller supplied, and every field not supplied is unchanged |
| SongService.UpdateIdempotent | lib/services/song-service.ts:85-93 | applying the same update twice at the same time equals applying it once |
| SongService.DeleteSong | lib/services/song-service.ts:95-121 | only a failed read aborts. Blob deletes run only for truthy URLs, audio first, and their failures are swallowed. The document delete always runs, even for a missing song. Exactly the objects of successful attempts are removed |
| SongService.TryDeleteAsset | lib/services/song-service.ts:99-106 | one guarded blob delete records its outcome instead of throwing. It can remove only the object its URL names, and with no storage failure that object is gone afterwards |
| SongService.Sanitize | lib/services/song-service.ts:125 | same length; characters in `[A-Za-z0-9._-]` are kept, every other becomes `_` |
| SongService.SanitizeIdempotent | lib/services/song-service.ts:125 | sanitising twice equals once; a name is unchanged exactly when all its characters are allowed |
| SongService.StorageKeyInjective | lib/services/song-service.ts:123-143 | within one folder, a key determines its timestamp and its sanitised name |
| SongService.AudioAndImageKeysDiffer | lib/services/song-service.ts:125-136 | an audio key never equals an image key |
| SongService.UploadAudioFile | lib/services/song-service.ts:123-132 | stores the file under `songs/<now>_<sanitised name>` and returns its download URL; the song title plays no part |
| SongService.UploadImageFile | lib/services/song-service.ts:134-143 | stores the file under `song-images/<now>_<sanitised name>` and returns its download URL |
| CategoryService.GetAllCategories | lib/services/category-service.ts:18-34 | returns exactly the ids of the categories with an order, normalised; entries with integer orders are ascending |
| CategoryService.IntegerOrdersListAscending | lib/services/category-service.ts:18-34 | when every stored order is an integer, the whole list is ascending |
| CategoryService.NaNOrderBreaksAscending | lib/services/category-service.ts:20-30 | a stored NaN order is listed first but reads back as 0, so it can be listed ahead of order -1 |
| CategoryService.GetCategoryById | lib/services/category-service.ts:36-53 | fails exactly when the read fails; otherwise null exactly for a missing id, else the normalised category |
| CategoryService.CreateCategory | lib/services/category-service.ts:55-68 | on success the new id holds the document built from the data (see `CreatedCategoryReadsBack`); a failure writes nothing; no other collection changes |
| CategoryService.CreatedCategoryReadsBack | lib/services/category-service.ts:58-64 | the name is stored as given, a missing or NaN order becomes 0, a missing or empty description or icon URL becomes null and a non-empty one is kept, `createdAt` is now; creating keeps every stored order an integer |
| CategoryService.UpdateCategory | lib/services/category-service.ts:70-76 | merges the patch into an existing document; refused for a missing document or an `undefined` value |
| CategoryService.UpdateTouchesOnlySupplied | lib/services/category-service.ts:70-76 | `createdAt` and every field not supplied are unchanged, there is no update time, the update is idempotent, and a NaN order is what breaks integer orders |
| CategoryService.DeleteCategory | lib/services/category-service.ts:78-81 | removes only that category; songs and blobs are untouched |
| Selection.Toggle | components/SongForm.tsx:48-55 | the clicked id flips membership and a newly selected id goes at the end; every other id keeps its membership |
| Selection.ToggleKeepsOthers | components/SongForm.tsx:49-53 | the other ids keep their relative order |
| Selection.ToggleTwice | app/dashboard/songs/new/page.tsx:77-84 | clicking an unselected id twice restores the list; a selected one ends up once, at the end |
| FileChecks.Check | components/SongForm.tsx:57-98 | accepted exactly when the type is listed and the size is within the limit; the type is checked first |
| FileChecks.LimitsAreInclusive | components/AudioUpload.tsx:26-31 | exactly 50 MiB of audio (5 MiB of image) passes, one byte more does not |
| CategoryLabels.FindName | app/songs/page.tsx:72 | `find` gives the name of the first category with the id, or nothing when there is none |
| CategoryLabels.LabelEmptyIff | app/songs/page.tsx:70-75 | the names are empty exactly when no id names a loaded category with a non-empty name |
| SongFormComponent.SortByOrder | components/SongForm.tsx:42 | the sorted list is a rearrangement of the loaded categories |
| SongFormComponent.SortByOrderSorted | components/SongForm.tsx:42 | when every order is a number or null, the sorted list is ascending by order |
| SongFormComponent.Validate | components/SongForm.tsx:118-131 | refuses a blank title, then blank lyrics, then an empty category list, in that order |
| SongFormComponent.BlankTitleRefused | components/SongForm.tsx:118-121 | a title of only white space is refused like an empty one |
| SongFormComponent.SongForm.constructor | components/SongForm.tsx:17-28 | missing title, lyrics and ids start empty; the preview shows a truthy initial image |
| SongFormComponent.SongForm.FetchCategories | components/SongForm.tsx:34-46 | the list becomes the sorted collection; a failure keeps it |
| SongFormComponent.SongForm.HandleCategoryToggle | components/SongForm.tsx:48-55 | only `categoryIds` changes, by `Toggle` |
| SongFormComponent.SongForm.HandleAudioChange | components/SongForm.tsx:57-75 | an accepted file is kept; a refused one changes nothing and reports why |
| SongFormComponent.SongForm.RemoveAudioFile | components/SongForm.tsx:77-80 | clears the file and the audio URL, nothing else |
| SongFormComponent.SongForm.HandleImageChange | components/SongForm.tsx:82-107 | an accepted image is kept and previewed; a refused one changes nothing and reports why |
| SongFormComponent.SongForm.RemoveImageFile | components/SongForm.tsx:109-113 | clears the file and the preview and sets the image URL to null |
| SongFormComponent.SongForm.HandleSubmit | components/SongForm.tsx:115-143 | a valid form is handed over with the chosen files while `loading` is set; `loading` is cleared even when `onSubmit` fails |
| AudioUploadComponent.AudioUpload.constructor | components/AudioUpload.tsx:12-13 | no file; the preview is the current URL when truthy |
| AudioUploadComponent.AudioUpload.HandleFileChange | components/AudioUpload.tsx:16-37 | an accepted file is kept, previewed and passed to `onFileSelect` once; otherwise nothing changes and nothing is passed |
| AudioUploadComponent.AudioUpload.HandleRemove | components/AudioUpload.tsx:39-46 | forgets the file and the preview and passes null to `onFileSelect` |
| SongsNewPage.HandleSubmit | app/songs/new/page.tsx:16-47 | uploads before writing under the unsanitised key; a failed upload writes no document; an upload stays even when the write fails; the chosen image is ignored |
| SongsNewPage.RawKeyIsServiceKeyIff | app/songs/new/page.tsx:22 | the page's key equals the service's key exactly when the file name needs no sanitising |
| SongsNewPage.PageSongReadsBack | app/songs/new/page.tsx:28-38 | the new song has play count 0 and no thumbnail; its audio URL is null exactly when there is no file and no non-empty URL |
| DashboardSongsNewPage.Page.HandleSubmit | app/dashboard/songs/new/page.tsx:38-75 | refuses exactly an empty title or lyrics. Uploads through the service before creating. A failed upload creates nothing. Without a file the song has no audio URL. `loading` is set during the writes and cleared after |
| DashboardSongsNewPage.Page.constructor | app/dashboard/songs/new/page.tsx:16-24 | not loading, no categories, no file, an empty form |
| DashboardSongsNewPage.Page.LoadCategories | app/dashboard/songs/new/page.tsx:26-36 | the list becomes the service's list; a failure keeps it |
| DashboardSongsNewPage.Page.OnFileSelect | app/dashboard/songs/new/page.tsx:167 | `setAudioFile`: the page's file becomes what the picker passed |
| DashboardSongsNewPage.Page.HandleCategoryToggle | app/dashboard/songs/new/page.tsx:77-84 | only `categoryIds` changes, by `Toggle` |
| DashboardSongsNewPage.Page.ChooseAudio | app/dashboard/songs/new/page.tsx:167 | the page's file follows the picker: set when the picker accepts a file, unchanged otherwise |
| DashboardSongsNewPage.Page.RemoveAudio | app/dashboard/songs/new/page.tsx:167 | removing in the picker clears the page's file |
| CategoriesNewPage.Page.constructor | app/categories/new/page.tsx:12-17 | an empty name and description, order 0, not loading |
| CategoriesNewPage.Page.HandleOrderInput | app/categories/new/page.tsx:136 | the form's order becomes `parseInt(value) \|\| 0` of the input |
| CategoriesNewPage.Page.HandleSubmit | app/categories/new/page.tsx:20-46 | refuses a blank name before any write; otherwise stores the trimmed name, the trimmed description or null, no icon, and the order as entered |
| CategoriesNewPage.StoredCategoryIsTrimmed | app/categories/new/page.tsx:31-32 | the stored name is non-blank and already trimmed; the description is null exactly when it was blank |
| CategoriesNewPage.OrderInputReadsNumbers | app/categories/new/page.tsx:136 | typing any integer, negative ones included, sets that order; text with no leading number sets 0 |
| DashboardCategoriesPage.Page.constructor | app/dashboard/categories/page.tsx:16-25 | no categories, loading, modal hidden, nothing edited, an empty form, not saving |
| DashboardCategoriesPage.Page.LoadCategories | app/dashboard/categories/page.tsx:31-41 | the list becomes the service's list; a failure keeps it; loading ends |
| DashboardCategoriesPage.Page.HandleOpenModal | app/dashboard/categories/page.tsx:43-60 | editing pre-fills name, description (`''` if absent) and order; creating empties the form with order = number of categories |
| DashboardCategoriesPage.Page.HandleCloseModal | app/dashboard/categories/page.tsx:62-66 | hides the modal, clears the edited category, resets the form |
| DashboardCategoriesPage.Page.HandleOrderInput | app/dashboard/categories/page.tsx:227 | the form's order becomes `parseInt` of the input, NaN included |
| DashboardCategoriesPage.Page.HandleOrderInputOrZero | app/dashboard/categories/page.tsx:227 | the order input with the `\|\| 0` fallback: the form's order is always an integer |
| DashboardCategoriesPage.Page.HandleSubmit | app/dashboard/categories/page.tsx:68-88 | updates when editing, creates otherwise. On success it reloads, which clears `loading`, and closes the modal. On failure the modal, list and `loading` stay. `saving` is set during the save and cleared after |
| DashboardCategoriesPage.Page.HandleDelete | app/dashboard/categories/page.tsx:90-103 | nothing without confirmation; the row goes only after a successful delete |
| DashboardCategoriesPage.EmptyDescriptionDependsOnPath | app/dashboard/categories/page.tsx:74-77 | an empty description is written as "" by an edit but as null by a create |
| DashboardCategoriesPage.ClearedOrderInputStoresNaN | app/dashboard/categories/page.tsx:227 | a cleared order input is NaN, and an edit stores it |
| DashboardCategoriesPage.IntegerFormOrderKeepsIntegerOrders | app/dashboard/categories/page.tsx:68-88 | with an integer form order, every save keeps all stored orders integers |
| SongsPage.Page.constructor | app/songs/page.tsx:13-15 | no songs, no categories, loading |
| SongsPage.Page.FetchSongs | app/songs/page.tsx:22-39 | the list becomes the raw documents, newest first; a failure keeps it |
| SongsPage.Page.FetchCategories | app/songs/page.tsx:41-53 | the list becomes the raw category documents; a failure keeps it |
| SongsPage.Page.HandleDelete | app/songs/page.tsx:55-68 | nothing without confirmation; deletes only the document, never the files; the row goes only after success, the others keep their order |
| SongsPage.Page.CategoryLabel | app/songs/page.tsx:196 | the cell is the joined names whenever they are not empty, and "No categories" exactly when they are (or spell that text); a song without an id list cannot render |
| DashboardSongsPage.Page.constructor | app/dashboard/songs/page.tsx:13-16 | no songs, no categories, loading, nothing being deleted |
| DashboardSongsPage.Page.LoadData | app/dashboard/songs/page.tsx:22-36 | both lists are set only when both reads succeed |
| DashboardSongsPage.Page.HandleDelete | app/dashboard/songs/page.tsx:38-54 | the button is disabled while the delete runs and `deleting` is cleared after. A confirmed delete has `deleteSong`'s store effect: the document goes unless the read or the document delete fails, the song's asset URLs are attempted, and exactly the objects of successful attempts are removed. The row goes only after `deleteSong` succeeds |
| DashboardSongsPage.Page.CategoryLabel | app/dashboard/songs/page.tsx:136 | the cell is the joined names whenever they are not empty, and "-" exactly when they are (or are "-"); never empty |
| DashboardSongsPage.LyricsPreview | app/dashboard/songs/page.tsx:132 | the first 60 characters, or all when fewer |
| CategoriesPage.Page.constructor | app/categories/page.tsx:13-14 | no categories, loading |
| CategoriesPage.Page.FetchCategories | app/categories/page.tsx:20-36 | the list becomes the categories with an order, ascending; a failure keeps it |
| CategoriesPage.Page.HandleDelete | app/categories/page.tsx:38-51 | nothing without confirmation; only the category document goes; songs keep the id; the row goes only after success |
| DashboardPage.MissedRecentMeansFull | app/dashboard/page.tsx:26-35 | a recent song missing from the 100 newest means all 100 shown are recent |
| DashboardPage.Page.constructor | app/dashboard/page.tsx:10-15 | all counts 0, loading |
| DashboardPage.RecentCountIsCapped | app/dashboard/page.tsx:26-35 | the recent count is the number of stored songs created after the threshold, capped at 100 |
| DashboardPage.Page.FetchStats | app/dashboard/page.tsx:18-47 | the totals are the collection sizes and the recent count is as above; on any failure the stats keep their values (0 initially) |

## Left out

- Network behaviour, asynchrony and interleaving of the store calls: each call is atomic, and its failure is an input flag.
- Real download URLs: the bucket name, the URL encoding of the path and the access token are abstracted to a fixed prefix plus the path.
- `serverTimestamp()`: it is a plain integer input. `Date.now()` and `new Date()` calls in one handler share one `now`.
- The week-ago threshold: calendar arithmetic (`setDate(getDate() - 7)`) is replaced by an integer input.
- Character sets: texts are sequences of characters. UTF-16 code units, surrogate pairs and number precision above 2^53 are not modelled.
- `parseInt`: the radix argument is not modelled (the code never passes one), and values above 2^53 are read as exact integers rather than rounded to the nearest double.
- Browser constraint validation is not modelled; the submit handlers run as if invoked. This covers `min="0"` and `required`.
- The `FileReader` preview arrives at once, not on a later event. `URL.createObjectURL` is an input.
- AudioUpload: clearing the DOM input's value on remove is not modelled, because it is a DOM reference, not state.
- `toast`, `alert`, `console`, router navigation, `date-fns` formatting and all rendering are left out. Two exceptions are modelled: the category cell and the lyrics preview.
- SongFormComponent.SortByOrderSorted: with a NaN or missing order the comparator is inconsistent, so engine sort order is unspecified. The model uses a stable insertion sort and claims only that the result is a rearrangement of the input. Stability is not stated.
- SongService.GetSongsByCategory: the composite-index requirement of the query is one more failure input.
- Metadata values are strings rather than arbitrary JSON.
- CreateSongData, UpdateSongData and CreateCategoryData are not part of lib/types.ts. Their fields are taken from what the services read.
- The edit pages (app/songs/[id]/edit, app/dashboard/songs/[id]/edit, app/categories/[id]/edit) are not part of this model.
- Login, authentication, middleware, the admin script, the rich-text editor, the sidebar, the layout and the styling are not part of this model.

## Findings

| source | as written | input that shows it | evidently intended | confidence | as-written member | corrected member |
|---|---|---|---|---|---|---|
| app/dashboard/categories/page.tsx:227 | the order input stores `parseInt(value)` with no fallback, so a cleared field is NaN, and editing a category writes NaN through `updateCategory`. The store sorts NaN before every number, but reads turn it into 0 | edit a category, clear its order and save, while another category has order -1: the list shows order 0 above order -1 | `parseInt(value) \|\| 0`, as app/categories/new/page.tsx:136 does, so stored orders stay integers and the list stays ascending | medium, not executed | DashboardCategoriesPage.Page.HandleOrderInput, DashboardCategoriesPage.ClearedOrderInputStoresNaN, CategoryService.NaNOrderBreaksAscending | DashboardCategoriesPage.Page.HandleOrderInputOrZero, DashboardCategoriesPage.IntegerFormOrderKeepsIntegerOrders, CategoryService.IntegerOrdersListAscending |
