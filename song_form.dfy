/** The song form component (components/SongForm.tsx): its state, the
    handlers that change it, and the checks run before `onSubmit`. */
module SongFormComponent {
  import opened Js
  import opened Wrappers
  import opened Types
  import opened Seqs
  import opened Firebase
  import opened Selection
  import opened FileChecks

  /** `initialData`, a `Partial<SongFormData>`: every field may be missing. */
  datatype SongFormInit = SongFormInit(
    title: Option<string>,
    lyrics: Option<string>,
    categoryIds: Option<seq<string>>,
    audioUrl: Option<string>,
    imageUrl: Field<string>)

  /** Why the form refused to submit, in the order the checks run. */
  datatype Missing = MissingTitle | MissingLyrics | MissingCategory

  datatype SubmitOutcome =
    | Rejected(reason: Missing)
    | Submitted(data: SongFormData, failed: bool)

  // ---------------------------------------------------------------------------
  // Ordering the category check boxes

  /** The number `a.order - b.order` sees for a raw stored order: a missing
      field is `undefined` (NaN), null counts as 0. */
  function OrderValue(d: CategoryDoc): Number {
    match d.order
    case Absent => NaN
    case Null => Int(0)
    case Val(n) => n
  }

  /** `a.order - b.order < 0`: false as soon as either side is NaN. */
  predicate OrderLess(a: (string, CategoryDoc), b: (string, CategoryDoc)) {
    OrderValue(a.1).Int? && OrderValue(b.1).Int? && OrderValue(a.1).i < OrderValue(b.1).i
  }

  /** Puts `x` in front of the first entry that does not sort before it. */
  function InsertByOrder(x: (string, CategoryDoc), s: seq<(string, CategoryDoc)>): (r: seq<(string, CategoryDoc)>)
    ensures multiset(r) == multiset(s) + multiset{x}
  {
    if s == [] || !OrderLess(s[0], x) then [x] + s
    else
      assert s == [s[0]] + s[1..];
      [s[0]] + InsertByOrder(x, s[1..])
  }

  /** `categories.sort((a, b) => a.order - b.order)`, as a stable insertion
      sort. */
  function SortByOrder(s: seq<(string, CategoryDoc)>): (r: seq<(string, CategoryDoc)>)
    ensures multiset(r) == multiset(s)
  {
    if s == [] then []
    else
      assert s == [s[0]] + s[1..];
      InsertByOrder(s[0], SortByOrder(s[1..]))
  }

  predicate NumericOrder(d: (string, CategoryDoc)) {
    OrderValue(d.1).Int?
  }

  /** The numeric order of an entry with one. */
  function OrderNumber(d: (string, CategoryDoc)): int {
    if OrderValue(d.1).Int? then OrderValue(d.1).i else 0
  }

  /** Ascending by numeric order. */
  ghost predicate OrderSorted(s: seq<(string, CategoryDoc)>) {
    forall i, j :: 0 <= i < j < |s| ==> OrderNumber(s[i]) <= OrderNumber(s[j])
  }

  lemma {:induction false} InsertByOrderSorted(x: (string, CategoryDoc), s: seq<(string, CategoryDoc)>)
    requires NumericOrder(x) && forall i :: 0 <= i < |s| ==> NumericOrder(s[i])
    requires OrderSorted(s)
    ensures forall i :: 0 <= i < |InsertByOrder(x, s)| ==> NumericOrder(InsertByOrder(x, s)[i])
    ensures OrderSorted(InsertByOrder(x, s))
  {
    InsertKeepsNumeric(x, s);
    if s != [] && OrderLess(s[0], x) {
      var t := InsertByOrder(x, s[1..]);
      InsertByOrderSorted(x, s[1..]);
      HeadBelowInsert(x, s);
      assert InsertByOrder(x, s) == [s[0]] + t;
    }
  }

  /** Inserting a numeric entry among numeric entries leaves only numeric
      entries. */
  lemma InsertKeepsNumeric(x: (string, CategoryDoc), s: seq<(string, CategoryDoc)>)
    requires NumericOrder(x) && forall i :: 0 <= i < |s| ==> NumericOrder(s[i])
    ensures forall i :: 0 <= i < |InsertByOrder(x, s)| ==> NumericOrder(InsertByOrder(x, s)[i])
  {
    var r := InsertByOrder(x, s);
    forall i | 0 <= i < |r| ensures NumericOrder(r[i]) {
      assert r[i] in multiset(r);
    }
  }

  /** When `x` goes past the head of a sorted `s`, that head is no larger
      than anything in the rest after the insertion. */
  lemma HeadBelowInsert(x: (string, CategoryDoc), s: seq<(string, CategoryDoc)>)
    requires s != [] && OrderLess(s[0], x) && OrderSorted(s)
    ensures forall j :: 0 <= j < |InsertByOrder(x, s[1..])| ==>
              OrderNumber(s[0]) <= OrderNumber(InsertByOrder(x, s[1..])[j])
  {
    var t := InsertByOrder(x, s[1..]);
    forall j | 0 <= j < |t| ensures OrderNumber(s[0]) <= OrderNumber(t[j]) {
      assert t[j] in multiset(t);
      if t[j] != x {
        assert t[j] in multiset(s[1..]);
        var k :| 0 <= k < |s[1..]| && s[1..][k] == t[j];
        assert s[k + 1] == t[j];
      }
    }
  }

  /** With every order a number (or null), the sort lists the categories in
      ascending order, and always as a rearrangement of what was loaded. */
  lemma {:induction false} SortByOrderSorted(s: seq<(string, CategoryDoc)>)
    requires forall i :: 0 <= i < |s| ==> NumericOrder(s[i])
    ensures forall i :: 0 <= i < |SortByOrder(s)| ==> NumericOrder(SortByOrder(s)[i])
    ensures OrderSorted(SortByOrder(s))
  {
    if s != [] {
      SortByOrderSorted(s[1..]);
      InsertByOrderSorted(s[0], SortByOrder(s[1..]));
    }
  }

  // ---------------------------------------------------------------------------
  // Submitting

  /** The checks `handleSubmit` runs, in order: a title that is not blank,
      lyrics that are not blank, at least one category. */
  function Validate(d: SongFormData): (r: Option<Missing>)
    ensures r == Some(MissingTitle) <==> Trim(d.title) == ""
    ensures r == Some(MissingLyrics) <==> Trim(d.title) != "" && Trim(d.lyrics) == ""
    ensures r == Some(MissingCategory) <==> Trim(d.title) != "" && Trim(d.lyrics) != "" && d.categoryIds == []
    ensures r == None <==> Trim(d.title) != "" && Trim(d.lyrics) != "" && d.categoryIds != []
  {
    if Trim(d.title) == "" then Some(MissingTitle)
    else if Trim(d.lyrics) == "" then Some(MissingLyrics)
    else if d.categoryIds == [] then Some(MissingCategory)
    else None
  }

  /** A title made only of white space is refused, as is an empty one. */
  lemma BlankTitleRefused(d: SongFormData)
    ensures Validate(d) == Some(MissingTitle) <==> AllWhiteSpace(d.title)
  {
    TrimEmptyIff(d.title);
  }

  class SongForm {
    var formData: SongFormData
    var categories: seq<(string, CategoryDoc)>
    var audioFile: Option<File>
    var imageFile: Option<File>
    var imagePreview: Option<string>
    var loading: bool

    /** The initial state: missing texts and ids become empty, the preview
        shows the initial image when there is one. */
    constructor(init: SongFormInit)
      ensures formData == SongFormData(init.title.GetOr(""), init.lyrics.GetOr(""),
                                       init.categoryIds.GetOr([]), None, init.audioUrl, None, init.imageUrl)
      ensures categories == [] && audioFile == None && imageFile == None && !loading
      ensures imagePreview == if Truthy(init.imageUrl) then Some(init.imageUrl.value) else None
    {
      formData := SongFormData(init.title.GetOr(""), init.lyrics.GetOr(""),
                               init.categoryIds.GetOr([]), None, init.audioUrl, None, init.imageUrl);
      categories := [];
      audioFile := None;
      imageFile := None;
      imagePreview := if Truthy(init.imageUrl) then Some(init.imageUrl.value) else None;
      loading := false;
    }

    /** `fetchCategories`: loads every category document and sorts them by
        order; on failure the list stays as it was. */
    method FetchCategories(db: Backend, snapshot: seq<(string, CategoryDoc)>, fails: bool)
      requires IsCollection(db.categories, snapshot)
      modifies this
      ensures categories == if fails then old(categories) else SortByOrder(snapshot)
      ensures formData == old(formData) && audioFile == old(audioFile) && imageFile == old(imageFile)
      ensures imagePreview == old(imagePreview) && loading == old(loading)
    {
      if !fails {
        categories := SortByOrder(snapshot);
      }
    }

    method HandleCategoryToggle(id: string)
      modifies this
      ensures formData == old(formData).(categoryIds := Toggle(old(formData).categoryIds, id))
      ensures categories == old(categories) && audioFile == old(audioFile) && imageFile == old(imageFile)
      ensures imagePreview == old(imagePreview) && loading == old(loading)
    {
      formData := formData.(categoryIds := Toggle(formData.categoryIds, id));
    }

    /** `handleAudioChange`: keeps a chosen file that passes the audio check,
        otherwise reports why (nothing is reported when no file was chosen). */
    method HandleAudioChange(chosen: Option<File>) returns (alert: Option<Verdict>)
      modifies this
      ensures alert == if chosen.Some? && CheckAudio(chosen.value) != Accepted
                       then Some(CheckAudio(chosen.value)) else None
      ensures audioFile == if chosen.Some? && alert.None? then chosen else old(audioFile)
      ensures formData == old(formData) && categories == old(categories) && imageFile == old(imageFile)
      ensures imagePreview == old(imagePreview) && loading == old(loading)
    {
      alert := None;
      if chosen.Some? {
        var verdict := CheckAudio(chosen.value);
        if verdict != Accepted {
          return Some(verdict);
        }
        audioFile := chosen;
      }
    }

    method RemoveAudioFile()
      modifies this
      ensures audioFile == None && formData == old(formData).(audioUrl := None)
      ensures categories == old(categories) && imageFile == old(imageFile)
      ensures imagePreview == old(imagePreview) && loading == old(loading)
    {
      audioFile := None;
      formData := formData.(audioUrl := None);
    }

    /** `handleImageChange`: keeps a chosen image that passes the image
        check and previews it as `dataUrl` (what the file reader yields). */
    method HandleImageChange(chosen: Option<File>, dataUrl: string) returns (alert: Option<Verdict>)
      modifies this
      ensures alert == if chosen.Some? && CheckImage(chosen.value) != Accepted
                       then Some(CheckImage(chosen.value)) else None
      ensures imageFile == if chosen.Some? && alert.None? then chosen else old(imageFile)
      ensures imagePreview == if chosen.Some? && alert.None? then Some(dataUrl) else old(imagePreview)
      ensures formData == old(formData) && categories == old(categories) && audioFile == old(audioFile)
      ensures loading == old(loading)
    {
      alert := None;
      if chosen.Some? {
        var verdict := CheckImage(chosen.value);
        if verdict != Accepted {
          return Some(verdict);
        }
        imageFile := chosen;
        imagePreview := Some(dataUrl);
      }
    }

    /** `removeImageFile`: the stored image URL becomes null, so an edit
        clears it rather than leaving it alone. */
    method RemoveImageFile()
      modifies this
      ensures imageFile == None && imagePreview == None && formData == old(formData).(imageUrl := Null)
      ensures categories == old(categories) && audioFile == old(audioFile) && loading == old(loading)
    {
      imageFile := None;
      imagePreview := None;
      formData := formData.(imageUrl := Null);
    }

    /** `handleSubmit`: refuses a form that fails `Validate`; otherwise hands
        the form data with the chosen files to `onSubmit` while `loading` is
        set, and clears `loading` however `onSubmit` ends. */
    method HandleSubmit(onSubmitFails: bool) returns (outcome: SubmitOutcome, ghost loadingDuringSubmit: bool)
      modifies this
      ensures outcome == if Validate(old(formData)).Some? then Rejected(Validate(old(formData)).value)
                         else Submitted(old(formData).(audioFile := old(audioFile), imageFile := old(imageFile)),
                                        onSubmitFails)
      ensures outcome.Submitted? ==> loadingDuringSubmit
      ensures loading == if outcome.Rejected? then old(loading) else false
      ensures formData == old(formData) && categories == old(categories) && audioFile == old(audioFile)
      ensures imageFile == old(imageFile) && imagePreview == old(imagePreview)
    {
      loadingDuringSubmit := loading;
      var missing := Validate(formData);
      if missing.Some? {
        return Rejected(missing.value), loadingDuringSubmit;
      }
      loading := true;
      loadingDuringSubmit := loading;
      outcome := Submitted(formData.(audioFile := audioFile, imageFile := imageFile), onSubmitFails);
      loading := false;
    }
  }
}
