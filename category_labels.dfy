/** The category column of the song lists (`getCategoryNames` in
    app/songs/page.tsx and app/dashboard/songs/page.tsx): each id is looked
    up among the loaded categories, unknown ids and empty names are skipped,
    and the names are joined with ", ". */
module CategoryLabels {
  import opened Wrappers
  import opened Js
  import opened Seqs

  /** `categories.find(cat => cat.id === id)?.name` over (id, name) pairs:
      the name of the first category with that id. */
  function FindName(cats: seq<(string, string)>, id: string): (r: Option<string>)
    ensures r.None? <==> forall i :: 0 <= i < |cats| ==> cats[i].0 != id
    ensures r.Some? ==> exists i :: 0 <= i < |cats| && cats[i] == (id, r.value)
                                    && forall j :: 0 <= j < i ==> cats[j].0 != id
  {
    if cats == [] then None
    else if cats[0].0 == id then Some(cats[0].1)
    else
      var r := FindName(cats[1..], id);
      if r.Some? then
        var i :| 0 <= i < |cats[1..]| && cats[1..][i] == (id, r.value)
                 && forall j :: 0 <= j < i ==> cats[1..][j].0 != id;
        assert cats[i + 1] == (id, r.value);
        r
      else r
  }

  /** The name shown for one id; a missing one is shown as nothing. */
  function NameOf(cats: seq<(string, string)>): string -> string {
    (id: string) => FindName(cats, id).GetOr("")
  }

  /** `.filter(Boolean)` on names: drops undefined and empty names. */
  function NonEmpty(): string -> bool {
    (n: string) => n != ""
  }

  function CategoryNames(ids: seq<string>, cats: seq<(string, string)>): string {
    Join(Filter(NonEmpty(), Map(NameOf(cats), ids)), ", ")
  }

  /** The label is empty, and the list shows its fallback, exactly when no id
      of the song names a loaded category with a non-empty name. */
  lemma LabelEmptyIff(ids: seq<string>, cats: seq<(string, string)>)
    ensures CategoryNames(ids, cats) == "" <==>
              forall i :: 0 <= i < |ids| ==> NameOf(cats)(ids[i]) == ""
  {
    var names := Map(NameOf(cats), ids);
    var shown := Filter(NonEmpty(), names);
    if shown == [] {
      forall i | 0 <= i < |ids| ensures NameOf(cats)(ids[i]) == "" {
        assert names[i] == NameOf(cats)(ids[i]);
      }
    } else {
      assert shown[0] in names && shown[0] != "";
    }
  }
}
