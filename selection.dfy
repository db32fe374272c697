/** Picking the categories of a song with check boxes
    (`handleCategoryToggle` in components/SongForm.tsx and in
    app/dashboard/songs/new/page.tsx). */
module Selection {
  import opened Seqs

  /** `x => x !== id`. */
  function Other(id: string): string -> bool {
    (x: string) => x != id
  }

  /** The list after clicking `id`: a selected id is dropped (every copy of
      it), an unselected one is appended at the end. */
  function Toggle(ids: seq<string>, id: string): (r: seq<string>)
    ensures id in r <==> id !in ids
    ensures forall x :: x != id ==> (x in r <==> x in ids)
    ensures id !in ids ==> r == ids + [id]
  {
    if id in ids then Filter(Other(id), ids) else ids + [id]
  }

  /** Clicking `id` leaves the other ids where they were. */
  lemma ToggleKeepsOthers(ids: seq<string>, id: string)
    ensures Filter(Other(id), Toggle(ids, id)) == Filter(Other(id), ids)
  {
    if id in ids {
      FilterKeepsAll(Other(id), Filter(Other(id), ids));
    } else {
      FilterAppend(Other(id), ids, [id]);
      assert Filter(Other(id), [id]) == [];
    }
  }

  /** Clicking an unselected id twice restores the list; clicking a selected
      id twice leaves it once, at the end. */
  lemma ToggleTwice(ids: seq<string>, id: string)
    ensures id !in ids ==> Toggle(Toggle(ids, id), id) == ids
    ensures id in ids ==> Toggle(Toggle(ids, id), id) == Filter(Other(id), ids) + [id]
  {
    if id !in ids {
      FilterAppend(Other(id), ids, [id]);
      assert Filter(Other(id), [id]) == [];
      FilterKeepsAll(Other(id), ids);
    }
  }
}
