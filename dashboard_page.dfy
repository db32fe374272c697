/** The dashboard's statistics (app/dashboard/page.tsx): the number of
    songs, the number of categories, and how many of the 100 newest songs
    were created in the last week. */
module DashboardPage {
  import opened Types
  import opened Seqs
  import opened Firebase

  datatype Stats = Stats(totalSongs: nat, totalCategories: nat, recentSongs: nat)

  /** How many of the newest songs the recent query fetches. */
  const RecentLimit: nat := 100

  function Min(a: nat, b: nat): nat {
    if a <= b then a else b
  }

  /** Created after `weekAgo` (a song without a creation time is not recent). */
  predicate IsRecent(d: SongDoc, weekAgo: int) {
    d.createdAt.Val? && d.createdAt.value > weekAgo
  }

  function Recent(weekAgo: int): ((string, SongDoc)) -> bool {
    (e: (string, SongDoc)) => IsRecent(e.1, weekAgo)
  }

  /** `recentSnapshot.docs.filter(...).length`. */
  function RecentCount(snap: seq<(string, SongDoc)>, weekAgo: int): nat {
    Count(Recent(weekAgo), snap)
  }

  /** The stored songs created after `weekAgo`. */
  ghost function RecentIds(store: map<string, SongDoc>, weekAgo: int): set<string> {
    set id | id in store && IsRecent(store[id], weekAgo)
  }

  /** `getDocs(query(songs, orderBy('createdAt', 'desc'), limit(100)))`. */
  ghost predicate IsRecentAnswer(store: map<string, SongDoc>, snap: seq<(string, SongDoc)>) {
    IsLimitedAnswer(store, snap, HasCreatedAt, SongBefore, RecentLimit)
  }

  /** The ids of the entries of a sequence. */
  function Ids(s: seq<(string, SongDoc)>): seq<string> {
    Map((e: (string, SongDoc)) => e.0, s)
  }

  /** The recent entries of a limited answer carry distinct ids, so their
      number is the number of their ids. */
  lemma RecentEntriesHaveDistinctIds(store: map<string, SongDoc>, snap: seq<(string, SongDoc)>, weekAgo: int)
    requires IsRecentAnswer(store, snap)
    ensures |set x | x in Ids(Filter(Recent(weekAgo), snap))| == RecentCount(snap, weekAgo)
  {
    SongOrderIsStrict();
    forall i, j | 0 <= i < j < |snap| ensures snap[i] != snap[j] {
      SortedDistinct(snap, SongBefore, i, j);
    }
    var f := Filter(Recent(weekAgo), snap);
    FilterDistinct(Recent(weekAgo), snap);
    var ids := Ids(f);
    forall i, j | 0 <= i < j < |ids| ensures ids[i] != ids[j] {
      assert f[i] in snap && f[j] in snap;
      assert f[i] != f[j];
    }
    DistinctCardinality(ids);
  }

  lemma SubsetSize(a: set<string>, b: set<string>)
    requires a <= b
    ensures |a| <= |b|
  {
    assert b == a + (b - a);
  }

  /** The ids of the recent entries of an answer. */
  ghost function ShownIds(snap: seq<(string, SongDoc)>, weekAgo: int): set<string> {
    set x | x in Ids(Filter(Recent(weekAgo), snap))
  }

  lemma ShownAreRecent(store: map<string, SongDoc>, snap: seq<(string, SongDoc)>, weekAgo: int)
    requires IsRecentAnswer(store, snap)
    ensures ShownIds(snap, weekAgo) <= RecentIds(store, weekAgo)
  {
    var f := Filter(Recent(weekAgo), snap);
    forall x | x in ShownIds(snap, weekAgo) ensures x in RecentIds(store, weekAgo) {
      var i :| 0 <= i < |Ids(f)| && Ids(f)[i] == x;
      assert f[i] in snap && Recent(weekAgo)(f[i]);
    }
  }

  /** A recent song left out of the answer means the answer is full of
      songs at least as new, all of them recent. */
  lemma MissedRecentMeansFull(store: map<string, SongDoc>, snap: seq<(string, SongDoc)>, weekAgo: int, id: string)
    requires IsRecentAnswer(store, snap)
    requires id in RecentIds(store, weekAgo) && (id, store[id]) !in snap
    ensures RecentCount(snap, weekAgo) == RecentLimit
  {
    assert HasCreatedAt(store[id]);
    forall e | e in snap ensures Recent(weekAgo)(e) {
      var i :| 0 <= i < |snap| && snap[i] == e;
      assert SongBefore(e, (id, store[id]));
    }
    FilterKeepsAll(Recent(weekAgo), snap);
  }

  lemma AllRecentShown(store: map<string, SongDoc>, snap: seq<(string, SongDoc)>, weekAgo: int)
    requires IsRecentAnswer(store, snap)
    requires forall id :: id in RecentIds(store, weekAgo) ==> (id, store[id]) in snap
    ensures RecentIds(store, weekAgo) <= ShownIds(snap, weekAgo)
  {
    var f := Filter(Recent(weekAgo), snap);
    forall x | x in RecentIds(store, weekAgo) ensures x in ShownIds(snap, weekAgo) {
      assert (x, store[x]) in snap && Recent(weekAgo)((x, store[x]));
      var i :| 0 <= i < |f| && f[i] == (x, store[x]);
      assert Ids(f)[i] == x;
    }
  }

  /** The recent count is the number of songs created in the last week,
      capped at 100: the query returns the newest songs first, so a recent
      song can be missed only once 100 newer-or-equal songs fill the answer. */
  lemma RecentCountIsCapped(store: map<string, SongDoc>, snap: seq<(string, SongDoc)>, weekAgo: int)
    requires IsRecentAnswer(store, snap)
    ensures RecentCount(snap, weekAgo) == Min(RecentLimit, |RecentIds(store, weekAgo)|)
  {
    var shown, all := ShownIds(snap, weekAgo), RecentIds(store, weekAgo);
    RecentEntriesHaveDistinctIds(store, snap, weekAgo);
    assert |shown| == RecentCount(snap, weekAgo);
    ShownAreRecent(store, snap, weekAgo);
    SubsetSize(shown, all);
    if id :| id in all && (id, store[id]) !in snap {
      MissedRecentMeansFull(store, snap, weekAgo, id);
    } else {
      AllRecentShown(store, snap, weekAgo);
      assert shown == all;
    }
  }

  class Page {
    var stats: Stats
    var loading: bool

    constructor()
      ensures stats == Stats(0, 0, 0) && loading
    {
      stats := Stats(0, 0, 0);
      loading := true;
    }

    /** `fetchStats`: three reads in turn; any failure leaves the counts as
        they were. Loading ends either way. */
    method FetchStats(db: Backend, songsSnapshot: seq<(string, SongDoc)>, categoriesSnapshot: seq<(string, CategoryDoc)>,
                      recentSnapshot: seq<(string, SongDoc)>, weekAgo: int,
                      songsFail: bool, categoriesFail: bool, recentFail: bool)
      requires IsCollection(db.songs, songsSnapshot)
      requires IsCollection(db.categories, categoriesSnapshot)
      requires IsRecentAnswer(db.songs, recentSnapshot)
      modifies this
      ensures stats == if songsFail || categoriesFail || recentFail then old(stats)
                       else Stats(|db.songs|, |db.categories|, Min(RecentLimit, |RecentIds(db.songs, weekAgo)|))
      ensures !loading
    {
      if !(songsFail || categoriesFail || recentFail) {
        CollectionSize(db.songs, songsSnapshot);
        CollectionSize(db.categories, categoriesSnapshot);
        RecentCountIsCapped(db.songs, recentSnapshot, weekAgo);
        stats := Stats(|songsSnapshot|, |categoriesSnapshot|, RecentCount(recentSnapshot, weekAgo));
      }
      loading := false;
    }
  }
}
