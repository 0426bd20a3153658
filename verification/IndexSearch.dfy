/** `query_index`: fetch more hits than shown, sort them, drop repeated ids, drop ids that no live row answers
    for, and cut the list. The index may hold duplicates and entries of files long gone. */
module IndexSearch {
  import opened Options
  import opened IndexPipeline

  datatype Hit = Hit(id: FileId, score: real)

  const TOP_K := 100
  const FETCHED := 5 * TOP_K

  // ----- the specification functions -----

  /** Into a list of falling scores, behind everything that scores at least as much. */
  function Insert(sorted: seq<Hit>, h: Hit): seq<Hit> {
    if sorted == [] then [h]
    else
      var last := sorted[|sorted| - 1];
      if last.score >= h.score then sorted + [h] else Insert(sorted[..|sorted| - 1], h) + [last]
  }

  /** `sorted(…, reverse=True)`, which keeps the order of equal scores. */
  function Sorted(hits: seq<Hit>): seq<Hit> {
    if hits == [] then [] else Insert(Sorted(hits[..|hits| - 1]), hits[|hits| - 1])
  }

  function FirstOnly(hits: seq<Hit>): seq<Hit> {
    if hits == [] then []
    else
      var front, last := FirstOnly(hits[..|hits| - 1]), hits[|hits| - 1];
      if exists h :: h in front && h.id == last.id then front else front + [last]
  }

  /** The row that may answer for a hit in this folder. */
  predicate Answers(s: IndexState, folder: FolderId, id: FileId) {
    id in s.files && s.files[id].folder == folder && s.files[id].status == Indexed
  }

  function LiveOnly(hits: seq<Hit>, s: IndexState, folder: FolderId): seq<Hit> {
    if hits == [] then []
    else
      var front, last := LiveOnly(hits[..|hits| - 1], s, folder), hits[|hits| - 1];
      if Answers(s, folder, last.id) then front + [last] else front
  }

  function First<T>(xs: seq<T>, n: nat): seq<T> {
    if |xs| <= n then xs else xs[..n]
  }

  /** What a query shows for the hits it fetched. */
  function Shown(hits: seq<Hit>, s: IndexState, folder: FolderId): seq<Hit> {
    First(LiveOnly(FirstOnly(Sorted(hits)), s, folder), TOP_K)
  }

  ghost predicate Falling(hits: seq<Hit>) {
    forall i, j :: 0 <= i < j < |hits| ==> hits[i].score >= hits[j].score
  }

  ghost predicate NoIdTwice(hits: seq<Hit>) {
    forall i, j :: 0 <= i < j < |hits| ==> hits[i].id != hits[j].id
  }

  function WithScore(hits: seq<Hit>, score: real): seq<Hit> {
    if hits == [] then []
    else
      var front, last := WithScore(hits[..|hits| - 1], score), hits[|hits| - 1];
      if last.score == score then front + [last] else front
  }

  // ----- sorting -----

  lemma {:induction false} InsertHas(sorted: seq<Hit>, h: Hit, g: Hit)
    ensures g in Insert(sorted, h) <==> g in sorted || g == h
  {
    if sorted != [] {
      InsertHas(sorted[..|sorted| - 1], h, g);
      assert sorted == sorted[..|sorted| - 1] + [sorted[|sorted| - 1]];
    }
  }

  lemma {:induction false} InsertFalling(sorted: seq<Hit>, h: Hit)
    requires Falling(sorted)
    ensures Falling(Insert(sorted, h))
  {
    if sorted != [] && sorted[|sorted| - 1].score < h.score {
      var front, last := sorted[..|sorted| - 1], sorted[|sorted| - 1];
      InsertFalling(front, h);
      var inner := Insert(front, h);
      forall i | 0 <= i < |inner|
        ensures inner[i].score >= last.score
      {
        InsertHas(front, h, inner[i]);
      }
    }
  }

  lemma WithScoreSnoc(hits: seq<Hit>, h: Hit, score: real)
    ensures WithScore(hits + [h], score) == if h.score == score then WithScore(hits, score) + [h] else WithScore(hits, score)
  {
    assert (hits + [h])[..|hits|] == hits;
  }

  lemma {:induction false} InsertStable(sorted: seq<Hit>, h: Hit, score: real)
    requires Falling(sorted)
    ensures WithScore(Insert(sorted, h), score) == WithScore(sorted + [h], score)
  {
    WithScoreSnoc(sorted, h, score);
    if sorted == [] {
      assert [] + [h] == [h];
    } else if sorted[|sorted| - 1].score < h.score {
      var front, last := sorted[..|sorted| - 1], sorted[|sorted| - 1];
      InsertStable(front, h, score);
      WithScoreSnoc(front, h, score);
      WithScoreSnoc(Insert(front, h), last, score);
    }
  }

  /** Sorting gives falling scores, loses and invents nothing, and keeps hits of equal score in the order the
      index reported them; these three determine the list. */
  lemma {:induction false} SortedIsStableSort(hits: seq<Hit>)
    ensures Falling(Sorted(hits))
    ensures forall score :: WithScore(Sorted(hits), score) == WithScore(hits, score)
    ensures forall g :: g in Sorted(hits) <==> g in hits
  {
    if hits != [] {
      var front, last := hits[..|hits| - 1], hits[|hits| - 1];
      SortedIsStableSort(front);
      InsertFalling(Sorted(front), last);
      assert hits == front + [last];
      forall score
        ensures WithScore(Sorted(hits), score) == WithScore(hits, score)
      {
        InsertStable(Sorted(front), last, score);
        WithScoreSnoc(Sorted(front), last, score);
        WithScoreSnoc(front, last, score);
      }
      forall g
        ensures g in Sorted(hits) <==> g in hits
      {
        InsertHas(Sorted(front), last, g);
      }
    }
  }

  // ----- deduplication and filtering -----

  lemma {:induction false} FirstOnlyFrom(hits: seq<Hit>, g: Hit)
    requires g in FirstOnly(hits)
    ensures g in hits
  {
    if hits != [] && g in FirstOnly(hits[..|hits| - 1]) {
      FirstOnlyFrom(hits[..|hits| - 1], g);
    }
  }

  lemma {:induction false} FirstOnlyCovers(hits: seq<Hit>, h: Hit)
    requires h in hits
    ensures exists g :: g in FirstOnly(hits) && g.id == h.id
  {
    var front, last := hits[..|hits| - 1], hits[|hits| - 1];
    if h in front {
      FirstOnlyCovers(front, h);
      var g :| g in FirstOnly(front) && g.id == h.id;
      assert g in FirstOnly(hits);
    } else {
      assert h == last;
      if g :| g in FirstOnly(front) && g.id == last.id {
        assert g in FirstOnly(hits);
      } else {
        assert FirstOnly(hits) == FirstOnly(front) + [last];
        assert last in FirstOnly(hits);
      }
    }
  }

  lemma {:induction false} FirstOnlyFalls(hits: seq<Hit>)
    requires Falling(hits)
    ensures NoIdTwice(FirstOnly(hits)) && Falling(FirstOnly(hits))
  {
    if hits != [] {
      var front, last := hits[..|hits| - 1], hits[|hits| - 1];
      FirstOnlyFalls(front);
      forall i | 0 <= i < |FirstOnly(front)|
        ensures last.score <= FirstOnly(front)[i].score
      {
        FirstOnlyFrom(front, FirstOnly(front)[i]);
      }
    }
  }

  lemma {:induction false} FirstIsBest(hits: seq<Hit>, g: Hit, h: Hit)
    requires Falling(hits) && g in FirstOnly(hits) && h in hits && g.id == h.id
    ensures h.score <= g.score
  {
    var front, last := hits[..|hits| - 1], hits[|hits| - 1];
    if g in FirstOnly(front) {
      if h in front {
        FirstIsBest(front, g, h);
      } else {
        FirstOnlyFrom(front, g);
      }
    } else if h in front {
      FirstOnlyCovers(front, h);
      assert false;
    }
  }

  lemma FirstOnlyKeepsBest(hits: seq<Hit>)
    requires Falling(hits)
    ensures NoIdTwice(FirstOnly(hits)) && Falling(FirstOnly(hits))
    ensures forall g, h :: g in FirstOnly(hits) && h in hits && g.id == h.id ==> h.score <= g.score
  {
    FirstOnlyFalls(hits);
    forall g, h | g in FirstOnly(hits) && h in hits && g.id == h.id
      ensures h.score <= g.score
    {
      FirstIsBest(hits, g, h);
    }
  }

  lemma {:induction false} LiveOnlyIs(hits: seq<Hit>, s: IndexState, folder: FolderId)
    ensures forall h :: h in LiveOnly(hits, s, folder) <==> h in hits && Answers(s, folder, h.id)
    ensures Falling(hits) ==> Falling(LiveOnly(hits, s, folder))
    ensures NoIdTwice(hits) ==> NoIdTwice(LiveOnly(hits, s, folder))
  {
    if hits != [] {
      var front, last := hits[..|hits| - 1], hits[|hits| - 1];
      LiveOnlyIs(front, s, folder);
      assert hits == front + [last];
    }
  }

  lemma FirstKeeps(hits: seq<Hit>, n: nat)
    ensures forall h :: h in First(hits, n) ==> h in hits
    ensures Falling(hits) ==> Falling(First(hits, n))
    ensures NoIdTwice(hits) ==> NoIdTwice(First(hits, n))
  {
  }

  /** Search over an index with duplicate and stale ids: the list falls in score, shows no file twice, only
      files of the folder that are indexed, each with its best fetched score. */
  lemma ShownIsSound(hits: seq<Hit>, s: IndexState, folder: FolderId)
    ensures var shown := Shown(hits, s, folder);
            Falling(shown) && NoIdTwice(shown) && |shown| <= TOP_K
            && (forall g :: g in shown ==> g in hits && Answers(s, folder, g.id))
            && (forall g, h :: g in shown && h in hits && g.id == h.id ==> h.score <= g.score)
  {
    SortedIsStableSort(hits);
    var sorted := Sorted(hits);
    FirstOnlyKeepsBest(sorted);
    LiveOnlyIs(FirstOnly(sorted), s, folder);
    FirstKeeps(LiveOnly(FirstOnly(sorted), s, folder), TOP_K);
    forall g | g in Shown(hits, s, folder)
      ensures g in hits
    {
      FirstOnlyFrom(sorted, g);
    }
  }

  lemma ShownOrBeaten(live: seq<Hit>, n: nat, best: Hit)
    requires best in live && Falling(live)
    ensures best in First(live, n) || (|First(live, n)| == n && forall g :: g in First(live, n) ==> best.score <= g.score)
  {
    var at :| 0 <= at < |live| && live[at] == best;
    if at < n {
      assert First(live, n)[at] == best;
    }
  }

  /** Any fetched live file that is not shown lost to a full list of files that score at least as much. */
  lemma FetchedIsShownOrBeaten(hits: seq<Hit>, s: IndexState, folder: FolderId, h: Hit)
    requires h in hits && Answers(s, folder, h.id)
    ensures var shown := Shown(hits, s, folder);
            (exists g :: g in shown && g.id == h.id) || (|shown| == TOP_K && forall g :: g in shown ==> h.score <= g.score)
  {
    SortedIsStableSort(hits);
    var sorted := Sorted(hits);
    FirstOnlyCovers(sorted, h);
    var best :| best in FirstOnly(sorted) && best.id == h.id;
    assert h.score <= best.score by {
      FirstIsBest(sorted, best, h);
    }
    var live := LiveOnly(FirstOnly(sorted), s, folder);
    assert best in live && Falling(live) by {
      FirstOnlyFalls(sorted);
      LiveOnlyIs(FirstOnly(sorted), s, folder);
    }
    ShownOrBeaten(live, TOP_K, best);
  }

  // ----- together with the index -----

  /** What an exact inner-product search for `k` hits returns, in some order; missing hits have id -1. */
  ghost predicate Fetches(entries: seq<(FileId, Vector)>, score: Vector -> real, k: nat, hits: seq<Hit>) {
    && |hits| == k
    && (forall h :: h in hits && h.id != -1 ==> exists e :: e in entries && h == Hit(e.0, score(e.1)))
    && (forall e :: e in entries ==>
          Hit(e.0, score(e.1)) in hits || (|entries| > k && forall h :: h in hits ==> score(e.1) <= h.score))
  }

  /** Index and table agree about one folder. */
  ghost predicate FolderAgrees(s: IndexState, folder: FolderId, embed: FileId -> Vector) {
    && (forall id :: id in s.files && s.files[id].folder == folder ==> RowOk(s, id, embed))
    && (IndexOf(s, folder).Good? ==> forall e :: e in IndexOf(s, folder).entries ==> e.1 == embed(e.0))
  }

  /** Where index and table agree about the folder, every file is shown with the score of its own embedding, and a file of the
      folder that is left out never beats one that is shown; with no more entries than are fetched, it is left
      out only for a full list. */
  lemma SearchIsExact(s: IndexState, folder: FolderId, embed: FileId -> Vector, score: Vector -> real, hits: seq<Hit>,
                      id: FileId)
    requires FolderAgrees(s, folder, embed) && IndexOf(s, folder).Good?
    requires Fetches(IndexOf(s, folder).entries, score, FETCHED, hits) && -1 !in s.files
    requires Answers(s, folder, id)
    ensures var shown := Shown(hits, s, folder);
            (forall g :: g in shown ==> g.score == score(embed(g.id)))
            && ((exists g :: g in shown && g.id == id) || forall g :: g in shown ==> score(embed(id)) <= g.score)
            && (|IndexOf(s, folder).entries| <= FETCHED ==> (exists g :: g in shown && g.id == id) || |shown| == TOP_K)
  {
    ShownIsSound(hits, s, folder);
    assert RowOk(s, id, embed);
    var own := Hit(id, score(embed(id)));
    var e := (id, embed(id));
    assert e in IndexOf(s, folder).entries;
    if own in hits {
      FetchedIsShownOrBeaten(hits, s, folder, own);
    }
  }

  // ----- the imperative search -----

  method Dedupe(hits: seq<Hit>) returns (kept: seq<Hit>)
    ensures kept == FirstOnly(hits)
  {
    kept := [];
    var seen: set<FileId> := {};
    for i := 0 to |hits|
      invariant kept == FirstOnly(hits[..i])
      invariant forall id :: id in seen <==> exists h :: h in kept && h.id == id
    {
      assert hits[..i + 1][..i] == hits[..i];
      if hits[i].id !in seen {
        seen := seen + {hits[i].id};
        kept := kept + [hits[i]];
      }
    }
    assert hits[..|hits|] == hits;
  }

  /** `get_files_by_clip_indices`: the rows are looked up by clip index, not by id. */
  method FilesByClipIndices(files: map<FileId, FileRow>, folder: FolderId, clips: seq<FileId>)
    returns (paths: seq<Option<string>>)
    ensures |paths| == |clips|
    ensures forall i :: 0 <= i < |clips| ==>
              match paths[i]
              case Some(path) => exists id :: id in files && files[id].folder == folder && files[id].clip == Some(clips[i])
                                              && files[id].status == Indexed && files[id].path == path
              case None => forall id :: id in files && files[id].folder == folder && files[id].clip == Some(clips[i]) ==>
                             files[id].status != Indexed
  {
    paths := [];
    for i := 0 to |clips|
      invariant |paths| == i
      invariant forall j :: 0 <= j < i ==>
                  match paths[j]
                  case Some(path) => exists id :: id in files && files[id].folder == folder && files[id].clip == Some(clips[j])
                                                  && files[id].status == Indexed && files[id].path == path
                  case None => forall id :: id in files && files[id].folder == folder && files[id].clip == Some(clips[j]) ==>
                                 files[id].status != Indexed
    {
      var found: Option<string> := None;
      if id :| id in files && files[id].folder == folder && files[id].clip == Some(clips[i]) && files[id].status == Indexed {
        found := Some(files[id].path);
      }
      paths := paths + [found];
    }
  }

  lemma LookupAgrees(s: IndexState, folder: FolderId, clip: FileId)
    requires ClipsOwn(s)
    ensures forall id :: (id in s.files && s.files[id].folder == folder && s.files[id].clip == Some(clip)
                          && s.files[id].status == Indexed) <==> (id == clip && Answers(s, folder, clip))
  {
  }

  datatype Found = Raised | Found(files: seq<(string, real)>)

  /** The paths and scores of a list of hits whose ids are rows. */
  function Named(hits: seq<Hit>, s: IndexState): seq<(string, real)>
    requires forall h :: h in hits ==> h.id in s.files
  {
    seq(|hits|, i requires 0 <= i < |hits| => (s.files[hits[i].id].path, hits[i].score))
  }

  lemma LiveRowsExist(hits: seq<Hit>, s: IndexState, folder: FolderId)
    ensures forall h :: h in LiveOnly(hits, s, folder) ==> h.id in s.files
  {
    LiveOnlyIs(hits, s, folder);
  }

  /** Zip with the paths, drop the missing ones. */
  method KeepLive(s: IndexState, folder: FolderId, hits: seq<Hit>)
    returns (found: seq<(string, real)>)
    requires ClipsOwn(s)
    ensures forall h :: h in LiveOnly(hits, s, folder) ==> h.id in s.files
    ensures found == Named(LiveOnly(hits, s, folder), s)
  {
    found := [];
    var paths := FilesByClipIndices(s.files, folder, seq(|hits|, i requires 0 <= i < |hits| => hits[i].id));
    for i := 0 to |hits|
      invariant forall h :: h in LiveOnly(hits[..i], s, folder) ==> h.id in s.files
      invariant found == Named(LiveOnly(hits[..i], s, folder), s)
    {
      assert hits[..i + 1][..i] == hits[..i];
      LiveRowsExist(hits[..i + 1], s, folder);
      LookupAgrees(s, folder, hits[i].id);
      if paths[i].Some? {
        found := found + [(paths[i].value, hits[i].score)];
      }
    }
    assert hits[..|hits|] == hits;
    LiveRowsExist(hits, s, folder);
  }

  /** `query_index`; `hits` is what the index search returned. It asks no agreement of index and table: see
      `IndexRuns.ClipsAlwaysOwn`. */
  method QueryIndex(s: IndexState, folder: FolderId, folderThere: bool, hits: seq<Hit>) returns (result: Found)
    requires ClipsOwn(s)
    ensures forall h :: h in Shown(hits, s, folder) ==> h.id in s.files
    ensures result == if !folderThere || IndexOf(s, folder).Corrupt? then Found([])
                      else if IndexOf(s, folder).Missing? then Raised
                      else Found(Named(Shown(hits, s, folder), s))
  {
    ShownIsSound(hits, s, folder);
    if !folderThere {
      return Found([]);
    }
    match IndexOf(s, folder) {
      case Missing => return Raised;
      case Corrupt => return Found([]);
      case Good(_) =>
    }
    var pairs := Dedupe(Sorted(hits));
    var found := KeepLive(s, folder, pairs);
    result := Found(First(found, TOP_K));
  }
}
