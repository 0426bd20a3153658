/** Which files a build reaches. With nothing failing around it a build is a recursion over the pending ids in
    order: each page loses what was indexed or given up, batches without a readable picture stay at the front,
    and a page without any readable picture ends the build if one of its files counts as a picture. */
module IndexBuild {
  import opened IndexPipeline

  // ----- pending files in order -----

  ghost predicate Rising(ids: seq<FileId>) {
    forall i, j :: 0 <= i < j < |ids| ==> ids[i] < ids[j]
  }

  ghost function InOrder(ids: set<FileId>): seq<FileId> {
    if exists id :: id in ids then
      MinimumExists(ids);
      var k :| k in ids && forall j :: j in ids ==> k <= j;
      [k] + InOrder(ids - {k})
    else []
  }

  lemma {:induction false} InOrderIs(ids: set<FileId>)
    ensures Rising(InOrder(ids)) && forall id :: id in InOrder(ids) <==> id in ids
  {
    if exists id :: id in ids {
      MinimumExists(ids);
      var k :| k in ids && InOrder(ids) == [k] + InOrder(ids - {k}) && forall j :: j in ids ==> k <= j;
      InOrderIs(ids - {k});
      var rest := InOrder(ids - {k});
      forall i | 0 <= i < |rest|
        ensures k < rest[i]
      {
        assert rest[i] in rest;
      }
    }
  }

  lemma InOrderStarts(ids: set<FileId>, least: FileId)
    requires least in ids && forall j :: j in ids ==> least <= j
    ensures InOrder(ids) == [least] + InOrder(ids - {least})
  {
    var k :| k in ids && InOrder(ids) == [k] + InOrder(ids - {k}) && forall j :: j in ids ==> k <= j;
    assert k == least;
  }

  lemma FirstIsLeast(queue: seq<FileId>, ids: set<FileId>)
    requires Rising(queue) && queue != [] && forall id :: id in queue <==> id in ids
    ensures queue[0] in ids && forall j :: j in ids ==> queue[0] <= j
    ensures forall id :: id in queue[1..] <==> id in ids - {queue[0]}
  {
    var first, rest := queue[0], queue[1..];
    assert first in queue && queue == [first] + rest;
    forall j | j in ids
      ensures first <= j
    {
      var at :| 0 <= at < |queue| && queue[at] == j;
    }
    assert first !in rest;
  }

  lemma {:induction false} RisingIsInOrder(queue: seq<FileId>, ids: set<FileId>)
    requires Rising(queue) && forall id :: id in queue <==> id in ids
    ensures queue == InOrder(ids)
    decreases |queue|
  {
    if queue == [] {
      assert forall id :: id !in ids;
    } else {
      FirstIsLeast(queue, ids);
      InOrderStarts(ids, queue[0]);
      RisingIsInOrder(queue[1..], ids - {queue[0]});
    }
  }

  // ----- one page -----

  function Prefix(queue: seq<FileId>, limit: nat): seq<FileId> {
    if |queue| <= limit then queue else queue[..limit]
  }

  function PageOf(queue: seq<FileId>): seq<FileId> {
    Prefix(queue, PAGE)
  }

  predicate NoneReadable(ids: seq<FileId>, w: World) {
    forall id :: id in ids ==> ReadOf(w, id) != Readable
  }

  /** A batch without a readable picture is neither indexed nor marked. */
  function Skipped(ids: seq<FileId>, w: World, i: nat): seq<FileId> {
    if NoneReadable(Slice(ids, i), w) then Slice(ids, i) else []
  }

  function SkippedParts(ids: seq<FileId>, w: World, n: nat): seq<seq<FileId>> {
    seq(n, i requires 0 <= i < n => Skipped(ids, w, i))
  }

  /** What a page leaves pending when some other batch of it had a readable picture. */
  function Leftover(page: seq<FileId>, w: World): seq<FileId> {
    Joined(SkippedParts(page, w, BatchCount(|page|)))
  }

  /** A page that ends the build: nothing readable, and not all of it is something other than a picture. */
  predicate Blocks(page: seq<FileId>, w: World, pictures: set<FileId>) {
    NoneReadable(page, w) && exists id :: id in page && id in pictures
  }

  /** The pending files after the first page was dealt with. */
  function NextQueue(queue: seq<FileId>, w: World): seq<FileId> {
    var page := PageOf(queue);
    (if NoneReadable(page, w) then [] else Leftover(page, w)) + queue[|page|..]
  }

  // ----- the whole build -----

  /** The pages a build would go through if none of them ended it. */
  ghost function Pages(queue: seq<FileId>, w: World): seq<seq<FileId>>
    requires Rising(queue)
    decreases |queue|
  {
    if queue == [] then []
    else
      NextQueueShrinks(queue, w);
      [PageOf(queue)] + Pages(NextQueue(queue, w), w)
  }

  /** What a build leaves pending. */
  ghost function Leaves(queue: seq<FileId>, w: World, pictures: set<FileId>): seq<FileId>
    requires Rising(queue)
    decreases |queue|
  {
    if queue == [] then []
    else
      NextQueueShrinks(queue, w);
      if Blocks(PageOf(queue), w, pictures) then NextQueue(queue, w) else Leaves(NextQueue(queue, w), w, pictures)
  }

  // ----- batches of a rising page -----

  lemma SliceAt(ids: seq<FileId>, i: nat, at: nat)
    requires Rising(ids) && at < |ids|
    ensures ids[at] in Slice(ids, i) <==> i == at / BATCH
  {
    if i == at / BATCH {
      SliceHas(ids, i, at);
    }
  }

  lemma LeftoverHas(ids: seq<FileId>, w: World, at: nat)
    requires Rising(ids) && at < |ids|
    ensures ids[at] in Leftover(ids, w) <==> NoneReadable(Slice(ids, at / BATCH), w)
  {
    var n, id := BatchCount(|ids|), ids[at];
    var parts := SkippedParts(ids, w, n);
    JoinedHas(parts, id);
    SliceAt(ids, at / BATCH, at);
    assert parts[at / BATCH] == Skipped(ids, w, at / BATCH);
    if i :| 0 <= i < n && id in parts[i] {
      SliceAt(ids, i, at);
    }
  }

  lemma SliceReadable(ids: seq<FileId>, w: World, i: nat)
    ensures Having(Slice(ids, i), w, Readable) == [] <==> NoneReadable(Slice(ids, i), w)
  {
    HavingIsFilter(Slice(ids, i), w, Readable);
    if Having(Slice(ids, i), w, Readable) != [] {
      var first := Having(Slice(ids, i), w, Readable)[0];
      assert first in Having(Slice(ids, i), w, Readable);
    }
  }

  lemma BatchMarkedHas(ids: seq<FileId>, w: World, i: nat, id: FileId)
    requires FaultOf(w, i) == NoFault
    ensures id in BatchMarked(Slice(ids, i), w, i) <==>
            id in Slice(ids, i) && ReadOf(w, id) != Readable && !NoneReadable(Slice(ids, i), w)
  {
    SliceReadable(ids, w, i);
    HavingIsFilter(Slice(ids, i), w, NotFound);
    HavingIsFilter(Slice(ids, i), w, Undecodable);
  }

  lemma BatchMarkedAt(ids: seq<FileId>, w: World, i: nat, at: nat)
    requires Rising(ids) && at < |ids| && FaultOf(w, i) == NoFault
    ensures ids[at] in BatchMarked(Slice(ids, i), w, i) <==>
            i == at / BATCH && ReadOf(w, ids[at]) != Readable && !NoneReadable(Slice(ids, i), w)
  {
    BatchMarkedHas(ids, w, i, ids[at]);
    SliceAt(ids, i, at);
  }

  lemma {:induction false} MarkedHas(ids: seq<FileId>, w: World, n: nat, at: nat)
    requires Rising(ids) && at < |ids| && forall i: nat :: FaultOf(w, i) == NoFault
    ensures ids[at] in Marked(ids, w, n) <==>
            at / BATCH < n && ReadOf(w, ids[at]) != Readable && !NoneReadable(Slice(ids, at / BATCH), w)
    decreases n
  {
    if n > 0 {
      MarkedHas(ids, w, n - 1, at);
      BatchMarkedAt(ids, w, n - 1, at);
      assert at / BATCH < n <==> at / BATCH < n - 1 || n - 1 == at / BATCH;
    }
  }

  lemma RisingAppend(front: seq<FileId>, back: seq<FileId>)
    requires Rising(front) && Rising(back) && forall a, b :: a in front && b in back ==> a < b
    ensures Rising(front + back)
  {
    forall i, j | 0 <= i < |front| && 0 <= j < |back|
      ensures front[i] < back[j]
    {
      assert front[i] in front && back[j] in back;
    }
  }

  /** Membership in the first `n` batches. */
  ghost predicate Before(ids: seq<FileId>, id: FileId, n: nat) {
    exists at :: 0 <= at < |ids| && at < BATCH * n && ids[at] == id
  }

  lemma SliceRises(ids: seq<FileId>, i: nat)
    requires Rising(ids)
    ensures Rising(Slice(ids, i))
    ensures forall j :: 0 <= j < |Slice(ids, i)| ==> BATCH * i + j < |ids| && Slice(ids, i)[j] == ids[BATCH * i + j]
  {
    var slice := Slice(ids, i);
    forall j, k | 0 <= j < k < |slice|
      ensures slice[j] < slice[k]
    {
      assert ids[BATCH * i + j] < ids[BATCH * i + k];
    }
  }

  lemma SkippedIs(ids: seq<FileId>, w: World, i: nat)
    requires Rising(ids)
    ensures Rising(Skipped(ids, w, i))
    ensures forall id :: id in Skipped(ids, w, i) ==> Before(ids, id, i + 1)
    ensures forall a, b :: Before(ids, a, i) && b in Skipped(ids, w, i) ==> a < b
  {
    SliceRises(ids, i);
    forall id | id in Skipped(ids, w, i)
      ensures Before(ids, id, i + 1)
      ensures forall a :: Before(ids, a, i) ==> a < id
    {
      var j :| 0 <= j < |Skipped(ids, w, i)| && Skipped(ids, w, i)[j] == id;
      assert ids[BATCH * i + j] == id;
    }
  }

  lemma {:induction false} LeftoverUpTo(ids: seq<FileId>, w: World, n: nat)
    requires Rising(ids)
    ensures Rising(Joined(SkippedParts(ids, w, n)))
    ensures forall id :: id in Joined(SkippedParts(ids, w, n)) ==> Before(ids, id, n)
    decreases n
  {
    if n > 0 {
      LeftoverUpTo(ids, w, n - 1);
      SkippedIs(ids, w, n - 1);
      var front, last := Joined(SkippedParts(ids, w, n - 1)), Skipped(ids, w, n - 1);
      assert SkippedParts(ids, w, n)[..n - 1] == SkippedParts(ids, w, n - 1);
      RisingAppend(front, last);
    }
  }

  lemma LeftoverIs(page: seq<FileId>, w: World)
    requires Rising(page)
    ensures Rising(Leftover(page, w))
    ensures forall id :: id in Leftover(page, w) ==> id in page && ReadOf(w, id) != Readable
  {
    LeftoverUpTo(page, w, BatchCount(|page|));
    forall id | id in Leftover(page, w)
      ensures id in page && ReadOf(w, id) != Readable
    {
      assert Before(page, id, BatchCount(|page|));
      var at :| 0 <= at < |page| && page[at] == id;
      LeftoverHas(page, w, at);
      SliceAt(page, at / BATCH, at);
    }
  }

  lemma RisingShorter(some: seq<FileId>, all: seq<FileId>, missing: FileId)
    requires Rising(some) && Rising(all) && missing in all && missing !in some
    requires forall id :: id in some ==> id in all
    ensures |some| < |all|
  {
    var a, b := set id | id in some, set id | id in all;
    RisingSize(some);
    RisingSize(all);
    assert a <= b - {missing};
    SmallerSet(a, b);
  }

  lemma {:induction false} RisingSize(ids: seq<FileId>)
    requires Rising(ids)
    ensures |set id | id in ids| == |ids|
  {
    if ids != [] {
      var front, last := ids[..|ids| - 1], ids[|ids| - 1];
      RisingSize(front);
      assert ids == front + [last];
      assert (set id | id in ids) == (set id | id in front) + {last};
      assert last !in front;
    }
  }

  lemma NextQueueShrinks(queue: seq<FileId>, w: World)
    requires Rising(queue) && queue != []
    ensures Rising(NextQueue(queue, w)) && |NextQueue(queue, w)| < |queue|
    ensures forall id :: id in NextQueue(queue, w) ==> id in queue
  {
    var page := PageOf(queue);
    var rest := queue[|page|..];
    assert queue == page + rest;
    if !NoneReadable(page, w) {
      LeftoverIs(page, w);
      var id :| id in page && ReadOf(w, id) == Readable;
      RisingShorter(Leftover(page, w), page, id);
      PageBeforeRest(queue);
      RisingAppend(Leftover(page, w), rest);
    }
  }

  lemma PageBeforeRest(queue: seq<FileId>)
    requires Rising(queue)
    ensures Rising(PageOf(queue)) && Rising(queue[|PageOf(queue)|..])
    ensures forall a, b :: a in PageOf(queue) && b in queue[|PageOf(queue)|..] ==> a < b
  {
  }

  // ----- when a build goes through all files -----

  /** No page before the last ends the build. */
  ghost predicate NoneBlocksBefore(pages: seq<seq<FileId>>, w: World, pictures: set<FileId>) {
    forall i :: 0 <= i < |pages| - 1 ==> !Blocks(pages[i], w, pictures)
  }

  lemma NoneBlocksCons(page: seq<FileId>, later: seq<seq<FileId>>, w: World, pictures: set<FileId>)
    ensures NoneBlocksBefore([page] + later, w, pictures)
       <==> later == [] || (!Blocks(page, w, pictures) && NoneBlocksBefore(later, w, pictures))
  {
    var pages := [page] + later;
    if NoneBlocksBefore(pages, w, pictures) && later != [] {
      assert !Blocks(pages[0], w, pictures);
      forall i | 0 <= i < |later| - 1
        ensures !Blocks(later[i], w, pictures)
      {
        assert !Blocks(pages[i + 1], w, pictures);
      }
    }
    forall i | 0 <= i < |pages| - 1
      ensures pages[i] == if i == 0 then page else later[i - 1]
    {
    }
  }

  /** A build leaves nothing pending exactly when no page before the last is without a readable picture while it
      holds something that counts as one. */
  lemma {:induction false} NothingLeftIff(queue: seq<FileId>, w: World, pictures: set<FileId>)
    requires Rising(queue)
    ensures Leaves(queue, w, pictures) == [] <==> NoneBlocksBefore(Pages(queue, w), w, pictures)
    decreases |queue|
  {
    if queue != [] {
      NextQueueShrinks(queue, w);
      var next := NextQueue(queue, w);
      assert Pages(queue, w) == [PageOf(queue)] + Pages(next, w);
      NothingLeftIff(next, w, pictures);
      NoneBlocksCons(PageOf(queue), Pages(next, w), w, pictures);
    }
  }

  ghost function Unreadable(queue: seq<FileId>, w: World): set<FileId> {
    set id | id in queue && ReadOf(w, id) != Readable
  }

  /** A caller's reading of it: with fewer than a hundred unreadable files a build leaves nothing pending. */
  lemma {:induction false} FewUnreadableLeaveNothing(queue: seq<FileId>, w: World, pictures: set<FileId>)
    requires Rising(queue) && |Unreadable(queue, w)| < PAGE
    ensures Leaves(queue, w, pictures) == []
    decreases |queue|
  {
    if queue != [] {
      var page, next := PageOf(queue), NextQueue(queue, w);
      NextQueueShrinks(queue, w);
      assert forall id :: id in page ==> id in queue;
      if NoneReadable(page, w) {
        RisingSize(page);
        SubsetSize((set id | id in page), Unreadable(queue, w));
        assert |page| < PAGE && next == [];
      } else {
        SubsetSize(Unreadable(next, w), Unreadable(queue, w));
        FewUnreadableLeaveNothing(next, w, pictures);
      }
    }
  }

  lemma SubsetSize(a: set<FileId>, b: set<FileId>)
    requires a <= b
    ensures |a| <= |b|
  {
    assert b == a + (b - a);
  }

  // ----- the state a build leaves -----

  ghost function PicturesOf(s: IndexState, isImage: string -> bool): set<FileId> {
    set id | id in s.files && isImage(s.files[id].path)
  }

  /** The pending files of the folder that are not in `left` are indexed if readable and given up if not; every
      other row is as it was. */
  ghost predicate Settled(s: IndexState, s': IndexState, folder: FolderId, w: World, left: seq<FileId>) {
    && SamePlaces(s, s')
    && (forall id :: id in s.files && (id !in PendingIds(s, folder) || id in left) ==> s'.files[id] == s.files[id])
    && (forall id :: id in PendingIds(s, folder) && id !in left ==>
          s'.files[id].status == if ReadOf(w, id) == Readable then Indexed else Retired)
  }

  lemma SettledTwice(s: IndexState, s1: IndexState, s2: IndexState, folder: FolderId, w: World, left1: seq<FileId>, left2: seq<FileId>)
    requires Settled(s, s1, folder, w, left1) && Settled(s1, s2, folder, w, left2)
    requires forall id :: id in left1 <==> id in PendingIds(s1, folder)
    requires forall id :: id in left2 ==> id in left1
    ensures Settled(s, s2, folder, w, left2)
  {
  }

  lemma SettledPending(s: IndexState, s': IndexState, folder: FolderId, w: World, left: seq<FileId>)
    requires Settled(s, s', folder, w, left) && Rising(left) && forall id :: id in left ==> id in PendingIds(s, folder)
    ensures InOrder(PendingIds(s', folder)) == left
    ensures forall id :: id in PendingIds(s', folder) <==> id in left
  {
    forall id
      ensures id in PendingIds(s', folder) <==> id in left
    {
    }
    RisingIsInOrder(left, PendingIds(s', folder));
  }

  lemma {:induction false} LeavesIs(queue: seq<FileId>, w: World, pictures: set<FileId>)
    requires Rising(queue)
    ensures Rising(Leaves(queue, w, pictures)) && forall id :: id in Leaves(queue, w, pictures) ==> id in queue
    decreases |queue|
  {
    if queue != [] {
      NextQueueShrinks(queue, w);
      LeavesIs(NextQueue(queue, w), w, pictures);
    }
  }

  /** The pending files are those of the page and those behind it. */
  ghost predicate Splits(s: IndexState, folder: FolderId, page: seq<FileId>, rest: seq<FileId>) {
    && (forall id :: id in page || id in rest <==> id in PendingIds(s, folder))
    && (forall id :: id in page ==> id !in rest)
  }

  lemma QueueSplits(s: IndexState, folder: FolderId)
    ensures var queue := InOrder(PendingIds(s, folder));
            var page := PageOf(queue);
            Rising(queue) && Rising(page) && Splits(s, folder, page, queue[|page|..])
  {
    var queue := InOrder(PendingIds(s, folder));
    var page := PageOf(queue);
    InOrderIs(PendingIds(s, folder));
    PageBeforeRest(queue);
    assert queue == page + queue[|page|..];
  }

  lemma RetireSettles(s: IndexState, folder: FolderId, w: World, page: seq<FileId>, rest: seq<FileId>, marked: set<FileId>)
    requires Splits(s, folder, page, rest) && NoneReadable(page, w) && forall id :: id in marked ==> id in page
    ensures Settled(s, Retire(Retire(s, marked), set id | id in page), folder, w, rest)
  {
  }

  lemma UnreadablePageSettles(s: IndexState, folder: FolderId, w: World, embed: FileId -> Vector, isImage: string -> bool)
    requires Plain(w) && IndexOf(s, folder).Good?
    requires NoneReadable(PageOf(InOrder(PendingIds(s, folder))), w)
    ensures var queue := InOrder(PendingIds(s, folder));
            var s' := AddToIndexEffect(s, folder, PageOf(queue), w, embed, isImage).0;
            IndexOf(s', folder).Good? && Settled(s, s', folder, w, NextQueue(queue, w))
  {
    var queue := InOrder(PendingIds(s, folder));
    var page := PageOf(queue);
    var rest, n := queue[|page|..], BatchCount(|page|);
    QueueSplits(s, folder);
    assert [] + rest == rest;
    assert Added(page, w, n) == [] by {
      AddedNeedsReadable(page, w, n);
    }
    assert forall id :: id in Marked(page, w, n) ==> id in page by {
      MarkedAreUnreadable(page, w, n);
    }
    RetireSettles(s, folder, w, page, rest, Marked(page, w, n));
  }

  /** What a pass does to one file of a page in which something was readable. */
  lemma PageFate(page: seq<FileId>, w: World, id: FileId)
    requires Plain(w) && Rising(page) && id in page
    ensures id in Added(page, w, BatchCount(|page|)) <==> ReadOf(w, id) == Readable
    ensures id in Marked(page, w, BatchCount(|page|)) <==> ReadOf(w, id) != Readable && id !in Leftover(page, w)
  {
    var at :| 0 <= at < |page| && page[at] == id;
    AddedCoversReadable(page, w);
    MarkedHas(page, w, BatchCount(|page|), at);
    LeftoverHas(page, w, at);
  }

  lemma ReadablePageSettles(s: IndexState, folder: FolderId, w: World, embed: FileId -> Vector, isImage: string -> bool)
    requires Plain(w) && IndexOf(s, folder).Good?
    requires !NoneReadable(PageOf(InOrder(PendingIds(s, folder))), w)
    ensures var queue := InOrder(PendingIds(s, folder));
            var s' := AddToIndexEffect(s, folder, PageOf(queue), w, embed, isImage).0;
            IndexOf(s', folder).Good? && Settled(s, s', folder, w, NextQueue(queue, w))
  {
    var queue := InOrder(PendingIds(s, folder));
    var page := PageOf(queue);
    var rest, n := queue[|page|..], BatchCount(|page|);
    QueueSplits(s, folder);
    var added, marked, left := Added(page, w, n), Marked(page, w, n), Leftover(page, w);
    assert added != [] by {
      var first :| first in page && ReadOf(w, first) == Readable;
      PageFate(page, w, first);
      assert first in added;
    }
    assert Sorts(page, w, added, marked, left) by {
      PageSorts(page, w);
    }
    CommitSettles(s, folder, w, page, rest, added, marked, left, embed);
  }

  /** Every file of the page is added, marked or left, as its picture and its batch decide. */
  ghost predicate Sorts(page: seq<FileId>, w: World, added: seq<FileId>, marked: set<FileId>, left: seq<FileId>) {
    && (forall id :: id in added ==> id in page)
    && (forall id :: id in marked ==> id in page)
    && (forall id :: id in left ==> id in page)
    && (forall id :: id in page ==> (id in added <==> ReadOf(w, id) == Readable))
    && (forall id :: id in page ==> (id in marked <==> ReadOf(w, id) != Readable && id !in left))
    && (forall id :: id in left ==> ReadOf(w, id) != Readable)
  }

  lemma PageSorts(page: seq<FileId>, w: World)
    requires Plain(w) && Rising(page)
    ensures Sorts(page, w, Added(page, w, BatchCount(|page|)), Marked(page, w, BatchCount(|page|)), Leftover(page, w))
  {
    var n := BatchCount(|page|);
    AddedAreReadable(page, w, n);
    MarkedAreUnreadable(page, w, n);
    LeftoverIs(page, w);
    forall id | id in page
      ensures id in Added(page, w, n) <==> ReadOf(w, id) == Readable
      ensures id in Marked(page, w, n) <==> ReadOf(w, id) != Readable && id !in Leftover(page, w)
    {
      PageFate(page, w, id);
    }
  }

  lemma CommitSettles(s: IndexState, folder: FolderId, w: World, page: seq<FileId>, rest: seq<FileId>, added: seq<FileId>,
                      marked: set<FileId>, left: seq<FileId>, embed: FileId -> Vector)
    requires IndexOf(s, folder).Good? && Splits(s, folder, page, rest) && Sorts(page, w, added, marked, left)
    ensures Settled(s, Commit(Retire(s, marked), folder, added, embed), folder, w, left + rest)
  {
  }

  lemma PassAnswers(s: IndexState, folder: FolderId, page: seq<FileId>, w: World, embed: FileId -> Vector, isImage: string -> bool)
    requires Plain(w) && IndexOf(s, folder).Good? && forall id :: id in page ==> id in s.files
    ensures AddToIndexEffect(s, folder, page, w, embed, isImage).1 == Returned(!Blocks(page, w, PicturesOf(s, isImage)))
  {
    CleanPassSucceedsIff(s, folder, page, w, embed, isImage);
  }

  /** One pass with nothing failing: what it settles, what it leaves, and whether the build goes on. */
  lemma PlainPass(s: IndexState, folder: FolderId, w: World, embed: FileId -> Vector, isImage: string -> bool)
    requires Plain(w) && IndexOf(s, folder).Good?
    ensures var queue := InOrder(PendingIds(s, folder));
            var (s', result) := AddToIndexEffect(s, folder, PageOf(queue), w, embed, isImage);
            IndexOf(s', folder).Good? && Settled(s, s', folder, w, NextQueue(queue, w))
            && result == Returned(!Blocks(PageOf(queue), w, PicturesOf(s, isImage)))
  {
    var page := PageOf(InOrder(PendingIds(s, folder)));
    assert forall id :: id in page ==> id in s.files by {
      QueueSplits(s, folder);
    }
    PassAnswers(s, folder, page, w, embed, isImage);
    if NoneReadable(page, w) {
      UnreadablePageSettles(s, folder, w, embed, isImage);
    } else {
      ReadablePageSettles(s, folder, w, embed, isImage);
    }
  }

  /** What a build from a state leaves pending. */
  ghost function LeftPending(s: IndexState, folder: FolderId, w: World, isImage: string -> bool): seq<FileId> {
    InOrderIs(PendingIds(s, folder));
    Leaves(InOrder(PendingIds(s, folder)), w, PicturesOf(s, isImage))
  }

  /** A build between two passes. */
  ghost predicate Underway(s0: IndexState, s: IndexState, folder: FolderId, w: World, isImage: string -> bool) {
    var queue := InOrder(PendingIds(s, folder));
    && IndexOf(s, folder).Good? && (forall id :: id in queue ==> id in PendingIds(s0, folder))
    && Settled(s0, s, folder, w, queue)
    && LeftPending(s, folder, w, isImage) == LeftPending(s0, folder, w, isImage)
  }

  /** A build at its end. */
  ghost predicate Finished(s0: IndexState, s: IndexState, folder: FolderId, w: World, isImage: string -> bool) {
    Settled(s0, s, folder, w, LeftPending(s0, folder, w, isImage))
  }

  lemma UnderwayFromStart(s: IndexState, folder: FolderId, w: World, isImage: string -> bool)
    requires IndexOf(s, folder).Good?
    ensures Underway(s, s, folder, w, isImage)
  {
    InOrderIs(PendingIds(s, folder));
  }

  lemma SamePictures(s: IndexState, s': IndexState, isImage: string -> bool)
    requires SamePlaces(s, s')
    ensures PicturesOf(s', isImage) == PicturesOf(s, isImage)
  {
    forall id
      ensures id in PicturesOf(s', isImage) <==> id in PicturesOf(s, isImage)
    {
      assert id in s.files <==> id in s'.files;
    }
  }

  lemma PassMovesOn(s0: IndexState, s: IndexState, folder: FolderId, w: World, embed: FileId -> Vector, isImage: string -> bool)
    requires Plain(w) && Underway(s0, s, folder, w, isImage) && InOrder(PendingIds(s, folder)) != []
    ensures var (s', result) := AddToIndexEffect(s, folder, PageOf(InOrder(PendingIds(s, folder))), w, embed, isImage);
            if result == Returned(true) then Underway(s0, s', folder, w, isImage) else Finished(s0, s', folder, w, isImage)
  {
    var queue := InOrder(PendingIds(s, folder));
    var next := NextQueue(queue, w);
    var (s', result) := AddToIndexEffect(s, folder, PageOf(queue), w, embed, isImage);
    InOrderIs(PendingIds(s, folder));
    PlainPass(s, folder, w, embed, isImage);
    NextQueueShrinks(queue, w);
    SettledTwice(s0, s, s', folder, w, queue, next);
    SettledPending(s, s', folder, w, next);
    SamePictures(s, s', isImage);
  }

  lemma UnderwayEnds(s0: IndexState, s: IndexState, folder: FolderId, w: World, isImage: string -> bool)
    requires Underway(s0, s, folder, w, isImage) && InOrder(PendingIds(s, folder)) == []
    ensures Finished(s0, s, folder, w, isImage)
  {
  }

  lemma FinishedPending(s0: IndexState, s: IndexState, folder: FolderId, w: World, isImage: string -> bool)
    requires Finished(s0, s, folder, w, isImage)
    ensures InOrder(PendingIds(s, folder)) == LeftPending(s0, folder, w, isImage)
  {
    InOrderIs(PendingIds(s0, folder));
    LeavesIs(InOrder(PendingIds(s0, folder)), w, PicturesOf(s0, isImage));
    SettledPending(s0, s, folder, w, LeftPending(s0, folder, w, isImage));
  }

  ghost function PagesOf(s: IndexState, folder: FolderId, w: World): seq<seq<FileId>> {
    InOrderIs(PendingIds(s, folder));
    Pages(InOrder(PendingIds(s, folder)), w)
  }

  /** A build in which nothing fails goes through all files exactly when no page before its last is without a
      readable file and holds one that counts as a picture. */
  lemma BuildGoesThroughIff(s0: IndexState, s: IndexState, folder: FolderId, w: World, isImage: string -> bool)
    requires Finished(s0, s, folder, w, isImage)
    ensures (forall id :: id !in PendingIds(s, folder))
       <==> NoneBlocksBefore(PagesOf(s0, folder, w), w, PicturesOf(s0, isImage))
  {
    FinishedPending(s0, s, folder, w, isImage);
    InOrderIs(PendingIds(s0, folder));
    InOrderIs(PendingIds(s, folder));
    NothingLeftIff(InOrder(PendingIds(s0, folder)), w, PicturesOf(s0, isImage));
    if LeftPending(s0, folder, w, isImage) != [] {
      var first := LeftPending(s0, folder, w, isImage)[0];
      assert first in LeftPending(s0, folder, w, isImage);
    }
  }

  /** With fewer than a hundred unreadable files pending it goes through all of them: the readable ones are
      indexed, the others given up. */
  lemma FewUnreadableGoThrough(s0: IndexState, s: IndexState, folder: FolderId, w: World, isImage: string -> bool)
    requires Finished(s0, s, folder, w, isImage)
    requires |set id | id in PendingIds(s0, folder) && ReadOf(w, id) != Readable| < PAGE
    ensures forall id :: id in PendingIds(s0, folder) ==>
              s.files[id].status == if ReadOf(w, id) == Readable then Indexed else Retired
  {
    var queue := InOrder(PendingIds(s0, folder));
    InOrderIs(PendingIds(s0, folder));
    SubsetSize(Unreadable(queue, w), set id | id in PendingIds(s0, folder) && ReadOf(w, id) != Readable);
    FewUnreadableLeaveNothing(queue, w, PicturesOf(s0, isImage));
  }

  /** A hundred broken pictures in front end the build; the good one behind them is never tried. */
  lemma GoodFileLeftOver(w: World, pictures: set<FileId>)
    requires forall id :: 1 <= id <= 101 ==> (ReadOf(w, id) == Readable <==> id == 101)
    requires 1 in pictures
    ensures Leaves(seq(101, i => i + 1), w, pictures) == [101]
  {
    var queue: seq<FileId> := seq(101, i => i + 1);
    var page := PageOf(queue);
    assert |page| == 100 && page[0] == 1 && forall i :: 0 <= i < 100 ==> page[i] == i + 1;
    assert page[0] in page;
    assert NoneReadable(page, w);
    assert queue[100..] == [101];
    assert NextQueue(queue, w) == [] + [101];
  }
}
