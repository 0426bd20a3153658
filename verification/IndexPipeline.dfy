/** The indexing pipeline: dt_image_search/index/dts_index.py, index/image_processor.py and the file table of
    model/dts_db.py. An index file is a list of (id, vector) entries; what a picture shows and how the model
    embeds it are functions fixed for the life of a file row. */
module IndexPipeline {
  import opened Options

  type FileId = int
  type FolderId = int
  type Image = seq<int>
  type Vector = seq<int>

  datatype FileStatus = Pending | Indexed | Retired
  datatype FileRow = FileRow(path: string, folder: FolderId, clip: Option<int>, status: FileStatus)
  datatype IndexFile = Missing | Corrupt | Good(entries: seq<(FileId, Vector)>)
  datatype IndexState = IndexState(files: map<FileId, FileRow>, indexes: map<FolderId, IndexFile>)

  /** The outside world during one call: which pictures can be read, and what fails. */
  datatype Read = Readable | NotFound | Undecodable
  datatype BatchFault =
    | NoFault
    | WorkerFails           // the future or the encoder raises: nothing of the batch is kept
    | StackFails            // the worker cannot stack its tensors
    | MarkFails(deletedMarked: bool)  // the database write after the features were taken raises
  datatype World = World(modelReady: bool, submitOk: bool, writeOk: bool,
                         unread: map<FileId, Read>, faults: map<nat, BatchFault>)

  datatype AddResult = Returned(ok: bool) | RaisedCorrupt | RaisedOther

  /** What the decoder says of a file: what `unread` says, else it is readable. */
  function ReadOf(w: World, id: FileId): Read {
    if id in w.unread then w.unread[id] else Readable
  }

  function FaultOf(w: World, i: nat): BatchFault {
    if i in w.faults then w.faults[i] else NoFault
  }

  const BATCH := 16
  const PAGE := 100

  // ----- state changes -----

  function IndexOf(s: IndexState, folder: FolderId): IndexFile {
    if folder in s.indexes then s.indexes[folder] else Missing
  }

  /** `mark_files_deleted` and `mark_files_skipped`: both set status 2. */
  function Retire(s: IndexState, ids: set<FileId>): IndexState {
    s.(files := map id | id in s.files :: if id in ids then s.files[id].(status := Retired) else s.files[id])
  }

  function Entries(ids: seq<FileId>, embed: FileId -> Vector): seq<(FileId, Vector)> {
    seq(|ids|, i requires 0 <= i < |ids| => (ids[i], embed(ids[i])))
  }

  function WithEntries(s: IndexState, folder: FolderId, ids: seq<FileId>, embed: FileId -> Vector): IndexState
    requires IndexOf(s, folder).Good?
  {
    s.(indexes := s.indexes[folder := Good(IndexOf(s, folder).entries + Entries(ids, embed))])
  }

  function WithIndexed(s: IndexState, ids: seq<FileId>): IndexState {
    s.(files := map id | id in s.files ::
         if id in ids then s.files[id].(clip := Some(id), status := Indexed) else s.files[id])
  }

  /** Index write, then database update. */
  function Commit(s: IndexState, folder: FolderId, ids: seq<FileId>, embed: FileId -> Vector): IndexState
    requires IndexOf(s, folder).Good?
  {
    WithIndexed(WithEntries(s, folder, ids, embed), ids)
  }

  function EmptiedIndex(s: IndexState, folder: FolderId): IndexState {
    s.(indexes := s.indexes[folder := Good([])])
  }

  function ResetFiles(s: IndexState, folder: FolderId): IndexState {
    s.(files := map id | id in s.files ::
         if s.files[id].folder == folder && s.files[id].status != Retired
         then s.files[id].(clip := None, status := Pending) else s.files[id])
  }

  /** `_recover_corrupted_index`. */
  function Recovered(s: IndexState, folder: FolderId): IndexState {
    ResetFiles(EmptiedIndex(s, folder), folder)
  }

  function WithIndexCreated(s: IndexState, folder: FolderId): IndexState {
    if IndexOf(s, folder).Missing? then EmptiedIndex(s, folder) else s
  }

  /** `insert_file`: the unique index is on folder and path together, so the same path may be a file of several
      folders; one already there and retired becomes pending again. */
  function WithFile(s: IndexState, path: string, folder: FolderId, newId: FileId): IndexState {
    if exists id :: id in s.files && s.files[id].path == path && s.files[id].folder == folder then
      s.(files := map id | id in s.files ::
           if s.files[id].path == path && s.files[id].folder == folder && s.files[id].status == Retired
           then s.files[id].(status := Pending) else s.files[id])
    else s.(files := s.files[newId := FileRow(path, folder, None, Pending)])
  }

  /** `delete_files_by_ids`. */
  function Without(s: IndexState, ids: set<FileId>): IndexState {
    s.(files := map id | id in s.files && id !in ids :: s.files[id])
  }

  /** Two rows of different folders would end up at one place: the update raises, and leaving the connection's
      context rolls the deletion back. */
  predicate RenameRaises(s: IndexState, oldPath: string, newPath: string) {
    oldPath != newPath && TwoRowsAt(s.files, oldPath)
  }

  predicate TwoRowsAt(files: map<FileId, FileRow>, path: string) {
    exists a, b :: a in files && b in files && a != b && files[a].path == path && files[b].path == path
  }

  lemma RowsAtOldPath(files: map<FileId, FileRow>, oldPath: string, newPath: string)
    ensures TwoRowsAt(map id | id in files && files[id].path != newPath :: files[id], oldPath)
       <==> oldPath != newPath && TwoRowsAt(files, oldPath)
  {
    var kept := map id | id in files && files[id].path != newPath :: files[id];
    if a, b :| a in files && b in files && a != b && files[a].path == oldPath && files[b].path == oldPath {
      assert oldPath != newPath ==> a in kept && b in kept;
    }
  }

  /** `rename_file`: whatever had the new path is dropped, then the old path's row takes it over. */
  function Renamed(s: IndexState, oldPath: string, newPath: string, dest: FolderId): IndexState {
    if RenameRaises(s, oldPath, newPath) then s
    else
      s.(files := map id | id in s.files && s.files[id].path != newPath ::
           if s.files[id].path == oldPath then s.files[id].(path := newPath, folder := dest) else s.files[id])
  }

  /** The index file is gone. */
  function WithoutIndex(s: IndexState, folder: FolderId): IndexState {
    s.(indexes := s.indexes[folder := Missing])
  }

  /** `delete_folder`: the index file first, the rows last. */
  function WithoutFolder(s: IndexState, folder: FolderId): IndexState {
    WithoutIndex(s, folder).(files := map id | id in s.files && s.files[id].folder != folder :: s.files[id])
  }

  // ----- batches -----

  function Slice(ids: seq<FileId>, i: nat): seq<FileId> {
    var lo := if BATCH * i < |ids| then BATCH * i else |ids|;
    var hi := if BATCH * (i + 1) < |ids| then BATCH * (i + 1) else |ids|;
    ids[lo..hi]
  }

  function BatchCount(n: nat): nat {
    (n + BATCH - 1) / BATCH
  }

  function Having(ids: seq<FileId>, w: World, want: Read): seq<FileId> {
    if ids == [] then []
    else
      var last := ids[|ids| - 1];
      var front := Having(ids[..|ids| - 1], w, want);
      if ReadOf(w, last) == want then front + [last] else front
  }

  /** A batch that yields a tensor at all. */
  predicate Yields(ids: seq<FileId>, w: World, i: nat) {
    Having(ids, w, Readable) != [] && FaultOf(w, i) != StackFails && FaultOf(w, i) != WorkerFails
  }

  function Taken(ids: seq<FileId>, w: World, i: nat): seq<FileId> {
    if Yields(Slice(ids, i), w, i) then Having(Slice(ids, i), w, Readable) else []
  }

  function Joined(parts: seq<seq<FileId>>): seq<FileId> {
    if parts == [] then [] else Joined(parts[..|parts| - 1]) + parts[|parts| - 1]
  }

  function Parts(ids: seq<FileId>, w: World, n: nat): seq<seq<FileId>> {
    seq(n, i requires 0 <= i < n => Taken(ids, w, i))
  }

  /** The files whose features the first `n` batches contribute, in order. */
  function Added(ids: seq<FileId>, w: World, n: nat): seq<FileId> {
    Joined(Parts(ids, w, n))
  }

  /** The files one batch marks as gone or undecodable. */
  function BatchMarked(slice: seq<FileId>, w: World, i: nat): set<FileId> {
    if !Yields(slice, w, i) then {}
    else
      var deleted, invalid := set id | id in Having(slice, w, NotFound), set id | id in Having(slice, w, Undecodable);
      match FaultOf(w, i)
      case MarkFails(deletedMarked) => if deletedMarked then deleted else {}
      case _ => deleted + invalid
  }

  /** The files the first `n` batches mark. */
  function Marked(ids: seq<FileId>, w: World, n: nat): set<FileId>
    decreases n
  {
    if n == 0 then {} else Marked(ids, w, n - 1) + BatchMarked(Slice(ids, n - 1), w, n - 1)
  }

  predicate BatchClean(fault: BatchFault, tensor: bool) {
    fault != WorkerFails && (tensor ==> !fault.MarkFails?)
  }

  predicate Clean(ids: seq<FileId>, w: World, n: nat)
    decreases n
  {
    n == 0 || (Clean(ids, w, n - 1) && BatchClean(FaultOf(w, n - 1), Yields(Slice(ids, n - 1), w, n - 1)))
  }

  /** `_add_to_index`. */
  function AddToIndexEffect(s: IndexState, folder: FolderId, ids: seq<FileId>, w: World,
                            embed: FileId -> Vector, isImage: string -> bool): (IndexState, AddResult)
  {
    if !w.modelReady then (s, Returned(false))
    else match IndexOf(s, folder)
      case Missing => (s, RaisedOther)
      case Corrupt => (Recovered(s, folder), RaisedCorrupt)
      case Good(_) =>
        var n := if w.submitOk then BatchCount(|ids|) else 0;
        var marked := Retire(s, Marked(ids, w, n));
        var added := Added(ids, w, n);
        if added == [] then
          (Retire(marked, set id | id in ids),
           Returned(forall id :: id in ids ==> id in s.files && !isImage(s.files[id].path)))
        else if !w.writeOk then (marked, RaisedOther)
        else (Commit(marked, folder, added, embed), Returned(Clean(ids, w, n)))
  }

  // ----- the imperative pipeline -----

  lemma HavingSnoc(ids: seq<FileId>, i: nat, w: World, want: Read)
    requires i < |ids|
    ensures Having(ids[..i + 1], w, want) ==
            if ReadOf(w, ids[i]) == want then Having(ids[..i], w, want) + [ids[i]] else Having(ids[..i], w, want)
  {
    assert ids[..i + 1][..i] == ids[..i];
  }

  /** `process_image_batch`: the pictures handed on line up with the files they came from. Without a single
      readable picture, or when stacking fails, the lists of missing and broken files are lost. */
  method ProcessImageBatch(ids: seq<FileId>, w: World, stackOk: bool, image: FileId -> Image)
    returns (tensor: Option<seq<Image>>, valid: seq<FileId>, deleted: seq<FileId>, invalid: seq<FileId>)
    ensures tensor.Some? <==> Having(ids, w, Readable) != [] && stackOk
    ensures tensor.Some? ==> valid == Having(ids, w, Readable) && deleted == Having(ids, w, NotFound)
                             && invalid == Having(ids, w, Undecodable)
    ensures tensor.Some? ==> |tensor.value| == |valid| && forall j :: 0 <= j < |valid| ==> tensor.value[j] == image(valid[j])
    ensures tensor.None? ==> valid == [] && deleted == [] && invalid == []
  {
    var images: seq<Image> := [];
    valid, deleted, invalid := [], [], [];
    for i := 0 to |ids|
      invariant valid == Having(ids[..i], w, Readable)
      invariant deleted == Having(ids[..i], w, NotFound)
      invariant invalid == Having(ids[..i], w, Undecodable)
      invariant |images| == |valid| && forall j :: 0 <= j < |valid| ==> images[j] == image(valid[j])
    {
      HavingSnoc(ids, i, w, Readable);
      HavingSnoc(ids, i, w, NotFound);
      HavingSnoc(ids, i, w, Undecodable);
      match ReadOf(w, ids[i]) {
        case Readable =>
          images := images + [image(ids[i])];
          valid := valid + [ids[i]];
        case NotFound =>
          deleted := deleted + [ids[i]];
        case Undecodable =>
          invalid := invalid + [ids[i]];
      }
    }
    assert ids[..|ids|] == ids;
    if images != [] && stackOk {
      tensor := Some(images);
    } else {
      tensor, valid, deleted, invalid := None, [], [], [];
    }
  }

  lemma MinimumExists(s: set<int>)
    requires exists x :: x in s
    ensures exists k :: k in s && forall j :: j in s ==> k <= j
  {
    var x :| x in s;
    var rest := s - {x};
    assert forall j :: j in s ==> j == x || j in rest;
    if exists y :: y in rest {
      MinimumExists(rest);
      var k :| k in rest && forall j :: j in rest ==> k <= j;
      var least := if x < k then x else k;
      assert least in s;
    }
  }

  function PendingIds(s: IndexState, folder: FolderId): set<FileId> {
    set id | id in s.files && s.files[id].folder == folder && s.files[id].status == Pending
  }

  // ----- agreement of index and table -----

  /** The index holds the file's own embedding under its id. A corrupt index answers no query until it is rebuilt. */
  ghost predicate HasOwn(index: IndexFile, id: FileId, embed: FileId -> Vector) {
    index.Corrupt? || (index.Good? && (id, embed(id)) in index.entries)
  }

  ghost predicate RowOk(s: IndexState, id: FileId, embed: FileId -> Vector)
    requires id in s.files
  {
    var row := s.files[id];
    if row.status == Indexed then row.clip == Some(id) && HasOwn(IndexOf(s, row.folder), id, embed)
    else row.clip == None
  }

  /** An indexed file's clip index is its own id. */
  ghost predicate ClipsOwn(s: IndexState) {
    forall id :: id in s.files && s.files[id].status == Indexed ==> s.files[id].clip == Some(id)
  }

  /** A file that is not indexed has no clip index. */
  ghost predicate ClipsClear(s: IndexState) {
    forall id :: id in s.files && s.files[id].status != Indexed ==> s.files[id].clip == None
  }

  /** What both callers of `_add_to_index` hand to it. */
  ghost predicate ArePending(s: IndexState, ids: seq<FileId>) {
    forall id :: id in ids ==> id in s.files && s.files[id].status == Pending
  }

  /** Every indexed file is found under its own id with its own embedding; no other file has a clip index. */
  ghost predicate Agreement(s: IndexState, embed: FileId -> Vector) {
    forall id :: id in s.files ==> RowOk(s, id, embed)
  }

  lemma SliceWithin(ids: seq<FileId>, i: nat)
    ensures forall id :: id in Slice(ids, i) ==> id in ids
  {
  }

  lemma TakenIsReadable(ids: seq<FileId>, w: World, i: nat, id: FileId)
    requires id in Taken(ids, w, i)
    ensures id in ids && ReadOf(w, id) == Readable
  {
    HavingIsFilter(Slice(ids, i), w, Readable);
    SliceWithin(ids, i);
  }

  lemma {:induction false} JoinedHas(parts: seq<seq<FileId>>, id: FileId)
    ensures id in Joined(parts) <==> exists i :: 0 <= i < |parts| && id in parts[i]
  {
    if parts != [] {
      var front, n := parts[..|parts| - 1], |parts| - 1;
      JoinedHas(front, id);
      assert forall i :: 0 <= i < n ==> front[i] == parts[i];
      if id in parts[n] {
      } else if i :| 0 <= i < |parts| && id in parts[i] {
        assert id in front[i];
      }
    }
  }

  lemma AddedAreReadable(ids: seq<FileId>, w: World, n: nat)
    ensures forall id :: id in Added(ids, w, n) ==> id in ids && ReadOf(w, id) == Readable
  {
    forall id | id in Added(ids, w, n)
      ensures id in ids && ReadOf(w, id) == Readable
    {
      JoinedHas(Parts(ids, w, n), id);
      var i :| 0 <= i < n && id in Taken(ids, w, i);
      TakenIsReadable(ids, w, i, id);
    }
  }

  lemma {:induction false} MarkedAreUnreadable(ids: seq<FileId>, w: World, n: nat)
    ensures forall id :: id in Marked(ids, w, n) ==> id in ids && ReadOf(w, id) != Readable
    decreases n
  {
    if n > 0 {
      MarkedAreUnreadable(ids, w, n - 1);
      SliceWithin(ids, n - 1);
      HavingIsFilter(Slice(ids, n - 1), w, NotFound);
      HavingIsFilter(Slice(ids, n - 1), w, Undecodable);
    }
  }

  lemma {:induction false} HavingIsFilter(ids: seq<FileId>, w: World, want: Read)
    ensures forall id :: id in Having(ids, w, want) <==> id in ids && ReadOf(w, id) == want
  {
    if ids != [] {
      HavingIsFilter(ids[..|ids| - 1], w, want);
      assert ids == ids[..|ids| - 1] + [ids[|ids| - 1]];
    }
  }

  /** A pass of `_add_to_index` that reports success takes at least one file out of the pending set, even
      when whole batches came back empty, and puts none in. */
  lemma SuccessfulPassRetiresSome(s: IndexState, folder: FolderId, ids: seq<FileId>, w: World,
                                  embed: FileId -> Vector, isImage: string -> bool)
    requires ids != [] && forall id :: id in ids ==> id in PendingIds(s, folder)
    requires AddToIndexEffect(s, folder, ids, w, embed, isImage).1 == Returned(true)
    ensures PendingIds(AddToIndexEffect(s, folder, ids, w, embed, isImage).0, folder) < PendingIds(s, folder)
  {
    var s' := AddToIndexEffect(s, folder, ids, w, embed, isImage).0;
    var n := if w.submitOk then BatchCount(|ids|) else 0;
    var added := Added(ids, w, n);
    AddedAreReadable(ids, w, n);
    var gone := if added == [] then ids[0] else added[0];
    assert gone in ids && gone in PendingIds(s, folder);
    assert gone !in PendingIds(s', folder) by {
      if added != [] {
        assert gone in added;
      }
    }
  }

  lemma {:induction false} PendingAreUnindexed(s: IndexState, folder: FolderId, page: seq<FileId>)
    requires ClipsClear(s) && forall id :: id in page ==> id in PendingIds(s, folder)
    ensures Unindexed(s.files, page) == page
  {
    if page != [] {
      var front, last := page[..|page| - 1], page[|page| - 1];
      assert page == front + [last];
      assert last in page && forall id :: id in front ==> id in page;
      PendingAreUnindexed(s, folder, front);
    }
  }

  lemma AddKeepsClear(s: IndexState, folder: FolderId, ids: seq<FileId>, w: World, embed: FileId -> Vector,
                      isImage: string -> bool)
    requires ClipsClear(s) && ArePending(s, ids)
    ensures ClipsClear(AddToIndexEffect(s, folder, ids, w, embed, isImage).0)
  {
    MarkedAreUnreadable(ids, w, if w.submitOk then BatchCount(|ids|) else 0);
  }

  lemma SomePending(s: IndexState, folder: FolderId, page: seq<FileId>)
    requires page != [] && forall id :: id in page ==> id in PendingIds(s, folder)
    ensures |PendingIds(s, folder)| > 0
  {
    var first := page[0];
    assert first in page;
  }

  lemma SmallerSet(a: set<FileId>, b: set<FileId>)
    requires a < b
    ensures |a| < |b|
  {
    assert b == a + (b - a);
  }

  /** Ids keep their paths and folders. */
  ghost predicate SamePlaces(s: IndexState, s': IndexState) {
    s'.files.Keys == s.files.Keys &&
    forall id :: id in s.files ==> s'.files[id].path == s.files[id].path && s'.files[id].folder == s.files[id].folder
  }

  lemma AddKeepsPlaces(s: IndexState, folder: FolderId, ids: seq<FileId>, w: World,
                       embed: FileId -> Vector, isImage: string -> bool)
    ensures SamePlaces(s, AddToIndexEffect(s, folder, ids, w, embed, isImage).0)
  {
  }

  lemma IndexCreatedKeeps(s: IndexState, folder: FolderId, embed: FileId -> Vector)
    requires Agreement(s, embed)
    ensures Agreement(WithIndexCreated(s, folder), embed)
  {
    var s' := WithIndexCreated(s, folder);
    forall id | id in s'.files
      ensures RowOk(s', id, embed)
    {
      assert RowOk(s, id, embed);
    }
  }

  /** Retiring is harmless exactly for files that are not indexed. */
  lemma RetireKeepsIff(s: IndexState, ids: set<FileId>, embed: FileId -> Vector)
    requires Agreement(s, embed)
    ensures Agreement(Retire(s, ids), embed) <==> forall id :: id in ids && id in s.files ==> s.files[id].status != Indexed
  {
    var s' := Retire(s, ids);
    forall id | id in s.files
      ensures RowOk(s, id, embed)
      ensures !(id in ids && s.files[id].status == Indexed) ==> RowOk(s', id, embed)
      ensures id in ids && s.files[id].status == Indexed ==> !RowOk(s', id, embed)
    {
    }
    if id :| id in ids && id in s.files && s.files[id].status == Indexed {
      assert !RowOk(s', id, embed);
    }
  }

  lemma EntryAt(ids: seq<FileId>, embed: FileId -> Vector, id: FileId)
    requires id in ids
    ensures (id, embed(id)) in Entries(ids, embed)
  {
    var i :| 0 <= i < |ids| && ids[i] == id;
    assert Entries(ids, embed)[i] == (id, embed(id));
  }

  /** The process stops after the index was written and before the table was: nothing is wrong, the ids are
      merely in the index already. */
  lemma CrashAfterIndexWriteKeeps(s: IndexState, folder: FolderId, ids: seq<FileId>, embed: FileId -> Vector)
    requires Agreement(s, embed) && IndexOf(s, folder).Good?
    ensures Agreement(WithEntries(s, folder, ids, embed), embed)
  {
    var s' := WithEntries(s, folder, ids, embed);
    forall id | id in s'.files
      ensures RowOk(s', id, embed)
    {
      assert RowOk(s, id, embed);
    }
  }

  /** Exactly when a commit keeps the agreement: every file committed belongs to the folder whose index was
      written, or its own folder's index happens to hold it already. */
  lemma CommitKeepsIff(s: IndexState, folder: FolderId, ids: seq<FileId>, embed: FileId -> Vector)
    requires Agreement(s, embed) && IndexOf(s, folder).Good?
    ensures Agreement(Commit(s, folder, ids, embed), embed)
       <==> forall id :: id in ids && id in s.files ==>
              s.files[id].folder == folder || HasOwn(IndexOf(s, s.files[id].folder), id, embed)
  {
    var s' := Commit(s, folder, ids, embed);
    forall id | id in s.files
      ensures id !in ids ==> RowOk(s', id, embed)
      ensures id in ids ==> (RowOk(s', id, embed) <==>
                (s.files[id].folder == folder || HasOwn(IndexOf(s, s.files[id].folder), id, embed)))
    {
      assert RowOk(s, id, embed);
      if id in ids {
        EntryAt(ids, embed, id);
      }
    }
    if id :| id in ids && id in s.files && !(s.files[id].folder == folder || HasOwn(IndexOf(s, s.files[id].folder), id, embed)) {
      assert !RowOk(s', id, embed);
    }
  }

  lemma RecoveryKeeps(s: IndexState, folder: FolderId, embed: FileId -> Vector)
    requires Agreement(s, embed)
    ensures Agreement(Recovered(s, folder), embed)
  {
    var s' := Recovered(s, folder);
    forall id | id in s'.files
      ensures RowOk(s', id, embed)
    {
      assert RowOk(s, id, embed);
    }
  }

  /** An index file that is moved away, or replaced by an empty one, before the rows are dealt with: the
      agreement survives exactly when the folder had no indexed file. */
  lemma IndexLostKeepsIff(s: IndexState, folder: FolderId, index: IndexFile, embed: FileId -> Vector)
    requires Agreement(s, embed) && index in {Missing, Good([])}
    ensures Agreement(s.(indexes := s.indexes[folder := index]), embed)
       <==> forall id :: id in s.files && s.files[id].folder == folder ==> s.files[id].status != Indexed
  {
    var s' := s.(indexes := s.indexes[folder := index]);
    forall id | id in s.files
      ensures RowOk(s', id, embed) <==> !(s.files[id].folder == folder && s.files[id].status == Indexed)
    {
      assert RowOk(s, id, embed);
    }
    if id :| id in s.files && s.files[id].folder == folder && s.files[id].status == Indexed {
      assert !RowOk(s', id, embed);
    }
  }

  /** Recovery is not crash-safe: it moves the corrupt file away and writes an empty one before it resets the
      rows. Stopping at either point keeps the agreement exactly when the folder had no indexed file. */
  lemma CrashInRecoveryKeepsIff(s: IndexState, folder: FolderId, embed: FileId -> Vector)
    requires Agreement(s, embed) && IndexOf(s, folder).Corrupt?
    ensures Agreement(WithoutIndex(s, folder), embed)
       <==> forall id :: id in s.files && s.files[id].folder == folder ==> s.files[id].status != Indexed
    ensures Agreement(EmptiedIndex(s, folder), embed)
       <==> forall id :: id in s.files && s.files[id].folder == folder ==> s.files[id].status != Indexed
  {
    IndexLostKeepsIff(s, folder, Missing, embed);
    IndexLostKeepsIff(s, folder, Good([]), embed);
  }

  /** Deleting a folder keeps the agreement once its rows are gone too. */
  lemma WithoutFolderKeeps(s: IndexState, folder: FolderId, embed: FileId -> Vector)
    requires Agreement(s, embed)
    ensures Agreement(WithoutFolder(s, folder), embed)
  {
    var s' := WithoutFolder(s, folder);
    forall id | id in s'.files
      ensures RowOk(s', id, embed)
    {
      assert RowOk(s, id, embed);
    }
  }

  lemma AddKeepsAgreement(s: IndexState, folder: FolderId, ids: seq<FileId>, w: World,
                          embed: FileId -> Vector, isImage: string -> bool)
    requires Agreement(s, embed)
    requires forall id :: id in ids ==> id in s.files && s.files[id].folder == folder && s.files[id].status == Pending
    ensures Agreement(AddToIndexEffect(s, folder, ids, w, embed, isImage).0, embed)
  {
    var n := if w.submitOk then BatchCount(|ids|) else 0;
    var added, marked := Added(ids, w, n), Marked(ids, w, n);
    AddedAreReadable(ids, w, n);
    MarkedAreUnreadable(ids, w, n);
    RecoveryKeeps(s, folder, embed);
    RetireKeepsIff(s, marked, embed);
    RetireTwice(s, marked, set id | id in ids);
    RetireKeepsIff(s, marked + (set id | id in ids), embed);
    if IndexOf(s, folder).Good? {
      CommitKeepsIff(Retire(s, marked), folder, added, embed);
    }
  }

  /** With nothing failing around it, a pass reports success exactly when some picture was readable or none
      of the files is a picture: one unreadable page stops the build although it was retired. */
  lemma CleanPassSucceedsIff(s: IndexState, folder: FolderId, ids: seq<FileId>, w: World,
                             embed: FileId -> Vector, isImage: string -> bool)
    requires IndexOf(s, folder).Good? && w.modelReady && w.submitOk && w.writeOk
    requires forall i: nat :: FaultOf(w, i) == NoFault
    ensures AddToIndexEffect(s, folder, ids, w, embed, isImage).1 == Returned(true)
       <==> (exists id :: id in ids && ReadOf(w, id) == Readable)
            || (forall id :: id in ids ==> id in s.files && !isImage(s.files[id].path))
  {
    var n := BatchCount(|ids|);
    AllClean(ids, w, n);
    AddedAreReadable(ids, w, n);
    AddedCoversReadable(ids, w);
    var added := Added(ids, w, n);
    if added != [] {
      var first := added[0];
      assert first in added;
    }
  }

  /** A page without a readable picture is given up as a whole, and the pass fails if any of it is a picture. */
  lemma UnreadablePageGivenUp(s: IndexState, folder: FolderId, ids: seq<FileId>, w: World,
                              embed: FileId -> Vector, isImage: string -> bool)
    requires IndexOf(s, folder).Good? && w.modelReady && forall id :: id in ids ==> ReadOf(w, id) != Readable
    ensures var (s', result) := AddToIndexEffect(s, folder, ids, w, embed, isImage);
            (forall id :: id in ids && id in s.files ==> id in s'.files && s'.files[id].status == Retired)
            && result == Returned(forall id :: id in ids ==> id in s.files && !isImage(s.files[id].path))
  {
    AddedNeedsReadable(ids, w, if w.submitOk then BatchCount(|ids|) else 0);
  }

  lemma AddedNeedsReadable(ids: seq<FileId>, w: World, n: nat)
    ensures Added(ids, w, n) == [] || exists id :: id in ids && ReadOf(w, id) == Readable
  {
    var added := Added(ids, w, n);
    AddedAreReadable(ids, w, n);
    if added != [] {
      var first := added[0];
      assert first in added;
    }
  }

  lemma {:induction false} AllClean(ids: seq<FileId>, w: World, n: nat)
    requires forall i: nat :: FaultOf(w, i) == NoFault
    ensures Clean(ids, w, n)
    decreases n
  {
    if n > 0 {
      AllClean(ids, w, n - 1);
    }
  }

  /** The batches cover the list: without faults every readable file is added. */
  lemma AddedCoversReadable(ids: seq<FileId>, w: World)
    requires forall i: nat :: FaultOf(w, i) == NoFault
    ensures forall id :: id in Added(ids, w, BatchCount(|ids|)) <==> id in ids && ReadOf(w, id) == Readable
  {
    AddedAreReadable(ids, w, BatchCount(|ids|));
    forall id | id in ids && ReadOf(w, id) == Readable
      ensures id in Added(ids, w, BatchCount(|ids|))
    {
      var at :| 0 <= at < |ids| && ids[at] == id;
      TakenHas(ids, w, at / BATCH, at);
      assert Parts(ids, w, BatchCount(|ids|))[at / BATCH] == Taken(ids, w, at / BATCH);
      JoinedHas(Parts(ids, w, BatchCount(|ids|)), id);
    }
  }

  lemma SliceHas(ids: seq<FileId>, i: nat, at: nat)
    requires at < |ids| && BATCH * i <= at < BATCH * (i + 1)
    ensures ids[at] in Slice(ids, i)
  {
    assert Slice(ids, i)[at - BATCH * i] == ids[at];
  }

  lemma TakenHas(ids: seq<FileId>, w: World, i: nat, at: nat)
    requires FaultOf(w, i) == NoFault
    requires at < |ids| && BATCH * i <= at < BATCH * (i + 1) && ReadOf(w, ids[at]) == Readable
    ensures ids[at] in Taken(ids, w, i)
  {
    SliceHas(ids, i, at);
    HavingIsFilter(Slice(ids, i), w, Readable);
  }

  /** Nothing fails; only the pictures may be unreadable. */
  ghost predicate Plain(w: World) {
    w.modelReady && w.submitOk && w.writeOk && forall i: nat :: FaultOf(w, i) == NoFault
  }

  lemma JoinedStep(parts: seq<seq<FileId>>, i: nat)
    requires i < |parts|
    ensures Joined(parts[..i + 1]) == Joined(parts[..i]) + parts[i]
  {
    assert parts[..i + 1][..i] == parts[..i];
  }

  /** The filter of `build_index`. */
  function Unindexed(files: map<FileId, FileRow>, page: seq<FileId>): seq<FileId> {
    if page == [] then []
    else
      var last := page[|page| - 1];
      var front := Unindexed(files, page[..|page| - 1]);
      if last in files && files[last].clip == None && files[last].status == Pending then front + [last] else front
  }

  lemma RetireNone(s: IndexState)
    ensures Retire(s, {}) == s
  {
  }

  lemma RetireTwice(s: IndexState, a: set<FileId>, b: set<FileId>)
    ensures Retire(Retire(s, a), b) == Retire(s, a + b)
  {
  }
}
