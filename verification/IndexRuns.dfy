/** Every run of the indexing side: file rows come, go and are renamed, indexes are created, damaged and
    recovered, and passes of `_add_to_index` complete or are cut off in the middle of their commits. */
module IndexRuns {
  import opened IndexPipeline

  datatype IndexEvent =
    | Insert(path: string, folder: FolderId, newId: FileId)
    | Delete(ids: set<FileId>)
    | Rename(oldPath: string, newPath: string, dest: FolderId)
    | CreateIndex(inFolder: FolderId)
    | Damage(damaged: FolderId)
    | Pass(of: FolderId, page: seq<FileId>, world: World)
    | CutPass(of: FolderId, page: seq<FileId>, world: World, updated: nat)
    | DeleteFolder(gone: FolderId)
    | LoseIndex(lost: FolderId, emptied: bool)

  /** `_add_to_index` stopped by a crash after the index file was written and `updated` of the row updates,
      which are committed one at a time, were made. */
  function CutEffect(s: IndexState, folder: FolderId, ids: seq<FileId>, w: World, embed: FileId -> Vector,
                     isImage: string -> bool, updated: nat): IndexState
  {
    var n := if w.submitOk then BatchCount(|ids|) else 0;
    var added := Added(ids, w, n);
    if !w.modelReady || !IndexOf(s, folder).Good? || added == [] || !w.writeOk || updated >= |added| then
      AddToIndexEffect(s, folder, ids, w, embed, isImage).0
    else
      WithIndexed(WithEntries(Retire(s, Marked(ids, w, n)), folder, added, embed), added[..updated])
  }

  /** What a recovery or a folder deletion leaves when it is cut off: the index file moved away or emptied, and
      the rows not yet dealt with. */
  function IndexLost(s: IndexState, folder: FolderId, emptied: bool): IndexState {
    if emptied then EmptiedIndex(s, folder) else WithoutIndex(s, folder)
  }

  ghost predicate NoneIndexed(s: IndexState, folder: FolderId) {
    forall id :: id in s.files && s.files[id].folder == folder ==> s.files[id].status != Indexed
  }

  /** A file may move to another folder only while it is not indexed. */
  ghost predicate RenameStays(s: IndexState, oldPath: string, newPath: string, dest: FolderId, embed: FileId -> Vector) {
    forall id :: id in s.files && s.files[id].path == oldPath && oldPath != newPath && s.files[id].status == Indexed ==>
      HasOwn(IndexOf(s, dest), id, embed)
  }

  ghost predicate EnabledAt(s: IndexState, e: IndexEvent, embed: FileId -> Vector) {
    match e
    case Insert(_, _, newId) => newId !in s.files
    case Rename(oldPath, newPath, dest) => RenameRaises(s, oldPath, newPath) || RenameStays(s, oldPath, newPath, dest, embed)
    case Pass(folder, page, _) => forall id :: id in page ==> id in PendingIds(s, folder)
    case CutPass(folder, page, _, _) => forall id :: id in page ==> id in PendingIds(s, folder)
    case LoseIndex(folder, _) => NoneIndexed(s, folder)
    case _ => true
  }

  function After(s: IndexState, e: IndexEvent, embed: FileId -> Vector, isImage: string -> bool): IndexState {
    match e
    case Insert(path, folder, newId) => WithFile(s, path, folder, newId)
    case Delete(ids) => Without(s, ids)
    case Rename(oldPath, newPath, dest) => Renamed(s, oldPath, newPath, dest)
    case CreateIndex(folder) => WithIndexCreated(s, folder)
    case Damage(folder) => s.(indexes := s.indexes[folder := Corrupt])
    case Pass(folder, page, w) => AddToIndexEffect(s, folder, page, w, embed, isImage).0
    case CutPass(folder, page, w, updated) => CutEffect(s, folder, page, w, embed, isImage, updated)
    case DeleteFolder(folder) => WithoutFolder(s, folder)
    case LoseIndex(folder, emptied) => IndexLost(s, folder, emptied)
  }

  function Run(events: seq<IndexEvent>, embed: FileId -> Vector, isImage: string -> bool): IndexState {
    if events == [] then IndexState(map[], map[])
    else After(Run(events[..|events| - 1], embed, isImage), events[|events| - 1], embed, isImage)
  }

  ghost predicate ValidRun(events: seq<IndexEvent>, embed: FileId -> Vector, isImage: string -> bool) {
    events == [] ||
    (ValidRun(events[..|events| - 1], embed, isImage)
     && EnabledAt(Run(events[..|events| - 1], embed, isImage), events[|events| - 1], embed))
  }

  /** Nothing in an index file is anybody else's embedding. */
  ghost predicate Honest(s: IndexState, embed: FileId -> Vector) {
    forall folder, e :: folder in s.indexes && s.indexes[folder].Good? && e in s.indexes[folder].entries ==> e.1 == embed(e.0)
  }

  /** The unique index on folder and path: no folder has two rows for one path. */
  ghost predicate PlacesUnique(s: IndexState) {
    forall a, b :: a in s.files && b in s.files && s.files[a].path == s.files[b].path && s.files[a].folder == s.files[b].folder ==>
      a == b
  }

  lemma WithFileKeeps(s: IndexState, path: string, folder: FolderId, newId: FileId, embed: FileId -> Vector)
    requires Agreement(s, embed) && newId !in s.files
    ensures Agreement(WithFile(s, path, folder, newId), embed)
  {
    var s' := WithFile(s, path, folder, newId);
    forall id | id in s'.files
      ensures RowOk(s', id, embed)
    {
      assert id in s.files ==> RowOk(s, id, embed);
    }
  }

  /** After an insertion the path has a row of the folder that is not given up; other rows are as they were. */
  lemma InsertedFileCounts(s: IndexState, path: string, folder: FolderId, newId: FileId)
    requires newId !in s.files && PlacesUnique(s)
    ensures var s' := WithFile(s, path, folder, newId);
            && (exists id :: id in s'.files && s'.files[id].path == path && s'.files[id].folder == folder
                             && s'.files[id].status != Retired && (id in s.files || s'.files[id].status == Pending))
            && (forall id :: id in s.files && !(s.files[id].path == path && s.files[id].folder == folder) ==>
                  id in s'.files && s'.files[id] == s.files[id])
            && (forall id :: id in s.files && s.files[id].path == path && s.files[id].folder == folder ==>
                  id in s'.files && s'.files.Keys == s.files.Keys
                  && s'.files[id] == if s.files[id].status == Retired then s.files[id].(status := Pending) else s.files[id])
  {
    var s' := WithFile(s, path, folder, newId);
    if id :| id in s.files && s.files[id].path == path && s.files[id].folder == folder {
      assert id in s'.files && s'.files[id].status != Retired;
    } else {
      assert newId in s'.files && s'.files[newId].status == Pending;
    }
  }

  lemma WithoutKeeps(s: IndexState, ids: set<FileId>, embed: FileId -> Vector)
    requires Agreement(s, embed)
    ensures Agreement(Without(s, ids), embed)
  {
    var s' := Without(s, ids);
    forall id | id in s'.files
      ensures RowOk(s', id, embed)
    {
      assert RowOk(s, id, embed);
    }
  }

  /** Moving a row between folders does not move its index entry: the agreement survives exactly when the rename
      raises, or every moved file was not indexed or is in the new folder's index already. */
  lemma RenameKeepsIff(s: IndexState, oldPath: string, newPath: string, dest: FolderId, embed: FileId -> Vector)
    requires Agreement(s, embed)
    ensures Agreement(Renamed(s, oldPath, newPath, dest), embed)
       <==> RenameRaises(s, oldPath, newPath) || RenameStays(s, oldPath, newPath, dest, embed)
  {
    if !RenameRaises(s, oldPath, newPath) {
      var s' := Renamed(s, oldPath, newPath, dest);
      forall id | id in s'.files
        ensures RowOk(s', id, embed) <==>
                (s.files[id].path == oldPath && s.files[id].status == Indexed ==> HasOwn(IndexOf(s, dest), id, embed))
      {
        assert RowOk(s, id, embed);
      }
      if id :| id in s.files && s.files[id].path == oldPath && oldPath != newPath && s.files[id].status == Indexed
               && !HasOwn(IndexOf(s, dest), id, embed) {
        assert id in s'.files && !RowOk(s', id, embed);
      }
    }
  }

  lemma DamageKeeps(s: IndexState, folder: FolderId, embed: FileId -> Vector)
    requires Agreement(s, embed)
    ensures Agreement(s.(indexes := s.indexes[folder := Corrupt]), embed)
  {
    var s' := s.(indexes := s.indexes[folder := Corrupt]);
    forall id | id in s'.files
      ensures RowOk(s', id, embed)
    {
      assert RowOk(s, id, embed);
    }
  }

  lemma SomeIndexedKeeps(s: IndexState, folder: FolderId, all: seq<FileId>, some: seq<FileId>, embed: FileId -> Vector)
    requires Agreement(s, embed) && IndexOf(s, folder).Good?
    requires forall id :: id in some ==> id in all
    requires forall id :: id in all ==> id in s.files && s.files[id].folder == folder
    ensures Agreement(WithIndexed(WithEntries(s, folder, all, embed), some), embed)
  {
    var s' := WithIndexed(WithEntries(s, folder, all, embed), some);
    forall id | id in s'.files
      ensures RowOk(s', id, embed)
    {
      assert RowOk(s, id, embed);
      if id in some {
        EntryAt(all, embed, id);
      }
    }
  }

  /** Wherever between the index write and the last row update a pass is cut off, index and table agree. */
  lemma CutPassKeeps(s: IndexState, folder: FolderId, ids: seq<FileId>, w: World, embed: FileId -> Vector,
                     isImage: string -> bool, updated: nat)
    requires Agreement(s, embed) && forall id :: id in ids ==> id in PendingIds(s, folder)
    ensures Agreement(CutEffect(s, folder, ids, w, embed, isImage, updated), embed)
  {
    var n := if w.submitOk then BatchCount(|ids|) else 0;
    var added, marked := Added(ids, w, n), Marked(ids, w, n);
    AddKeepsAgreement(s, folder, ids, w, embed, isImage);
    if w.modelReady && IndexOf(s, folder).Good? && added != [] && w.writeOk && updated < |added| {
      MarkedAreUnreadable(ids, w, n);
      AddedAreReadable(ids, w, n);
      RetireKeepsIff(s, marked, embed);
      SomeIndexedKeeps(Retire(s, marked), folder, added, added[..updated], embed);
    }
  }

  lemma EventKeepsAgreement(s: IndexState, e: IndexEvent, embed: FileId -> Vector, isImage: string -> bool)
    requires Agreement(s, embed) && EnabledAt(s, e, embed)
    ensures Agreement(After(s, e, embed, isImage), embed)
  {
    match e
    case Insert(path, folder, newId) => WithFileKeeps(s, path, folder, newId, embed);
    case Delete(ids) => WithoutKeeps(s, ids, embed);
    case Rename(oldPath, newPath, dest) => RenameKeepsIff(s, oldPath, newPath, dest, embed);
    case CreateIndex(folder) => IndexCreatedKeeps(s, folder, embed);
    case Damage(folder) => DamageKeeps(s, folder, embed);
    case Pass(folder, page, w) => AddKeepsAgreement(s, folder, page, w, embed, isImage);
    case CutPass(folder, page, w, updated) => CutPassKeeps(s, folder, page, w, embed, isImage, updated);
    case DeleteFolder(folder) => WithoutFolderKeeps(s, folder, embed);
    case LoseIndex(folder, emptied) => IndexLostKeepsIff(s, folder, if emptied then Good([]) else Missing, embed);
  }

  lemma HonestEntries(s: IndexState, folder: FolderId, ids: seq<FileId>, embed: FileId -> Vector)
    requires Honest(s, embed) && IndexOf(s, folder).Good?
    ensures Honest(WithEntries(s, folder, ids, embed), embed)
  {
    var s' := WithEntries(s, folder, ids, embed);
    var written := s'.indexes[folder].entries;
    forall e | e in written
      ensures e.1 == embed(e.0)
    {
      assert e in IndexOf(s, folder).entries || e in Entries(ids, embed);
    }
  }

  lemma EventKeepsHonest(s: IndexState, e: IndexEvent, embed: FileId -> Vector, isImage: string -> bool)
    requires Honest(s, embed)
    ensures Honest(After(s, e, embed, isImage), embed)
  {
    if e.Pass? || e.CutPass? {
      if IndexOf(s, e.of).Good? {
        var n := if e.world.submitOk then BatchCount(|e.page|) else 0;
        HonestEntries(Retire(s, Marked(e.page, e.world, n)), e.of, Added(e.page, e.world, n), embed);
      }
    }
  }

  lemma RenameKeepsPlaces(s: IndexState, oldPath: string, newPath: string, dest: FolderId)
    requires PlacesUnique(s)
    ensures PlacesUnique(Renamed(s, oldPath, newPath, dest))
  {
  }

  lemma InsertKeepsPlaces(s: IndexState, path: string, folder: FolderId, newId: FileId)
    requires PlacesUnique(s)
    ensures PlacesUnique(WithFile(s, path, folder, newId))
  {
  }

  lemma PlacesStayUnique(s: IndexState, s': IndexState)
    requires PlacesUnique(s) && SamePlaces(s, s')
    ensures PlacesUnique(s')
  {
  }

  lemma EventKeepsPlaces(s: IndexState, e: IndexEvent, embed: FileId -> Vector, isImage: string -> bool)
    requires PlacesUnique(s)
    ensures PlacesUnique(After(s, e, embed, isImage))
  {
    match e
    case Insert(path, folder, newId) => InsertKeepsPlaces(s, path, folder, newId);
    case Rename(oldPath, newPath, dest) => RenameKeepsPlaces(s, oldPath, newPath, dest);
    case Pass(folder, page, w) =>
      AddKeepsPlaces(s, folder, page, w, embed, isImage);
      PlacesStayUnique(s, After(s, e, embed, isImage));
    case CutPass(folder, page, w, updated) =>
      AddKeepsPlaces(s, folder, page, w, embed, isImage);
      PlacesStayUnique(s, After(s, e, embed, isImage));
    case _ =>
  }

  /** After every run, also with passes cut off anywhere between their commits, and with recoveries and folder
      deletions cut off while no file of the folder was indexed: an indexed file carries its own id as clip index
      and its folder's index holds its own embedding under that id, every other file has no clip index, no index
      entry shows another file's embedding, and no folder has two rows for one path. */
  lemma {:induction false} IndexAndTableAgree(events: seq<IndexEvent>, embed: FileId -> Vector, isImage: string -> bool)
    requires ValidRun(events, embed, isImage)
    ensures Agreement(Run(events, embed, isImage), embed)
    ensures Honest(Run(events, embed, isImage), embed)
    ensures PlacesUnique(Run(events, embed, isImage))
    decreases |events|
  {
    if events != [] {
      var before, e := events[..|events| - 1], events[|events| - 1];
      IndexAndTableAgree(before, embed, isImage);
      EventKeepsAgreement(Run(before, embed, isImage), e, embed, isImage);
      EventKeepsHonest(Run(before, embed, isImage), e, embed, isImage);
      EventKeepsPlaces(Run(before, embed, isImage), e, embed, isImage);
    }
  }

  // ----- what no event can break -----

  /** Row ids handed out are new; nothing else is asked of a run. */
  ghost predicate FreshRun(events: seq<IndexEvent>, embed: FileId -> Vector, isImage: string -> bool) {
    events == [] ||
    (FreshRun(events[..|events| - 1], embed, isImage)
     && var e := events[|events| - 1]; e.Insert? ==> e.newId !in Run(events[..|events| - 1], embed, isImage).files)
  }

  lemma EventKeepsClips(s: IndexState, e: IndexEvent, embed: FileId -> Vector, isImage: string -> bool)
    requires ClipsOwn(s)
    ensures ClipsOwn(After(s, e, embed, isImage))
  {
    match e
    case Pass(folder, page, w) => AddKeepsClips(s, folder, page, w, embed, isImage);
    case CutPass(folder, page, w, updated) => AddKeepsClips(s, folder, page, w, embed, isImage);
    case _ =>
  }

  lemma AddKeepsClips(s: IndexState, folder: FolderId, ids: seq<FileId>, w: World, embed: FileId -> Vector, isImage: string -> bool)
    requires ClipsOwn(s)
    ensures ClipsOwn(AddToIndexEffect(s, folder, ids, w, embed, isImage).0)
  {
  }

  /** After any run whatever, with files moved and recoveries cut off at the wrong moment, an indexed file still
      carries its own id as clip index; a search relies on no more. */
  lemma {:induction false} ClipsAlwaysOwn(events: seq<IndexEvent>, embed: FileId -> Vector, isImage: string -> bool)
    requires FreshRun(events, embed, isImage)
    ensures ClipsOwn(Run(events, embed, isImage)) && PlacesUnique(Run(events, embed, isImage))
    decreases |events|
  {
    if events != [] {
      var before, e := events[..|events| - 1], events[|events| - 1];
      ClipsAlwaysOwn(before, embed, isImage);
      EventKeepsClips(Run(before, embed, isImage), e, embed, isImage);
      EventKeepsPlaces(Run(before, embed, isImage), e, embed, isImage);
    }
  }

  /** Row ids are new, and passes get pending files, of whatever folder, as both their callers see to. */
  ghost predicate Called(s: IndexState, e: IndexEvent) {
    match e
    case Insert(_, _, newId) => newId !in s.files
    case Pass(_, page, _) => ArePending(s, page)
    case CutPass(_, page, _, _) => ArePending(s, page)
    case _ => true
  }

  ghost predicate CalledRun(events: seq<IndexEvent>, embed: FileId -> Vector, isImage: string -> bool) {
    events == [] ||
    (CalledRun(events[..|events| - 1], embed, isImage)
     && Called(Run(events[..|events| - 1], embed, isImage), events[|events| - 1]))
  }

  lemma CutKeepsClear(s: IndexState, folder: FolderId, ids: seq<FileId>, w: World, embed: FileId -> Vector,
                      isImage: string -> bool, updated: nat)
    requires ClipsClear(s) && ArePending(s, ids)
    ensures ClipsClear(CutEffect(s, folder, ids, w, embed, isImage, updated))
  {
    AddKeepsClear(s, folder, ids, w, embed, isImage);
    MarkedAreUnreadable(ids, w, if w.submitOk then BatchCount(|ids|) else 0);
  }

  lemma EventKeepsClear(s: IndexState, e: IndexEvent, embed: FileId -> Vector, isImage: string -> bool)
    requires ClipsClear(s) && Called(s, e)
    ensures ClipsClear(After(s, e, embed, isImage))
  {
    match e
    case Pass(folder, page, w) => AddKeepsClear(s, folder, page, w, embed, isImage);
    case CutPass(folder, page, w, updated) => CutKeepsClear(s, folder, page, w, embed, isImage, updated);
    case _ =>
  }

  /** A file that is not indexed never has a clip index, also after files were moved, indexed under a foreign
      folder, or lost with their index; the filter of a build, and with it its termination, relies on no more. */
  lemma {:induction false} ClipsAlwaysClear(events: seq<IndexEvent>, embed: FileId -> Vector, isImage: string -> bool)
    requires CalledRun(events, embed, isImage)
    ensures ClipsClear(Run(events, embed, isImage))
    decreases |events|
  {
    if events != [] {
      var before, e := events[..|events| - 1], events[|events| - 1];
      ClipsAlwaysClear(before, embed, isImage);
      EventKeepsClear(Run(before, embed, isImage), e, embed, isImage);
    }
  }
}
