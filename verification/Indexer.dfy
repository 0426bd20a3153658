/** The indexer as it works in place: the file table and the index files are its fields. */
module IndexService {
  import opened Options
  import opened IndexPipeline
  import opened IndexAppend
  import opened IndexBuild

  class Indexer {
    var files: map<FileId, FileRow>
    var indexes: map<FolderId, IndexFile>
    const image: FileId -> Image
    const encode: Image -> Vector
    const isImage: string -> bool

    ghost function S(): IndexState
      reads this
    {
      IndexState(files, indexes)
    }

    ghost function Embedding(): FileId -> Vector {
      id => encode(image(id))
    }

    constructor (image: FileId -> Image, encode: Image -> Vector, isImage: string -> bool)
      ensures S() == IndexState(map[], map[])
      ensures this.image == image && this.encode == encode && this.isImage == isImage
    {
      this.image, this.encode, this.isImage := image, encode, isImage;
      files, indexes := map[], map[];
    }

    method MarkRetired(ids: seq<FileId>)
      modifies `files
      ensures S() == Retire(old(S()), set id | id in ids)
    {
      files := map id | id in files :: if id in ids then files[id].(status := Retired) else files[id];
    }

    method InsertFile(path: string, folder: FolderId, newId: FileId)
      requires newId !in files
      modifies `files
      ensures S() == WithFile(old(S()), path, folder, newId)
    {
      if exists id :: id in files && files[id].path == path && files[id].folder == folder {
        files := map id | id in files ::
          if files[id].path == path && files[id].folder == folder && files[id].status == Retired
          then files[id].(status := Pending) else files[id];
      } else {
        files := files[newId := FileRow(path, folder, None, Pending)];
      }
    }

    /** Twenty ids a statement, so that the statement stays short. */
    method DeleteFilesByIds(ids: seq<FileId>)
      modifies `files
      ensures S() == Without(old(S()), set id | id in ids)
    {
      var i := 0;
      while i < |ids|
        invariant 0 <= i
        invariant i <= |ids| ==> S() == Without(old(S()), set id | id in ids[..i])
        invariant i > |ids| ==> S() == Without(old(S()), set id | id in ids)
        decreases |ids| - i
      {
        var next := if i + 20 <= |ids| then i + 20 else |ids|;
        var batch := ids[i..next];
        assert forall id :: id in ids[..next] <==> id in ids[..i] || id in batch by {
          assert ids[..next] == ids[..i] + batch;
        }
        files := map id | id in files && id !in batch :: files[id];
        assert ids[..|ids|] == ids;
        i := i + 20;
      }
      assert i == |ids| ==> ids[..i] == ids;
    }

    /** Two statements in one transaction; when the second raises, the first is rolled back. */
    method RenameFile(oldPath: string, newPath: string, dest: FolderId) returns (raised: bool)
      modifies `files
      ensures raised <==> RenameRaises(old(S()), oldPath, newPath)
      ensures S() == Renamed(old(S()), oldPath, newPath, dest)
    {
      var before := files;
      files := map id | id in files && files[id].path != newPath :: files[id];
      RowsAtOldPath(before, oldPath, newPath);
      raised := TwoRowsAt(files, oldPath);
      if raised {
        files := before;
      } else {
        files := map id | id in files ::
          if files[id].path == oldPath then files[id].(path := newPath, folder := dest) else files[id];
      }
    }

    method RecoverCorruptedIndex(folder: FolderId)
      modifies this
      ensures S() == Recovered(old(S()), folder)
    {
      indexes := indexes[folder := Good([])];
      files := map id | id in files ::
        if files[id].folder == folder && files[id].status != Retired
        then files[id].(clip := None, status := Pending) else files[id];
    }

    method UpdateIndexed(ids: seq<FileId>)
      modifies `files
      ensures S() == WithIndexed(old(S()), ids)
    {
      var before := files;
      for i := 0 to |ids|
        invariant files.Keys == before.Keys
        invariant forall id :: id in files && id in ids[..i] ==> files[id] == before[id].(clip := Some(id), status := Indexed)
        invariant forall id :: id in files && id !in ids[..i] ==> files[id] == before[id]
      {
        if ids[i] in files {
          files := files[ids[i] := files[ids[i]].(clip := Some(ids[i]), status := Indexed)];
        }
        assert forall id :: id in ids[..i + 1] <==> id in ids[..i] || id == ids[i];
      }
      assert ids[..|ids|] == ids;
      ghost var target := WithIndexed(old(S()), ids);
      assert files.Keys == target.files.Keys;
      assert forall id :: id in files ==> files[id] == target.files[id];
    }

    /** The loop over the futures. Features and ids grow in step, so row `j` of the matrix is the embedding
        of the `j`-th id. */
    method CollectFeatures(ids: seq<FileId>, w: World, batches: nat)
      returns (features: seq<Vector>, valid: seq<FileId>, ok: bool)
      modifies `files
      ensures valid == Added(ids, w, batches) && Aligned(features, valid)
      ensures ok <==> Clean(ids, w, batches)
      ensures S() == Retire(old(S()), Marked(ids, w, batches))
    {
      features, valid, ok := [], [], true;
      RetireNone(S());
      ghost var parts := Parts(ids, w, batches);
      for i := 0 to batches
        invariant valid == Joined(parts[..i]) && Aligned(features, valid)
        invariant ok <==> Clean(ids, w, i)
        invariant S() == Retire(old(S()), Marked(ids, w, i))
      {
        var rows, batchValid, clean := TakeBatch(ids, w, i);
        RetireTwice(old(S()), Marked(ids, w, i), BatchMarked(Slice(ids, i), w, i));
        AlignedConcat(features, valid, rows, batchValid);
        JoinedStep(parts, i);
        features, valid, ok := features + rows, valid + batchValid, ok && clean;
      }
      assert parts[..batches] == parts;
    }

    ghost predicate Aligned(features: seq<Vector>, ids: seq<FileId>) {
      |features| == |ids| && forall j :: 0 <= j < |ids| ==> features[j] == encode(image(ids[j]))
    }

    lemma AlignedConcat(f: seq<Vector>, v: seq<FileId>, g: seq<Vector>, w: seq<FileId>)
      requires Aligned(f, v) && Aligned(g, w)
      ensures Aligned(f + g, v + w)
    {
    }

    /** One future: embed what the worker could read, mark what it could not. */
    method TakeBatch(ids: seq<FileId>, w: World, i: nat) returns (rows: seq<Vector>, valid: seq<FileId>, clean: bool)
      modifies `files
      ensures valid == Taken(ids, w, i) && Aligned(rows, valid)
      ensures clean <==> BatchClean(FaultOf(w, i), Yields(Slice(ids, i), w, i))
      ensures S() == Retire(old(S()), BatchMarked(Slice(ids, i), w, i))
    {
      var slice := Slice(ids, i);
      rows, valid, clean := [], [], true;
      RetireNone(S());
      if FaultOf(w, i) == WorkerFails {
        clean := false;
        return;
      }
      var tensor, batchValid, deleted, invalid := ProcessImageBatch(slice, w, FaultOf(w, i) != StackFails, image);
      if tensor.None? {
        return;
      }
      rows := seq(|tensor.value|, j requires 0 <= j < |tensor.value| => encode(tensor.value[j]));
      valid := batchValid;
      if FaultOf(w, i).MarkFails? {
        if FaultOf(w, i).deletedMarked {
          MarkRetired(deleted);
        }
        clean := false;
      } else {
        RetireTwice(S(), set id | id in deleted, set id | id in invalid);
        MarkRetired(deleted);
        MarkRetired(invalid);
      }
    }

    method AddToIndex(folder: FolderId, ids: seq<FileId>, w: World) returns (result: AddResult)
      modifies this
      ensures (S(), result) == AddToIndexEffect(old(S()), folder, ids, w, Embedding(), isImage)
    {
      if !w.modelReady {
        return Returned(false);
      }
      var index := if folder in indexes then indexes[folder] else Missing;
      if index.Missing? {
        return RaisedOther;
      }
      if index.Corrupt? {
        RecoverCorruptedIndex(folder);
        return RaisedCorrupt;
      }
      var before := files;
      var features, valid, ok := CollectFeatures(ids, w, if w.submitOk then BatchCount(|ids|) else 0);
      if valid == [] {
        MarkRetired(ids);
        return Returned(forall id :: id in ids ==> id in before && !isImage(before[id].path));
      }
      if !w.writeOk {
        return RaisedOther;
      }
      var newEntries := seq(|valid|, j requires 0 <= j < |valid| => (valid[j], features[j]));
      assert newEntries == Entries(valid, Embedding());
      indexes := indexes[folder := Good(index.entries + newEntries)];
      UpdateIndexed(valid);
      result := Returned(ok);
    }

    /** `ORDER BY id LIMIT limit`. */
    method PendingFiles(folder: FolderId, limit: nat) returns (page: seq<FileId>)
      ensures page == Prefix(InOrder(PendingIds(S(), folder)), limit)
    {
      page := [];
      var rest := set id | id in files && files[id].folder == folder && files[id].status == Pending;
      ghost var queue := InOrder(rest);
      while |page| < limit && exists id :: id in rest
        invariant |page| <= limit && queue == page + InOrder(rest)
        decreases |rest|
      {
        MinimumExists(rest);
        var k :| k in rest && forall j :: j in rest ==> k <= j;
        InOrderStarts(rest, k);
        page := page + [k];
        rest := rest - {k};
      }
      assert rest == {} || |page| == limit;
    }

    method CreateIndexIfNeeded(folder: FolderId)
      modifies `indexes
      ensures S() == WithIndexCreated(old(S()), folder)
    {
      if folder !in indexes || indexes[folder].Missing? {
        indexes := indexes[folder := Good([])];
      }
    }

    /** One pass of the loop over a page of pending files: filter, then index. */
    method IndexPage(folder: FolderId, page: seq<FileId>, w: World) returns (result: AddResult, indexed: nat)
      requires ClipsClear(S())
      requires page != [] && forall id :: id in page ==> id in PendingIds(S(), folder)
      modifies this
      ensures (S(), result) == AddToIndexEffect(old(S()), folder, page, w, Embedding(), isImage)
      ensures indexed == |page|
    {
      ghost var s := S();
      var toIndex := Unindexed(files, page);
      PendingAreUnindexed(s, folder, page);
      indexed := |toIndex|;
      if toIndex != [] {
        result := AddToIndex(folder, toIndex, w);
      } else {
        assert false;
      }
    }

    method CountFiles(folder: FolderId) returns (total: int)
      ensures total == |FolderFiles(files, folder)|
    {
      total := |set id | id in files && files[id].folder == folder|;
    }

    /** Reads the next page and, unless there is none, runs one pass over it. */
    method NextPass(folder: FolderId, w: World, ghost b: Build)
      returns (page: seq<FileId>, result: AddResult, indexed: nat)
      requires ClipsClear(S())
      requires b.folder == folder && b.isImage == isImage && b.embed == Embedding() && (b.steady ==> w == b.w && Plain(w))
      modifies this
      ensures ClipsClear(S())
      ensures GoesOn(b, old(S())) ==> if page != [] && result == Returned(true) then GoesOn(b, S()) else IsOver(b, S())
      ensures page == PageOf(InOrder(PendingIds(old(S()), folder)))
      ensures page == [] ==> S() == old(S()) && PendingIds(S(), folder) == {}
      ensures page != [] ==> indexed == |page| && |PendingIds(old(S()), folder)| > 0
      ensures page != [] && result == Returned(true) ==> |PendingIds(S(), folder)| < |PendingIds(old(S()), folder)|
    {
      ghost var s := S();
      page := PendingFiles(folder, PAGE);
      result, indexed := Returned(true), 0;
      InOrderIs(PendingIds(s, folder));
      if page == [] {
        assert forall id :: id !in PendingIds(s, folder);
        if b.steady && GoesOn(b, s) {
          UnderwayEnds(b.s0, s, folder, w, isImage);
        }
        return;
      }
      assert forall id :: id in page ==> id in InOrder(PendingIds(s, folder));
      SomePending(s, folder, page);
      result, indexed := IndexPage(folder, page, w);
      PassKeeps(s, folder, page, w, Embedding(), isImage);
      if b.steady && GoesOn(b, s) {
        PassMovesOn(b.s0, s, folder, w, Embedding(), isImage);
      }
    }

    /** The loop of `build_index`; `worlds(i)` and `readyAfter(i)` are what pass `i` meets. It has no bound of
        its own: it ends because every pass that does not leave it shrinks the pending set, and because a
        pending file never carries a clip index, so the `continue` branch is dead. */
    method RunPasses(folder: FolderId, worlds: nat -> World, readyAfter: nat -> bool, ghost b: Build)
      returns (progress: seq<Progress>, ghost passes: nat, ghost lastResult: AddResult)
      requires ClipsClear(S()) && GoesOn(b, S())
      requires b.folder == folder && b.isImage == isImage && b.embed == Embedding()
      requires b.steady ==> b.w == worlds(0) && Steady(worlds, readyAfter)
      modifies this
      ensures ClipsClear(S()) && (IsOver(b, S()) || (!b.steady && GoesOn(b, S())))
      ensures passes <= |PendingIds(old(S()), folder)|
      ensures PendingIds(S(), folder) != {} ==> passes > 0 && (lastResult != Returned(true) || !readyAfter(passes - 1))
      ensures StopsInTime(passes, lastResult, readyAfter, |progress|)
      ensures Reported(progress, |FolderFiles(old(files), folder)|, LastEnd(progress))
    {
      progress, passes, lastResult := [], 0, Returned(true);
      ghost var count, pending := |FolderFiles(files, folder)|, |PendingIds(S(), folder)|;
      var total, batchStart, batchEnd, pass := -1, 0, 0, 0;
      while true
        invariant ClipsClear(S()) && GoesOn(b, S())
        invariant (if total == -1 then |FolderFiles(files, folder)| else total) == count
        invariant Reported(progress, count, batchEnd)
        invariant pass == passes == |progress| && AllReady(readyAfter, pass) && lastResult == Returned(true)
        invariant passes + |PendingIds(S(), folder)| <= pending
        decreases |PendingIds(S(), folder)|
      {
        if total == -1 {
          total := CountFiles(folder);
        }
        var page, result, indexed := NextPass(folder, worlds(pass), b);
        if page == [] {
          return;
        }
        passes, lastResult := passes + 1, result;
        batchStart := batchEnd;
        batchEnd := batchEnd + |page|;
        if !readyAfter(pass) || result != Returned(true) {
          return;
        }
        ReportedSnoc(progress, Progress(batchStart, batchEnd, total, indexed));
        ReadyOnceMore(readyAfter, pass);
        progress := progress + [Progress(batchStart, batchEnd, total, indexed)];
        pass := pass + 1;
      }
    }

    /** The generator, run to its end. */
    method BuildIndex(folder: FolderId, ready: bool, worlds: nat -> World, readyAfter: nat -> bool)
      returns (progress: seq<Progress>, ghost passes: nat, ghost lastResult: AddResult)
      requires ClipsClear(S())
      modifies this
      ensures ClipsClear(S()) && files.Keys == old(files.Keys)
      ensures Agreement(old(S()), Embedding()) ==> Agreement(S(), Embedding())
      ensures passes <= |PendingIds(old(S()), folder)|
      ensures ready && PendingIds(S(), folder) != {} ==>
                passes > 0 && (lastResult != Returned(true) || !readyAfter(passes - 1))
      ensures ready ==> StopsInTime(passes, lastResult, readyAfter, |progress|)
      ensures ready ==> Contiguous(progress) && TotalIs(progress, |FolderFiles(old(files), folder)|)
      ensures !ready ==> S() == old(S()) && progress == [Progress(0, 0, 0, 0)]
      ensures ready && Steady(worlds, readyAfter) && !IndexOf(old(S()), folder).Corrupt? ==>
                Finished(old(S()), S(), folder, worlds(0), isImage)
    {
      if !ready {
        progress, passes, lastResult := [Progress(0, 0, 0, 0)], 0, Returned(true);
        return;
      }
      ghost var s := S();
      if Agreement(s, Embedding()) {
        IndexCreatedKeeps(s, folder, Embedding());
      }
      CreateIndexIfNeeded(folder);
      assert S().files == s.files;
      assert PendingIds(S(), folder) == PendingIds(s, folder) && PicturesOf(S(), isImage) == PicturesOf(s, isImage);
      ghost var b := Build(S(), folder, worlds(0), Embedding(), isImage,
                           Steady(worlds, readyAfter) && IndexOf(S(), folder).Good?);
      if b.steady {
        UnderwayFromStart(S(), folder, b.w, isImage);
      }
      progress, passes, lastResult := RunPasses(folder, worlds, readyAfter, b);
    }

    /** `append_to_index`. */
    method AppendToIndex(folder: FolderId, ready: bool, paths: seq<string>, lookup: string -> Option<FileId>,
                         worlds: nat -> World)
      returns (results: seq<bool>)
      modifies this
      ensures (S(), results) == AppendEffect(old(S()), Call(folder, paths, lookup, worlds, Embedding(), isImage), ready)
    {
      results := [];
      if !ready {
        return [false];
      }
      if paths == [] {
        return;
      }
      CreateIndexIfNeeded(folder);
      ghost var s, c := S(), Call(folder, paths, lookup, worlds, Embedding(), isImage);
      var i := 0;
      while PAGE * i < |paths|
        invariant PAGE * (i - 1) < |paths|
        invariant S() == Slices(s, c, i) && results == SliceResults(s, c, i)
        decreases |paths| - PAGE * i
      {
        var ok := AppendSlice(folder, paths, lookup, worlds, i);
        SlicesSnoc(s, c, i);
        results := results + [ok];
        i := i + 1;
      }
      SliceCountIs(|paths|, i);
    }

    method AppendSlice(folder: FolderId, paths: seq<string>, lookup: string -> Option<FileId>, worlds: nat -> World, i: nat)
      returns (ok: bool)
      modifies this
      ensures (S(), ok) == SliceEffect(old(S()), Call(folder, paths, lookup, worlds, Embedding(), isImage), i)
    {
      var ids := FindPending(PathSlice(paths, i), lookup);
      ok := true;
      if ids != [] {
        var result := AddToIndex(folder, ids, worlds(i));
        ok := result == Returned(true);
      }
    }

    method FindPending(paths: seq<string>, lookup: string -> Option<FileId>) returns (ids: seq<FileId>)
      ensures ids == FoundPending(S(), paths, lookup)
    {
      ids := [];
      for i := 0 to |paths|
        invariant ids == FoundPending(S(), paths[..i], lookup)
      {
        assert paths[..i + 1][..i] == paths[..i];
        var found := lookup(paths[i]);
        if found.Some? && found.value in files && files[found.value].status == Pending {
          ids := ids + [found.value];
        }
      }
      assert paths[..|paths|] == paths;
    }
  }

  /** A build as it began; `steady` is that nothing fails during it. */
  datatype Build = Build(s0: IndexState, folder: FolderId, w: World, embed: FileId -> Vector, isImage: string -> bool,
                         steady: bool)

  ghost predicate KeptSince(s0: IndexState, s: IndexState, embed: FileId -> Vector) {
    s.files.Keys == s0.files.Keys && (Agreement(s0, embed) ==> Agreement(s, embed))
  }

  /** Between two passes of a build. */
  ghost predicate GoesOn(b: Build, s: IndexState) {
    KeptSince(b.s0, s, b.embed) && (b.steady ==> Underway(b.s0, s, b.folder, b.w, b.isImage))
  }

  /** When a build has ended. */
  ghost predicate IsOver(b: Build, s: IndexState) {
    KeptSince(b.s0, s, b.embed) && (b.steady ==> Finished(b.s0, s, b.folder, b.w, b.isImage))
  }

  function FolderFiles(files: map<FileId, FileRow>, folder: FolderId): set<FileId> {
    set id | id in files && files[id].folder == folder
  }

  /** The total every record shows is the number of files the folder had at the start. */
  ghost predicate TotalIs(progress: seq<Progress>, total: int) {
    forall i :: 0 <= i < |progress| ==> progress[i].total == total
  }

  ghost predicate Reported(progress: seq<Progress>, total: int, end: int) {
    Contiguous(progress) && TotalIs(progress, total) && end == LastEnd(progress)
  }

  lemma ReportedSnoc(progress: seq<Progress>, next: Progress)
    requires Reported(progress, next.total, next.start) && next.inBatch == next.end - next.start > 0
    ensures Reported(progress + [next], next.total, next.end)
  {
    ContiguousSnoc(progress, next);
  }

  ghost predicate AllReady(readyAfter: nat -> bool, passes: nat) {
    forall i :: 0 <= i < passes ==> readyAfter(i)
  }

  lemma ReadyOnceMore(readyAfter: nat -> bool, passes: nat)
    requires AllReady(readyAfter, passes) && readyAfter(passes)
    ensures AllReady(readyAfter, passes + 1)
  {
  }

  /** No pass follows one after which the model was gone, and every pass but a failed last one is reported. */
  ghost predicate StopsInTime(passes: nat, lastResult: AddResult, readyAfter: nat -> bool, reported: nat) {
    && (passes > 0 ==> AllReady(readyAfter, passes - 1))
    && reported == if passes > 0 && (lastResult != Returned(true) || !readyAfter(passes - 1)) then passes - 1 else passes
  }

  /** Every pass meets the same world, in which nothing fails and the model stays. */
  ghost predicate Steady(worlds: nat -> World, readyAfter: nat -> bool) {
    Plain(worlds(0)) && forall i :: worlds(i) == worlds(0) && readyAfter(i)
  }

  lemma PassKeeps(s: IndexState, folder: FolderId, page: seq<FileId>, w: World, embed: FileId -> Vector, isImage: string -> bool)
    requires ClipsClear(s) && page != [] && forall id :: id in page ==> id in PendingIds(s, folder)
    ensures var (s', result) := AddToIndexEffect(s, folder, page, w, embed, isImage);
            ClipsClear(s') && s'.files.Keys == s.files.Keys
            && (Agreement(s, embed) ==> Agreement(s', embed))
            && (result == Returned(true) ==> |PendingIds(s', folder)| < |PendingIds(s, folder)|)
  {
    var (s', result) := AddToIndexEffect(s, folder, page, w, embed, isImage);
    AddKeepsClear(s, folder, page, w, embed, isImage);
    if Agreement(s, embed) {
      AddKeepsAgreement(s, folder, page, w, embed, isImage);
    }
    AddKeepsPlaces(s, folder, page, w, embed, isImage);
    if result == Returned(true) {
      SuccessfulPassRetiresSome(s, folder, page, w, embed, isImage);
      SmallerSet(PendingIds(s', folder), PendingIds(s, folder));
    }
  }

  datatype Progress = Progress(start: int, end: int, total: int, inBatch: int)

  /** Each progress record starts where the one before ended, and covers what it says. */
  ghost predicate Contiguous(progress: seq<Progress>) {
    && (|progress| > 0 ==> progress[0].start == 0)
    && (forall i, j :: 0 <= i < j < |progress| && j == i + 1 ==> progress[j].start == progress[i].end)
    && (forall i :: 0 <= i < |progress| ==> progress[i].inBatch == progress[i].end - progress[i].start > 0)
  }

  function LastEnd(progress: seq<Progress>): int {
    if |progress| == 0 then 0 else progress[|progress| - 1].end
  }

  lemma ContiguousSnoc(progress: seq<Progress>, next: Progress)
    requires Contiguous(progress) && next.start == LastEnd(progress) && next.inBatch == next.end - next.start > 0
    ensures Contiguous(progress + [next]) && LastEnd(progress + [next]) == next.end
  {
  }
}
