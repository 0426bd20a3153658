/** What becomes of each file of a pass, whatever fails on the way, and what a build makes good after a corrupt
    index was replaced. */
module IndexFates {
  import opened Options
  import opened IndexPipeline
  import opened IndexBuild

  /** The worker of this batch did its part. */
  predicate Works(w: World, i: nat) {
    FaultOf(w, i) != WorkerFails && FaultOf(w, i) != StackFails
  }

  /** The picture at this position is embedded. */
  ghost predicate EmbeddedAt(page: seq<FileId>, w: World, at: nat) {
    at < |page| && ReadOf(w, page[at]) == Readable && Works(w, at / BATCH) && w.submitOk
  }

  ghost predicate SomeEmbedded(page: seq<FileId>, w: World) {
    exists at: nat :: EmbeddedAt(page, w, at)
  }

  /** Some picture of the batch can be read. */
  ghost predicate BatchReadable(page: seq<FileId>, w: World, i: nat) {
    exists at: nat :: at < |page| && at / BATCH == i && ReadOf(w, page[at]) == Readable
  }

  // ----- batches -----

  lemma SliceHasReadable(page: seq<FileId>, w: World, i: nat)
    ensures Having(Slice(page, i), w, Readable) != [] <==> BatchReadable(page, w, i)
  {
    SliceReadable(page, w, i);
    var slice := Slice(page, i);
    if BatchReadable(page, w, i) {
      var at: nat :| at < |page| && at / BATCH == i && ReadOf(w, page[at]) == Readable;
      SliceHas(page, i, at);
    }
    if id :| id in slice && ReadOf(w, id) == Readable {
      var j :| 0 <= j < |slice| && slice[j] == id;
      assert page[BATCH * i + j] == id && (BATCH * i + j) / BATCH == i;
    }
  }

  lemma TakenAt(page: seq<FileId>, w: World, i: nat, at: nat)
    requires Rising(page) && at < |page|
    ensures page[at] in Taken(page, w, i) <==> i == at / BATCH && ReadOf(w, page[at]) == Readable && Works(w, i)
  {
    HavingIsFilter(Slice(page, i), w, Readable);
    SliceAt(page, i, at);
  }

  lemma AddedAt(page: seq<FileId>, w: World, n: nat, at: nat)
    requires Rising(page) && at < |page|
    ensures page[at] in Added(page, w, n) <==> at / BATCH < n && ReadOf(w, page[at]) == Readable && Works(w, at / BATCH)
  {
    JoinedHas(Parts(page, w, n), page[at]);
    TakenAt(page, w, at / BATCH, at);
    if at / BATCH < n {
      assert Parts(page, w, n)[at / BATCH] == Taken(page, w, at / BATCH);
    }
    if i :| 0 <= i < n && page[at] in Parts(page, w, n)[i] {
      TakenAt(page, w, i, at);
    }
  }

  /** A file is marked when it cannot be read, its batch was embedded, and the marking did not fail before it:
      missing files are marked first. */
  ghost predicate MarkedAt(page: seq<FileId>, w: World, at: nat)
    requires at < |page|
  {
    var i, read := at / BATCH, ReadOf(w, page[at]);
    && read != Readable && BatchReadable(page, w, i) && Works(w, i)
    && match FaultOf(w, i)
       case MarkFails(deletedMarked) => deletedMarked && read == NotFound
       case _ => true
  }

  lemma BatchMarksIff(page: seq<FileId>, w: World, i: nat, at: nat)
    requires Rising(page) && at < |page|
    ensures page[at] in BatchMarked(Slice(page, i), w, i) <==> i == at / BATCH && MarkedAt(page, w, at)
  {
    SliceHasReadable(page, w, i);
    HavingIsFilter(Slice(page, i), w, NotFound);
    HavingIsFilter(Slice(page, i), w, Undecodable);
    SliceAt(page, i, at);
  }

  lemma {:induction false} MarkedIff(page: seq<FileId>, w: World, n: nat, at: nat)
    requires Rising(page) && at < |page|
    ensures page[at] in Marked(page, w, n) <==> at / BATCH < n && MarkedAt(page, w, at)
    decreases n
  {
    if n > 0 {
      MarkedIff(page, w, n - 1, at);
      BatchMarksIff(page, w, n - 1, at);
      assert at / BATCH < n <==> at / BATCH < n - 1 || n - 1 == at / BATCH;
    }
  }

  lemma BatchBelow(length: nat, at: nat)
    requires at < length
    ensures at / BATCH < BatchCount(length)
  {
  }

  lemma AddedNone(page: seq<FileId>, w: World)
    requires Rising(page)
    ensures Added(page, w, if w.submitOk then BatchCount(|page|) else 0) == [] <==> !SomeEmbedded(page, w)
  {
    var n := if w.submitOk then BatchCount(|page|) else 0;
    var added := Added(page, w, n);
    if added != [] {
      AddedAreReadable(page, w, n);
      assert added[0] in added;
      var at :| 0 <= at < |page| && page[at] == added[0];
      AddedAt(page, w, n, at);
      assert EmbeddedAt(page, w, at);
    }
    if SomeEmbedded(page, w) {
      var at: nat :| EmbeddedAt(page, w, at);
      BatchBelow(|page|, at);
      AddedAt(page, w, n, at);
    }
  }

  // ----- one pass -----

  /** What a pass over a good index does with the file at a position of its page, whatever failed: if nothing at all
      was embedded every file is given up; else it is indexed when it could be read and its worker did its part, it
      is given up when it is marked, and in every other case it stays pending. */
  ghost predicate FateIs(row: FileRow, row': FileRow, page: seq<FileId>, w: World, at: nat)
    requires at < |page|
  {
    if !SomeEmbedded(page, w) then row' == row.(status := Retired)
    else if EmbeddedAt(page, w, at) && w.writeOk then row' == row.(clip := Some(page[at]), status := Indexed)
    else if MarkedAt(page, w, at) then row' == row.(status := Retired)
    else row' == row
  }

  lemma PassFate(s: IndexState, folder: FolderId, page: seq<FileId>, w: World, embed: FileId -> Vector,
                 isImage: string -> bool, at: nat)
    requires w.modelReady && IndexOf(s, folder).Good? && Rising(page) && at < |page| && page[at] in s.files
    ensures var s' := AddToIndexEffect(s, folder, page, w, embed, isImage).0;
            page[at] in s'.files && FateIs(s.files[page[at]], s'.files[page[at]], page, w, at)
  {
    var n := if w.submitOk then BatchCount(|page|) else 0;
    BatchBelow(|page|, at);
    AddedNone(page, w);
    AddedAt(page, w, n, at);
    MarkedIff(page, w, n, at);
    assert page[at] in page;
  }

  /** A readable file is given up exactly when nothing of its page was embedded: one failing worker can do that to a
      whole page. */
  lemma ReadableGivenUpIff(s: IndexState, folder: FolderId, page: seq<FileId>, w: World, embed: FileId -> Vector,
                           isImage: string -> bool, at: nat)
    requires w.modelReady && IndexOf(s, folder).Good? && Rising(page) && at < |page|
    requires page[at] in PendingIds(s, folder) && ReadOf(w, page[at]) == Readable
    ensures var s' := AddToIndexEffect(s, folder, page, w, embed, isImage).0;
            page[at] in s'.files && (s'.files[page[at]].status == Retired <==> !SomeEmbedded(page, w))
  {
    PassFate(s, folder, page, w, embed, isImage, at);
  }

  /** A batch that makes the pass report failure: its worker failed, or its marking did. */
  ghost predicate BatchFails(page: seq<FileId>, w: World, i: nat) {
    FaultOf(w, i) == WorkerFails || (FaultOf(w, i).MarkFails? && BatchReadable(page, w, i))
  }

  ghost predicate NoBatchFails(page: seq<FileId>, w: World, n: nat) {
    forall i: nat :: i < n ==> !BatchFails(page, w, i)
  }

  lemma BatchCleanIff(page: seq<FileId>, w: World, i: nat)
    ensures BatchClean(FaultOf(w, i), Yields(Slice(page, i), w, i)) <==> !BatchFails(page, w, i)
  {
    SliceHasReadable(page, w, i);
  }

  lemma {:induction false} CleanIff(page: seq<FileId>, w: World, n: nat)
    ensures Clean(page, w, n) <==> NoBatchFails(page, w, n)
    decreases n
  {
    if n > 0 {
      CleanIff(page, w, n - 1);
      BatchCleanIff(page, w, n - 1);
      assert NoBatchFails(page, w, n) <==> NoBatchFails(page, w, n - 1) && !BatchFails(page, w, n - 1);
    }
  }

  /** Every outcome of a pass, and exactly when it comes. */
  lemma PassEndsIff(s: IndexState, folder: FolderId, page: seq<FileId>, w: World, embed: FileId -> Vector,
                    isImage: string -> bool)
    requires Rising(page) && forall id :: id in page ==> id in s.files
    ensures var r := AddToIndexEffect(s, folder, page, w, embed, isImage).1;
            var some := SomeEmbedded(page, w);
            && (r == RaisedCorrupt <==> w.modelReady && IndexOf(s, folder).Corrupt?)
            && (r == RaisedOther <==>
                  w.modelReady && (IndexOf(s, folder).Missing? || (IndexOf(s, folder).Good? && some && !w.writeOk)))
            && (r == Returned(true) <==>
                  && w.modelReady && IndexOf(s, folder).Good?
                  && (some ==> w.writeOk && NoBatchFails(page, w, BatchCount(|page|)))
                  && (!some ==> forall id :: id in page ==> !isImage(s.files[id].path)))
  {
    AddedNone(page, w);
    CleanIff(page, w, if w.submitOk then BatchCount(|page|) else 0);
  }

  // ----- after a corrupt index -----

  /** A pass that meets a corrupt index leaves an empty one, and every row of the folder that was not given up
      waits to be indexed again; nothing else changes. */
  lemma RecoveryMakesPending(s: IndexState, folder: FolderId, page: seq<FileId>, w: World, embed: FileId -> Vector,
                             isImage: string -> bool)
    requires w.modelReady && IndexOf(s, folder).Corrupt?
    ensures var s' := AddToIndexEffect(s, folder, page, w, embed, isImage).0;
            && s'.indexes == s.indexes[folder := Good([])] && s'.files.Keys == s.files.Keys
            && (forall id :: id in s.files ==>
                  s'.files[id] == if s.files[id].folder == folder && s.files[id].status in {Pending, Indexed}
                                  then FileRow(s.files[id].path, folder, None, Pending) else s.files[id])
            && (forall id :: id in PendingIds(s', folder) <==>
                  id in s.files && s.files[id].folder == folder && s.files[id].status != Retired)
  {
  }

  /** The next build then makes the damage good: with nothing failing and fewer than a hundred unreadable files, every
      file of the folder that was pending or indexed before is indexed if it can be read and given up if not; rows
      of other folders, and those given up before, are as they were. */
  lemma RebuiltAfterDamage(s: IndexState, folder: FolderId, page: seq<FileId>, w0: World, embed: FileId -> Vector,
                           isImage: string -> bool, s2: IndexState, w: World)
    requires w0.modelReady && IndexOf(s, folder).Corrupt?
    requires Finished(AddToIndexEffect(s, folder, page, w0, embed, isImage).0, s2, folder, w, isImage)
    requires |set id | id in s.files && s.files[id].folder == folder && s.files[id].status != Retired
                       && ReadOf(w, id) != Readable| < PAGE
    ensures s2.files.Keys == s.files.Keys
    ensures forall id :: id in s.files && s.files[id].folder == folder && s.files[id].status != Retired ==>
              s2.files[id].status == if ReadOf(w, id) == Readable then Indexed else Retired
    ensures forall id :: id in s.files && (s.files[id].folder != folder || s.files[id].status == Retired) ==>
              s2.files[id] == s.files[id]
  {
    var s1 := AddToIndexEffect(s, folder, page, w0, embed, isImage).0;
    RecoveryMakesPending(s, folder, page, w0, embed, isImage);
    assert (set id | id in PendingIds(s1, folder) && ReadOf(w, id) != Readable)
        == set id | id in s.files && s.files[id].folder == folder && s.files[id].status != Retired && ReadOf(w, id) != Readable;
    FewUnreadableGoThrough(s1, s2, folder, w, isImage);
  }
}
