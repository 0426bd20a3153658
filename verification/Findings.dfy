/** Concrete inputs on which the code does less than it promises. The lemmas named `…Iff` elsewhere say exactly
    when each promise is kept. */
module Findings {
  import opened Options
  import opened Octets
  import opened BackupStateMachine
  import opened CollisionNames
  import opened PairingStore
  import opened StoreIntegrity
  import opened TransferService
  import opened TransferProofs
  import I = IndexPipeline
  import A = IndexAppend
  import B = IndexBuild
  import F = IndexFates
  import IndexRuns
  import D = DerUtf8String
  import C = ChunkedDownload

  // ----- the backup protocol -----

  const PHONE := Device("ios", "Phone", "key")

  function OneSession(status: SessionStatus): Tables {
    Tables(map[1 := "/m/Phone"], map["A" := PHONE], map[1 := Binding("A", STATE_PAIRED)],
           map["s" := Session("A", 1, status, 1, 0, 0)], map[])
  }

  /** A binding whose folder row is gone costs the device row just written, and so the new session. No run of this
      version leaves such a binding (`BackupRuns.EveryRunIsSound`); the database may come from an older one. */
  lemma StaleBindingLosesSession()
    ensures var t := EMPTY_STORE.(bindings := map[7 := Binding("A", STATE_PAIRED)]);
            var o := FolderFor(WithDevice(t, "A", PHONE), "/m", "Phone", "A", 1);
            o.FolderRecord? && Context(WithSession(o.tables, "s", "A", o.folder), "s", "A") == None
  {
    var t := EMPTY_STORE.(bindings := map[7 := Binding("A", STATE_PAIRED)]);
    var t0 := WithDevice(t, "A", PHONE);
    assert 7 in StaleFolders(t, "A") && 7 in StaleFolders(t0, "A");
    assert StaleFolders(t0, "A") == {7};
    var t1 := WithoutDeviceData(t0, {7});
    assert t1.bindings == map[];
    PairedSessionUsableIff(t, "s", "/m", "Phone", "A", PHONE, 1);
  }

  /** The time stamp cannot be set: the upload fails, and its file stays. */
  lemma LateFailureLeavesFile()
    ensures var t, digest := OneSession(Transferring), (_: Bytes) => "right";
            var u := Upload("s", "A", "a1", None, None, None, None, "2024-01", "p.jpg", Stream([65]), 1, true, UtimeFails);
            var e := UploadEffect(t, map[], u, digest);
            e.reply.StorageFailed? && e.tables.assets == map[] && e.files != map[]
  {
    var t, digest := OneSession(Transferring), (_: Bytes) => "right";
    var u := Upload("s", "A", "a1", None, None, None, None, "2024-01", "p.jpg", Stream([65]), 1, true, UtimeFails);
    UnstoredUploadLeaves(t, map[], u, digest);
  }

  /** The stop button pressed a moment too late reopens a completed session's status. */
  lemma LateStopOverwritesCompleted()
    ensures !StatusesMoveLegally(OneSession(Completed), StopEffect(OneSession(Completed), "s", "A"))
  {
    StopRespectsOrderIff(OneSession(Completed), "s", "A");
  }

  // ----- the index -----

  function OneFile(status: I.FileStatus, folder: I.FolderId, index: I.IndexFile): I.IndexState {
    I.IndexState(map[1 := I.FileRow("a.png", folder, if status == I.Indexed then Some(1) else None, status)], map[5 := index])
  }

  /** Recovery stopped half-way leaves a file marked as indexed that no index holds. */
  lemma CrashInRecoveryLosesFile(embed: I.FileId -> I.Vector)
    ensures I.Agreement(OneFile(I.Indexed, 5, I.Corrupt), embed)
    ensures !I.Agreement(I.EmptiedIndex(OneFile(I.Indexed, 5, I.Corrupt), 5), embed)
  {
    var s := OneFile(I.Indexed, 5, I.Corrupt);
    assert I.RowOk(s, 1, embed);
    I.CrashInRecoveryKeepsIff(s, 5, embed);
    assert 1 in s.files;
  }

  /** `append_to_index` called for folder 5 with the path of a file of folder 6: the file is marked as indexed,
      and its entry is where nobody looks for it. */
  lemma AppendAcrossFoldersLosesFile(embed: I.FileId -> I.Vector, isImage: string -> bool)
    ensures var s := OneFile(I.Pending, 6, I.Good([]));
            var c := A.Call(5, ["a.png"], path => if path == "a.png" then Some(1) else None, _ => ALL_WELL, embed, isImage);
            I.Agreement(s, embed) && A.LosesFile(s, c, 1)
  {
    var s := OneFile(I.Pending, 6, I.Good([]));
    var c := A.Call(5, ["a.png"], path => if path == "a.png" then Some(1) else None, _ => ALL_WELL, embed, isImage);
    assert I.RowOk(s, 1, embed);
    A.ForeignFileIsLost(s, c, ALL_WELL, "a.png", 1);
  }

  const ALL_WELL := I.World(true, true, true, map[], map[])

  /** A file moved to another folder keeps its status and loses its index. */
  lemma MovedFileIsLost(embed: I.FileId -> I.Vector)
    ensures var s := OneFile(I.Indexed, 5, I.Good([(1, embed(1))]));
            I.Agreement(s, embed) && !I.Agreement(I.Renamed(s, "a.png", "b.png", 6), embed)
  {
    var s := OneFile(I.Indexed, 5, I.Good([(1, embed(1))]));
    assert I.RowOk(s, 1, embed);
    assert "a.png" != "b.png" by {
      assert "a.png"[0] != "b.png"[0];
    }
    IndexRuns.RenameKeepsIff(s, "a.png", "b.png", 6, embed);
    assert 1 in s.files;
  }

  /** The pool takes no work for a moment: the good picture of the page is given up. */
  lemma BusyPoolGivesUpGoodFile(embed: I.FileId -> I.Vector, isImage: string -> bool)
    ensures var s := OneFile(I.Pending, 5, I.Good([])); var w := I.World(true, false, true, map[], map[]);
            I.ReadOf(w, 1) == I.Readable
            && 1 in I.AddToIndexEffect(s, 5, [1], w, embed, isImage).0.files
            && I.AddToIndexEffect(s, 5, [1], w, embed, isImage).0.files[1].status == I.Retired
  {
    var s := OneFile(I.Pending, 5, I.Good([]));
    assert 1 in I.PendingIds(s, 5);
    F.ReadableGivenUpIff(s, 5, [1], I.World(true, false, true, map[], map[]), embed, isImage, 0);
  }

  /** The pending files a1.png to a101.png of one folder, of which only the last can be read. */
  const MANY_FILES := I.IndexState(map id: int | 1 <= id <= 101 :: I.FileRow("a" + Decimal(id) + ".png", 5, None, I.Pending),
                                   map[5 := I.Good([])])
  const MANY_BROKEN := I.World(true, true, true, map id: int | 1 <= id <= 100 :: I.Undecodable, map[])

  /** A hundred broken pictures in front end the build; the good one behind them is left pending. */
  lemma UnreadablePageStopsBuild(isImage: string -> bool)
    requires isImage("a1.png")
    ensures I.Plain(MANY_BROKEN) && I.ReadOf(MANY_BROKEN, 101) == I.Readable
    ensures forall s :: B.Finished(MANY_FILES, s, 5, MANY_BROKEN, isImage) ==> B.InOrder(I.PendingIds(s, 5)) == [101]
  {
    var queue: seq<int> := seq(101, i => i + 1);
    forall id
      ensures id in queue <==> id in I.PendingIds(MANY_FILES, 5)
    {
      if 1 <= id <= 101 {
        assert queue[id - 1] == id;
      }
    }
    B.RisingIsInOrder(queue, I.PendingIds(MANY_FILES, 5));
    DecimalOfOne();
    assert 1 in MANY_FILES.files && MANY_FILES.files[1].path == "a1.png";
    B.GoodFileLeftOver(MANY_BROKEN, B.PicturesOf(MANY_FILES, isImage));
    forall s | B.Finished(MANY_FILES, s, 5, MANY_BROKEN, isImage)
      ensures B.InOrder(I.PendingIds(s, 5)) == [101]
    {
      B.FinishedPending(MANY_FILES, s, 5, MANY_BROKEN, isImage);
    }
  }

  lemma DecimalOfOne()
    ensures "a" + Decimal(1) + ".png" == "a1.png"
  {
  }

  // ----- encodings -----

  /** The decoder reads a length that DER would have written in one octet. */
  lemma LongLengthIsAccepted(utf8: Bytes -> bool)
    requires utf8([65])
    ensures D.Decode([0x0C, 0x81, 0x01, 65], utf8) == Some([65])
    ensures D.Encode([65]) == Some([0x0C, 0x01, 65])
  {
    var b: Bytes := [0x0C, 0x81, 0x01, 65];
    var octets := b[2..3];
    assert octets == [0x01] && octets[..0] == [];
    assert D.FromBig(octets) == 256 * D.FromBig([]) + 1;
    assert b[3..4] == [65];
    assert [D.TAG] + [1] + [65] == [0x0C, 0x01, 65];
  }

  /** A full chunk with its header is eight bytes over the message size. */
  lemma FullChunkExceedsMessage()
    ensures C.HEADER + |C.ChunkAt(seq(C.CHUNK, _ => 0), 0, 0).data| == C.CHUNK + 8
  {
    assert |C.ChunkAt(seq(C.CHUNK, _ => 0), 0, 0).data| == C.CHUNK;
  }

  /** One byte more than 2^32 and the last chunk's offset has no room. */
  lemma LargeFileOverflows()
    ensures var file: Bytes := seq(C.WORD + 1, _ => 0);
            C.ChunkAt(file, 0, C.EstimateChunkCount(|file|) - 1).offset == C.WORD
  {
    var file: Bytes := seq(C.WORD + 1, _ => 0);
    C.CountCovers(file, 0, C.EstimateChunkCount(|file|) - 1);
  }
}
