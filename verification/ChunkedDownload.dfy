/** Downloads over a data channel: instant_sharing/webrtc_peer.py. */
module ChunkedDownload {
  import opened Octets

  const CHUNK := 16 * 1024
  const HEADER := 8
  const WORD := 0x1_0000_0000

  datatype Chunk = Chunk(index: nat, offset: nat, data: Bytes)

  function EstimateChunkCount(size: nat): nat {
    if size <= CHUNK then 1 else (size + CHUNK - 1) / CHUNK
  }

  /** Chunk `i` of a file. */
  function ChunkAt(file: Bytes, index: nat, i: nat): Chunk {
    var lo := if CHUNK * i < |file| then CHUNK * i else |file|;
    var hi := if CHUNK * (i + 1) < |file| then CHUNK * (i + 1) else |file|;
    Chunk(index, lo, file[lo..hi])
  }

  predicate Packs(index: nat, offset: nat) {
    index < WORD && offset < WORD
  }

  datatype Ending = AllSent | ChannelClosed | HeaderOverflow

  /** The announced number of chunks covers the file and none of them is empty, but for the empty file. */
  lemma CountCovers(file: Bytes, index: nat, i: nat)
    requires i < EstimateChunkCount(|file|)
    ensures ChunkAt(file, index, i).offset == CHUNK * i
    ensures |ChunkAt(file, index, i).data| <= CHUNK
    ensures file == [] || ChunkAt(file, index, i).data != []
    ensures |file| <= CHUNK * EstimateChunkCount(|file|)
    ensures i + 1 < EstimateChunkCount(|file|) ==> |ChunkAt(file, index, i).data| == CHUNK
  {
  }

  /** The sending half of `_handle_download`: `open(i)` is the channel's state when chunk `i` is due. The header
      is packed before the channel is looked at. */
  method SendChunks(file: Bytes, index: nat, open: nat -> bool) returns (announced: nat, sent: seq<Chunk>, ending: Ending)
    ensures announced == EstimateChunkCount(|file|) && |sent| <= announced
    ensures forall i :: 0 <= i < |sent| ==> sent[i] == ChunkAt(file, index, i) && open(i) && Packs(index, CHUNK * i)
    ensures ending.AllSent? <==> |sent| == announced
    ensures ending.HeaderOverflow? ==> !Packs(index, CHUNK * |sent|)
    ensures ending.ChannelClosed? ==> Packs(index, CHUNK * |sent|) && !open(|sent|)
  {
    announced, sent, ending := EstimateChunkCount(|file|), [], AllSent;
    var offset := 0;
    for i := 0 to announced
      invariant |sent| == i
      invariant offset == if CHUNK * i < |file| then CHUNK * i else |file|
      invariant forall j :: 0 <= j < i ==> sent[j] == ChunkAt(file, index, j) && open(j) && Packs(index, CHUNK * j)
    {
      CountCovers(file, index, i);
      var data := file[offset..if offset + CHUNK < |file| then offset + CHUNK else |file|];
      if !Packs(index, offset) {
        return announced, sent, HeaderOverflow;
      }
      if !open(i) {
        return announced, sent, ChannelClosed;
      }
      sent := sent + [Chunk(index, offset, data)];
      offset := offset + |data|;
    }
  }

  /** Every offset fits its 32-bit field exactly for files of up to 2^32 bytes. */
  lemma OffsetsFitIff(file: Bytes, index: nat)
    requires index < WORD
    ensures (forall i :: 0 <= i < EstimateChunkCount(|file|) ==> Packs(index, ChunkAt(file, index, i).offset)) <==> |file| <= WORD
  {
    var n := EstimateChunkCount(|file|);
    CountCovers(file, index, n - 1);
    if |file| <= WORD {
      forall i | 0 <= i < n
        ensures Packs(index, ChunkAt(file, index, i).offset)
      {
        CountCovers(file, index, i);
      }
    } else {
      CountCovers(file, index, WORD / CHUNK);
      assert !Packs(index, ChunkAt(file, index, WORD / CHUNK).offset);
    }
  }

  /** A message is header and chunk together: it keeps to the 16 KiB message size exactly when the file leaves
      room for the header. */
  lemma MessagesFitIff(file: Bytes, index: nat)
    ensures (forall i :: 0 <= i < EstimateChunkCount(|file|) ==> HEADER + |ChunkAt(file, index, i).data| <= CHUNK)
       <==> |file| <= CHUNK - HEADER
  {
    assert |ChunkAt(file, index, 0).data| == if CHUNK < |file| then CHUNK else |file|;
  }

  // ----- the receiving side -----

  /** A chunk written at its offset. */
  function Written(buffer: Bytes, c: Chunk): Bytes
    requires c.offset + |c.data| <= |buffer|
    ensures |Written(buffer, c)| == |buffer|
  {
    buffer[..c.offset] + c.data + buffer[c.offset + |c.data|..]
  }

  /** The chunks with the given numbers, written one after the other. */
  function WrittenAll(buffer: Bytes, file: Bytes, index: nat, order: seq<nat>): Bytes
    requires |buffer| == |file|
    ensures |WrittenAll(buffer, file, index, order)| == |file|
  {
    if order == [] then buffer
    else Written(WrittenAll(buffer, file, index, order[..|order| - 1]), ChunkAt(file, index, order[|order| - 1]))
  }

  lemma WrittenAt(buffer: Bytes, file: Bytes, index: nat, i: nat, p: nat)
    requires |buffer| == |file| && p < |file|
    ensures Written(buffer, ChunkAt(file, index, i))[p] == if p / CHUNK == i then file[p] else buffer[p]
  {
  }

  lemma {:induction false} PlaceIsRebuilt(buffer: Bytes, file: Bytes, index: nat, order: seq<nat>, p: nat)
    requires |buffer| == |file| && p < |file|
    ensures WrittenAll(buffer, file, index, order)[p] == if p / CHUNK in order then file[p] else buffer[p]
  {
    if order != [] {
      var front, last := order[..|order| - 1], order[|order| - 1];
      PlaceIsRebuilt(buffer, file, index, front, p);
      WrittenAt(WrittenAll(buffer, file, index, front), file, index, last, p);
      assert order == front + [last];
    }
  }

  /** In whatever order the chunks arrive, and however often, all of them together rebuild the file. */
  lemma AnyOrderRebuilds(buffer: Bytes, file: Bytes, index: nat, order: seq<nat>)
    requires |buffer| == |file|
    requires forall i: nat :: i < EstimateChunkCount(|file|) ==> i in order
    ensures WrittenAll(buffer, file, index, order) == file
  {
    var rebuilt := WrittenAll(buffer, file, index, order);
    forall p | 0 <= p < |file|
      ensures rebuilt[p] == file[p]
    {
      var i := p / CHUNK;
      assert i < EstimateChunkCount(|file|);
      PlaceIsRebuilt(buffer, file, index, order, p);
    }
  }
}
