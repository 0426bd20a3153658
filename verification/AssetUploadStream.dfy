/** Uploads that arrive in chunks: dt_image_search/mobile/transport/asset_upload_stream.py, the only place where
    an upload's payload is made. What the running digest was fed and what was written to the staged file grow
    together, so the digest handed on is the file's. */
module AssetUploadStream {
  import opened Options
  import opened Octets
  import opened TransferService

  /** `digested` is what the running digest was fed. */
  datatype PendingUpload = PendingUpload(file: Bytes, digested: Bytes, length: nat)
  datatype Payload = Payload(file: Bytes, length: nat, sha1: string)
  datatype ChunkError = TooLarge | WrongRequest | NoMetadata

  const NOTHING_YET := PendingUpload([], [], 0)

  /** The payload of an upload that received these bytes. */
  function PayloadOf(received: Bytes, digest: Digest): Payload {
    Payload(received, |received|, digest(received))
  }

  predicate InStep(p: PendingUpload) {
    p.digested == p.file && p.length == |p.file|
  }

  /** The request a chunk without an id belongs to. */
  ghost function ActiveOf(pending: map<string, PendingUpload>, active: Option<string>): Option<string> {
    if active.Some? && active.value in pending then active
    else if |pending| == 1 then OnlyKey(pending)
    else None
  }

  ghost function OnlyKey(pending: map<string, PendingUpload>): Option<string>
    requires |pending| == 1
  {
    if id :| id in pending then Some(id) else None
  }

  class TransferAssetUploadStream {
    var pending: map<string, PendingUpload>
    var active: Option<string>
    const digest: Digest

    /** File, digest and length of every pending upload are in step. */
    ghost predicate Valid()
      reads this
    {
      forall id :: id in pending ==> InStep(pending[id])
    }

    constructor (digest: Digest)
      ensures Valid() && this.digest == digest && pending == map[] && active == None
    {
      this.digest, pending, active := digest, map[], None;
    }

    method Start(requestId: string, exclusive: bool)
      requires Valid()
      modifies this
      ensures Valid() && active == Some(requestId)
      ensures pending == (if exclusive then map[] else old(pending))[requestId := NOTHING_YET]
    {
      if exclusive {
        pending := map[];
      }
      pending := pending[requestId := NOTHING_YET];
      active := Some(requestId);
    }

    method ActiveRequestId() returns (id: Option<string>)
      ensures id == ActiveOf(pending, active)
    {
      if active.Some? && active.value in pending {
        return active;
      }
      if |pending| == 1 {
        var only :| only in pending;
        OneKey(pending, only);
        return Some(only);
      }
      return None;
    }

    lemma OneKey(m: map<string, PendingUpload>, only: string)
      requires |m| == 1 && only in m
      ensures OnlyKey(m) == Some(only)
    {
      var rest := m.Keys - {only};
      assert m.Keys == rest + {only} && |rest| == 0;
      assert m.Keys == {only};
    }

    method AppendChunk(chunk: Bytes, requestId: Option<string>) returns (error: Option<ChunkError>)
      requires Valid()
      modifies this
      ensures Valid() && pending.Keys == old(pending.Keys)
      ensures var target := if requestId.Some? then requestId else ActiveOf(old(pending), old(active));
              if chunk == [] then error == None && pending == old(pending) && active == old(active)
              else if |chunk| > CHUNK_SIZE then error == Some(TooLarge) && pending == old(pending) && active == old(active)
              else if target.None? || target.value !in old(pending) then
                error == Some(if old(pending) != map[] then WrongRequest else NoMetadata)
                && pending == old(pending) && active == old(active)
              else
                error == None && active == target
                && pending[target.value].file == old(pending)[target.value].file + chunk
                && forall id :: id in pending && id != target.value ==> pending[id] == old(pending)[id]
    {
      if chunk == [] {
        return None;
      }
      if |chunk| > CHUNK_SIZE {
        return Some(TooLarge);
      }
      var resolved := requestId;
      if resolved.None? {
        resolved := ActiveRequestId();
      }
      if resolved.None? || resolved.value !in pending {
        return Some(if pending != map[] then WrongRequest else NoMetadata);
      }
      var id := resolved.value;
      var p := pending[id];
      pending := pending[id := PendingUpload(p.file + chunk, p.digested + chunk, p.length + |chunk|)];
      active := Some(id);
      return None;
    }

    /** The payload handed on is that of the bytes received: its length is theirs and its digest is theirs. */
    method Complete(requestId: string) returns (payload: Option<Payload>)
      requires Valid()
      modifies this
      ensures Valid() && pending == old(pending) - {requestId}
      ensures active == if requestId in old(pending) && old(active) == Some(requestId) then None else old(active)
      ensures payload == if requestId in old(pending) then Some(PayloadOf(old(pending)[requestId].file, digest)) else None
    {
      if requestId !in pending {
        assert pending - {requestId} == pending;
        return None;
      }
      var p := pending[requestId];
      pending := pending - {requestId};
      if active == Some(requestId) {
        active := None;
      }
      payload := Some(Payload(p.file, p.length, digest(p.digested)));
    }

    method Discard(requestId: string)
      requires Valid()
      modifies this
      ensures Valid() && pending == old(pending) - {requestId}
      ensures active == if old(active) == Some(requestId) then None else old(active)
    {
      pending := pending - {requestId};
      if active == Some(requestId) {
        active := None;
      }
    }
  }

  /** An upload as the handler gets it. A staged one carries the payload of what was received; its file may have
      disappeared meanwhile. */
  function Arrived(u: Upload, received: Bytes, digest: Digest): Upload {
    if u.body.Staged? then
      var payload := PayloadOf(received, digest);
      u.(body := Staged(if u.body.file.Some? then Some(payload.file) else None, payload.sha1), contentLength := payload.length)
    else u
  }
}
