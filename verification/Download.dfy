/** Downloads: the agent's chunk reads, and the control center's loop that trusts
    nothing the agent says. */
module Download {
  import opened Common
  import opened AtomicUpload

  const MAX_CHUNK: int := 4 * 1024 * 1024

  datatype Reply =
    | NoReply
    | FileChunk(data: Slice, offset: Int64, total: Int64, final: bool, checksum: string)

  // ------------------------------------------------------------ the agent's side

  /** The chunk a healthy disk yields for a file, an offset and a requested size. */
  function ServeChunk(file: Slice, digest: Digest, offset: int, requested: int): (r: Reply)
    ensures r.FileChunk? ==> 0 <= offset && offset + |r.data| <= |file| && r.data == file[offset..offset + |r.data|] && r.total == |file|
    ensures r.FileChunk? ==> (r.final <==> offset + |r.data| == |file|)
  {
    var size := Min(if requested <= 0 then CHUNK_LIMIT else requested, MAX_CHUNK);
    if offset < 0 || offset > |file| || (offset == |file| && file != []) then NoReply
    else
      var end := Min(offset + size, |file|);
      FileChunk(file[offset..end], offset, |file|, end == |file|, if end == |file| then digest(file) else "")
  }

  /** Reads one section; opens says whether the file can be opened and its size
      read, and granted bounds what the read call itself yields. */
  method ReadFileChunk(file: Slice, offset: Int64, chunkSize: int, opens: bool, granted: nat) returns (data: Option<Slice>)
    ensures data.Some? <==> opens && ((0 <= offset < |file| && granted > 0) || (offset == 0 == |file|))
    ensures data.Some? ==> offset + |data.value| <= |file| && data.value == file[offset..offset + |data.value|]
    ensures data.Some? ==> |data.value| == Min(Min(if chunkSize <= 0 then CHUNK_LIMIT else chunkSize, |file| - offset), granted)
                           || file == []
    ensures data.Some? && file != [] ==> data.value != []
  {
    if offset < 0 {
      return None;
    }
    var size := chunkSize;
    if size <= 0 {
      size := CHUNK_LIMIT;
    }
    if !opens {
      return None;
    }
    if offset > |file| {
      return None;
    }
    if offset == |file| {
      if |file| == 0 {
        return Some([]);
      }
      return None;
    }
    var remaining := |file| - offset;
    if size > remaining {
      size := remaining;
    }
    var n := Min(size, granted);
    if n == 0 {
      return None;
    }
    return Some(file[offset..offset + n]);
  }

  /** The agent's handler: on a disk that yields whatever is asked for, the reply
      is the served chunk; on any disk it is a true section of the file, and there
      is none exactly if nothing can be read or the final chunk's digest fails. */
  method HandleGetFile(file: Slice, digest: Digest, offset: Int64, requested: int, opens: bool, granted: nat, sumFails: bool)
    returns (r: Reply)
    ensures opens && granted >= |file| && granted > 0 && !sumFails ==> r == ServeChunk(file, digest, offset, requested)
    ensures r.FileChunk? ==> && r.offset == offset >= 0 && r.total == |file| && offset + |r.data| <= |file|
                             && r.data == file[offset..offset + |r.data|]
                             && (r.final <==> offset + |r.data| == |file|)
                             && r.checksum == (if r.final then digest(file) else "")
    ensures var wanted := if requested <= 0 then 65536 else if requested > 4194304 then 4194304 else requested;
            var size := if file == [] then 0 else Min(Min(wanted, |file| - offset), granted);
            && (r.NoReply? <==>
                  || !opens || offset < 0 || (offset >= |file| && file != []) || (offset > 0 && file == [])
                  || (granted == 0 && file != [])
                  || (sumFails && offset + size == |file|))
            && (r.FileChunk? ==> |r.data| == size)
  {
    var chunkSize := requested;
    if chunkSize <= 0 {
      chunkSize := CHUNK_LIMIT;
    }
    if chunkSize > MAX_CHUNK {
      chunkSize := MAX_CHUNK;
    }
    var data := ReadFileChunk(file, offset, chunkSize, opens, granted);
    if data.None? {
      return NoReply;
    }
    var final := Add64(offset, |data.value|) >= |file|;
    var checksum := "";
    if final {
      if sumFails {
        return NoReply;
      }
      checksum := digest(file);
    }
    return FileChunk(data.value, offset, |file|, final, checksum);
  }

  // ------------------------------------------------- what the agent may answer

  /** Any agent at all: its answer to the k-th request, which names an offset. */
  type Agent = (nat, int) -> Reply

  /** The data of the k-th reply, and the bytes received before it. */
  function Content(agent: Agent, k: nat): Bytes {
    if k == 0 then [] else Content(agent, k - 1) + DataOf(agent(k - 1, |Content(agent, k - 1)|))
  }

  function DataOf(r: Reply): Bytes {
    if r.FileChunk? then r.data else []
  }

  function ReplyAt(agent: Agent, k: nat): Reply {
    agent(k, |Content(agent, k)|)
  }

  /** The k-th reply is a chunk that fits after the earlier ones within the first
      advertised size. */
  predicate Fits(agent: Agent, k: nat) {
    var first, r := ReplyAt(agent, 0), ReplyAt(agent, k);
    && r.FileChunk? && first.FileChunk?
    && r.offset == |Content(agent, k)|
    && |r.data| <= CHUNK_LIMIT
    && r.total == first.total
    && |Content(agent, k + 1)| <= first.total
  }

  predicate Middle(agent: Agent, k: nat) {
    && Fits(agent, k)
    && !ReplyAt(agent, k).final
    && ReplyAt(agent, k).data != []
    && |Content(agent, k + 1)| < ReplyAt(agent, 0).total
  }

  predicate Last(agent: Agent, k: nat, digest: Digest) {
    && Fits(agent, k)
    && ReplyAt(agent, k).final
    && |Content(agent, k + 1)| == ReplyAt(agent, 0).total
    && ReplyAt(agent, k).checksum != ""
    && EqualFold(digest(Content(agent, k + 1)), ReplyAt(agent, k).checksum)
  }

  /** The first n replies are one complete file. */
  predicate ValidStream(agent: Agent, n: nat, digest: Digest) {
    n > 0 && Last(agent, n - 1, digest) && forall i | 0 <= i < n - 1 :: Middle(agent, i)
  }

  lemma {:induction false} ContentGrows(agent: Agent, i: nat, j: nat)
    requires i <= j
    ensures Content(agent, i) <= Content(agent, j)
  {
    if i < j {
      ContentGrows(agent, i, j - 1);
    }
  }

  /** The i-th of n replies is a chunk that follows the earlier ones, of at most 64 KiB
      and not empty unless it is the only one, names the size of them all, and is marked
      final exactly if it is the last. */
  predicate InFile(agent: Agent, n: nat, i: nat) {
    var r := ReplyAt(agent, i);
    && r.FileChunk? && r.offset == |Content(agent, i)| && |r.data| <= 65536
    && r.total == |Content(agent, n)| && (r.final <==> i == n - 1) && (r.data == [] ==> n == 1)
  }

  lemma ChunkOfStream(agent: Agent, n: nat, i: nat, digest: Digest)
    requires ValidStream(agent, n, digest) && i < n
    ensures InFile(agent, n, i) && ReplyAt(agent, i).FileChunk?
  {
    hide EqualFold, Content;
    if i < n - 1 {
      assert Middle(agent, i);
    } else if n > 1 {
      assert Middle(agent, n - 2);
      ContentNext(agent, n - 1);
    }
  }

  lemma StreamOfChunks(agent: Agent, n: nat, i: nat)
    requires (forall j | 0 <= j < n :: InFile(agent, n, j)) && i < n
    ensures i < n - 1 ==> Middle(agent, i)
    ensures ReplyAt(agent, i).FileChunk?
    ensures i == n - 1 ==> Fits(agent, i) && |Content(agent, n)| == ReplyAt(agent, 0).total && ReplyAt(agent, i).final
  {
    hide Content;
    assert InFile(agent, n, i) && InFile(agent, n, 0) && InFile(agent, n, n - 1);
    ContentGrows(agent, i + 1, n);
    if i < n - 1 {
      ContentGrows(agent, i + 1, n - 1);
      ContentNext(agent, n - 1);
    }
  }

  /** What it takes for replies to be one complete file. */
  lemma StreamIsOneFile(agent: Agent, n: nat, digest: Digest)
    ensures ValidStream(agent, n, digest) <==>
              && n > 0 && (forall i | 0 <= i < n :: InFile(agent, n, i))
              && ReplyAt(agent, n - 1).FileChunk? && ReplyAt(agent, n - 1).checksum != ""
              && EqualFold(digest(Content(agent, n)), ReplyAt(agent, n - 1).checksum)
  {
    hide EqualFold, Content, InFile, Middle, Fits, ReplyAt;
    if ValidStream(agent, n, digest) {
      forall i | 0 <= i < n
        ensures InFile(agent, n, i)
      {
        ChunkOfStream(agent, n, i, digest);
      }
      ChunkOfStream(agent, n, n - 1, digest);
    } else if n > 0 && forall i | 0 <= i < n :: InFile(agent, n, i) {
      forall i | 0 <= i < n
        ensures i < n - 1 ==> Middle(agent, i)
      {
        StreamOfChunks(agent, n, i);
      }
      StreamOfChunks(agent, n, n - 1);
    }
  }

  lemma StreamEndsOnce(agent: Agent, n: nat, m: nat, digest: Digest)
    requires ValidStream(agent, n, digest) && ValidStream(agent, m, digest)
    ensures n == m
  {
    forall i | 0 <= i < m - 1
      ensures !Last(agent, i, digest)
    {
      assert Middle(agent, i);
    }
    forall i | 0 <= i < n - 1
      ensures !Last(agent, i, digest)
    {
      assert Middle(agent, i);
    }
  }

  // --------------------------------------------------- the control center's side

  /** Which local calls succeed. */
  datatype LocalIo = LocalIo(write: nat -> bool, read: bool, sync: bool, close: bool, rename: bool)

  /** Nothing on the control center's own side stops a download of n requests. */
  ghost predicate Undisturbed(cancelled: nat -> bool, io: LocalIo, n: nat) {
    && (forall i: nat | i < n :: !cancelled(i) && io.write(i))
    && io.read && io.sync && io.close && io.rename
  }

  /** The first n replies are one complete file and reach the part file. */
  ghost predicate Received(agent: Agent, cancelled: nat -> bool, io: LocalIo, digest: Digest, n: nat) {
    && ValidStream(agent, n, digest)
    && (forall i: nat | i < n :: !cancelled(i) && io.write(i))
    && io.read
  }

  /** The k-th request is not made, or its reply neither continues nor completes the file. */
  predicate Stuck(agent: Agent, cancelled: nat -> bool, io: LocalIo, digest: Digest, k: nat) {
    cancelled(k) || !io.write(k) || (!Middle(agent, k) && !(Last(agent, k, digest) && io.read))
  }

  lemma StuckForGood(agent: Agent, cancelled: nat -> bool, io: LocalIo, digest: Digest, k: nat)
    requires forall i | 0 <= i < k :: Middle(agent, i)
    requires Stuck(agent, cancelled, io, digest, k)
    ensures forall n: nat :: !Received(agent, cancelled, io, digest, n)
  {
    forall n: nat
      ensures !Received(agent, cancelled, io, digest, n)
    {
      if 0 < n <= k {
        assert !Last(agent, n - 1, digest) by {
          assert Middle(agent, n - 1);
        }
      } else if k < n - 1 && Middle(agent, k) {
        assert cancelled(k) || !io.write(k);
      }
    }
  }

  lemma ContentStart(agent: Agent)
    ensures Content(agent, 0) == []
  {
  }

  /** The k-th reply, looked at as the loop does: with the offset reached and the
      size first advertised. */
  lemma Verdict(agent: Agent, cancelled: nat -> bool, io: LocalIo, digest: Digest, k: nat, offset: int)
    requires offset == |Content(agent, k)|
    requires forall i | 0 <= i < k :: Middle(agent, i)
    ensures ReplyAt(agent, k) == agent(k, offset)
    ensures Content(agent, k + 1) == Content(agent, k) + DataOf(ReplyAt(agent, k))
    ensures var r, first := ReplyAt(agent, k), ReplyAt(agent, 0);
            var fits := r.FileChunk? && first.FileChunk? && r.offset == offset && |r.data| <= CHUNK_LIMIT
                        && r.total == first.total && offset + |r.data| <= first.total;
            && (Middle(agent, k) <==> fits && !r.final && r.data != [] && offset + |r.data| < first.total)
            && (Last(agent, k, digest) <==> fits && r.final && offset + |r.data| == first.total && r.checksum != ""
                                            && EqualFold(digest(Content(agent, k + 1)), r.checksum))
    ensures Stuck(agent, cancelled, io, digest, k) ==> forall n: nat :: !Received(agent, cancelled, io, digest, n)
  {
    hide EqualFold, Received;
    if Stuck(agent, cancelled, io, digest, k) {
      StuckForGood(agent, cancelled, io, digest, k);
    }
  }

  lemma Complete(agent: Agent, cancelled: nat -> bool, io: LocalIo, digest: Digest, n: nat)
    requires n > 0 && Last(agent, n - 1, digest) && io.read
    requires forall i | 0 <= i < n - 1 :: Middle(agent, i)
    requires forall i: nat | i < n :: !cancelled(i) && io.write(i)
    ensures Received(agent, cancelled, io, digest, n)
  {
  }

  class LocalDisk {
    var files: map<string, Bytes>
  }

  /** The loop: receives chunks into the part file until the final one is verified. */
  method Receive(local: LocalDisk, agent: Agent, cancelled: nat -> bool, io: LocalIo, digest: Digest, part: string)
    returns (ok: bool, requests: nat)
    requires part in local.files && local.files[part] == []
    modifies local
    ensures part in local.files && local.files == old(local.files)[part := local.files[part]]
    ensures ok ==> Received(agent, cancelled, io, digest, requests) && local.files[part] == Content(agent, requests)
    ensures !ok ==> forall n: nat :: !Received(agent, cancelled, io, digest, n)
    ensures requests <= 1 || (ReplyAt(agent, 0).FileChunk? && requests <= ReplyAt(agent, 0).total)
  {
    hide EqualFold, Received, ValidStream, Content, Middle, Last, Fits, ReplyAt;
    ContentStart(agent);
    var offset: Int64 := 0;
    var totalSize: Int64 := -1;
    requests := 0;
    while true
      invariant part in local.files && local.files == old(local.files)[part := local.files[part]]
      invariant local.files[part] == Content(agent, requests) && offset == |Content(agent, requests)|
      invariant forall i | 0 <= i < requests :: Middle(agent, i) && !cancelled(i) && io.write(i)
      invariant requests == 0 ==> totalSize == -1
      invariant requests > 0 ==> ReplyAt(agent, 0).FileChunk? && totalSize == ReplyAt(agent, 0).total && offset < totalSize
      invariant requests <= offset
      decreases if requests == 0 then TWO_63 else totalSize - offset
    {
      var k := requests;
      Verdict(agent, cancelled, io, digest, k, offset);
      if cancelled(k) {
        return false, requests;
      }
      var chunk := agent(k, offset);
      requests := requests + 1;
      if chunk.NoReply? {
        return false, requests;
      }
      if chunk.offset != offset {
        return false, requests;
      }
      if |chunk.data| > CHUNK_LIMIT {
        return false, requests;
      }
      if totalSize < 0 {
        totalSize := chunk.total;
      } else if chunk.total != totalSize {
        return false, requests;
      }
      var end := Add64(offset, |chunk.data|);
      if totalSize < 0 || end > totalSize {
        return false, requests;
      }
      if !chunk.final && |chunk.data| == 0 {
        return false, requests;
      }
      // No file grows past the int64 range, so a wrapped sum ends in a failed write.
      if !io.write(k) || offset + |chunk.data| >= TWO_63 {
        var torn: Bytes := *;
        local.files := local.files[part := torn];
        return false, requests;
      }
      local.files := local.files[part := local.files[part] + chunk.data];
      offset := end;
      if !chunk.final {
        if offset >= totalSize {
          return false, requests;
        }
        assert Middle(agent, k);
        continue;
      }
      if offset != totalSize {
        return false, requests;
      }
      if chunk.checksum == "" {
        return false, requests;
      }
      if !io.read || !EqualFold(digest(local.files[part]), chunk.checksum) {
        return false, requests;
      }
      assert Last(agent, k, digest);
      Complete(agent, cancelled, io, digest, requests);
      return true, requests;
    }
  }

  /** A download from an arbitrary agent. It succeeds exactly when the replies are
      one complete file and nothing local fails; then the destination holds that
      file and nothing else changed; otherwise nothing changed at all. It sends at
      most one request, or one per advertised byte. */
  method Download(local: LocalDisk, agent: Agent, cancelled: nat -> bool, io: LocalIo, digest: Digest,
                  destination: string, part: string)
    returns (ok: bool, requests: nat)
    requires part !in local.files && part != destination
    modifies local
    ensures ok ==> ValidStream(agent, requests, digest)
                   && local.files == old(local.files)[destination := Content(agent, requests)]
    ensures !ok ==> local.files == old(local.files)
    ensures ok <==> exists n: nat :: ValidStream(agent, n, digest) && Undisturbed(cancelled, io, n)
    ensures requests <= 1 || (ReplyAt(agent, 0).FileChunk? && requests <= ReplyAt(agent, 0).total)
  {
    local.files := local.files[part := []];
    ok, requests := Receive(local, agent, cancelled, io, digest, part);
    if !ok {
      forall n: nat
        ensures !(ValidStream(agent, n, digest) && Undisturbed(cancelled, io, n))
      {
        assert !Received(agent, cancelled, io, digest, n);
      }
    }
    if !ok || !io.sync || !io.close || !io.rename {
      local.files := local.files - {part};
      return false, requests;
    }
    var content := local.files[part];
    local.files := (local.files - {part})[destination := content];
    forall n: nat | ValidStream(agent, n, digest)
      ensures n == requests
    {
      StreamEndsOnce(agent, n, requests, digest);
    }
  }

  // ----------------------------------------------------------- both sides together

  /** The agent of this repository, serving a file that does not change. */
  function Honest(file: Slice, digest: Digest): Agent {
    (k: nat, offset: int) => ServeChunk(file, digest, offset, CHUNK_LIMIT)
  }

  function ChunkCount(n: nat): nat {
    if n == 0 then 1 else (n + 65535) / 65536
  }

  /** Where the k-th chunk of a file of n bytes ends. */
  function ChunkEnd(n: nat, k: nat): nat {
    Min(k * 65536 + 65536, n)
  }

  lemma ServeKth(file: Slice, digest: Digest, k: nat)
    requires k < ChunkCount(|file|)
    ensures k * 65536 <= |file|
    ensures var end := ChunkEnd(|file|, k);
            && ServeChunk(file, digest, k * 65536, CHUNK_LIMIT)
               == FileChunk(file[k * 65536..end], k * 65536, |file|, end == |file|, if end == |file| then digest(file) else "")
            && file[..k * 65536] + file[k * 65536..end] == file[..end]
            && (end == |file| <==> k == ChunkCount(|file|) - 1)
            && (end != |file| ==> end == (k + 1) * 65536 && k * 65536 < end)
  {
  }

  lemma HonestReply(file: Slice, digest: Digest, k: nat)
    requires Content(Honest(file, digest), k) == file[..Min(k * 65536, |file|)] && k < ChunkCount(|file|)
    ensures k * 65536 <= |file| && ReplyAt(Honest(file, digest), k) == ServeChunk(file, digest, k * 65536, CHUNK_LIMIT)
  {
    hide ServeChunk, Content;
    ServeKth(file, digest, k);
  }

  lemma {:induction false} HonestContent(file: Slice, digest: Digest, k: nat)
    requires k < ChunkCount(|file|)
    ensures k * 65536 <= |file| && Content(Honest(file, digest), k) == file[..k * 65536]
    ensures Content(Honest(file, digest), k + 1) == file[..ChunkEnd(|file|, k)]
    ensures ReplyAt(Honest(file, digest), k) == ServeChunk(file, digest, k * 65536, CHUNK_LIMIT)
  {
    hide ServeChunk, Honest, ReplyAt, ChunkCount, ChunkEnd;
    ServeKth(file, digest, k);
    if k == 0 {
      ContentStart(Honest(file, digest));
    } else {
      ChunksBefore(file, k);
      HonestContent(file, digest, k - 1);
    }
    HonestReply(file, digest, k);
    ContentNext(Honest(file, digest), k);
  }

  lemma ChunksBefore(file: Slice, k: nat)
    requires 0 < k < ChunkCount(|file|)
    ensures k * 65536 <= |file| && ChunkEnd(|file|, k - 1) == k * 65536
  {
  }

  lemma ContentNext(agent: Agent, k: nat)
    ensures Content(agent, k + 1) == Content(agent, k) + DataOf(ReplyAt(agent, k))
  {
  }

  /** The honest agent's replies are one complete file: the one it serves. */
  lemma HonestStream(file: Slice, digest: Digest)
    requires digest(file) != ""
    ensures ValidStream(Honest(file, digest), ChunkCount(|file|), digest)
    ensures Content(Honest(file, digest), ChunkCount(|file|)) == file
  {
    hide Honest, Content, ServeChunk, ReplyAt, ChunkEnd;
    var n := ChunkCount(|file|);
    var agent := Honest(file, digest);
    assert file[..|file|] == file;
    forall k | 0 <= k < n
      ensures k < n - 1 ==> Middle(agent, k)
      ensures k == n - 1 ==> Last(agent, k, digest)
      ensures k == n - 1 ==> Content(agent, n) == file
    {
      HonestContent(file, digest, 0);
      ServeKth(file, digest, 0);
      HonestContent(file, digest, k);
      ServeKth(file, digest, k);
    }
  }

  /** Downloading an unchanging file from the agent yields that file, in exactly
      as many requests as it has chunks. */
  method DownloadFromAgent(local: LocalDisk, file: Slice, cancelled: nat -> bool, io: LocalIo, digest: Digest,
                           destination: string, part: string)
    returns (ok: bool, requests: nat)
    requires part !in local.files && part != destination
    requires digest(file) != ""
    modifies local
    ensures ok <==> Undisturbed(cancelled, io, ChunkCount(|file|))
    ensures ok ==> local.files == old(local.files)[destination := file] && requests == ChunkCount(|file|)
    ensures !ok ==> local.files == old(local.files)
  {
    HonestStream(file, digest);
    ok, requests := Download(local, Honest(file, digest), cancelled, io, digest, destination, part);
    forall n: nat | ValidStream(Honest(file, digest), n, digest)
      ensures n == ChunkCount(|file|)
    {
      StreamEndsOnce(Honest(file, digest), n, ChunkCount(|file|), digest);
    }
  }
}
