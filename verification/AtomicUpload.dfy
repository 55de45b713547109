/** The agent's side of an upload: chunks are collected in a temporary file next
    to the destination, with the advertised total in a metadata file, and the
    destination is replaced by one rename. Each operating system call may fail. */
module AtomicUpload {
  import opened Common
  import opened Decimal

  const CHUNK_LIMIT: int := 64 * 1024

  datatype Path = Path(dir: string, name: string)

  type Files = map<Path, Bytes>

  type Digest = Bytes -> string

  /** One transfer: temporary files are named after the directory and the ID. */
  datatype Key = Key(dir: string, id: string)

  datatype Chunk = Chunk(path: Path, id: string, data: Slice, offset: Int64, total: Int64, final: bool, checksum: string)
  {
    function Owner(): Key {
      Key(path.dir, id)
    }
  }

  datatype OsCall =
    | CreateTemp | CreateMeta | ReadMeta | StatTemp | OpenTemp
    | WriteTemp | SyncTemp | CloseTemp | SumTemp | RenameTemp

  predicate ValidId(id: string) {
    && !Blank(id)
    && '/' !in id && '\\' !in id
    && forall i | 0 <= i < |id| - 1 :: !(id[i] == '.' && id[i + 1] == '.')
  }

  /** The form of the IDs that the control center gives its transfers. */
  predicate Uuid(id: string) {
    |id| == 36 && forall i | 0 <= i < 36 :: HexDigit(id[i]) || 'A' <= id[i] <= 'F' || id[i] == '-'
  }

  lemma UuidIsValid(id: string)
    requires Uuid(id)
    ensures ValidId(id) && id != ""
  {
    AsciiSpace(id[0]);
    hide IsSpace;
  }

  /** An ID is refused exactly if it is blank or contains a separator or two dots in a row. */
  lemma RefusedIds(id: string)
    ensures !ValidId(id) <==> Blank(id) || '/' in id || '\\' in id || exists a, b :: id == a + ".." + b
    ensures (forall i | 0 <= i < |id| :: id[i] in " \t\n\r") ==> Blank(id)
  {
    forall i | 0 <= i < |id|
      ensures id[i] in " \t\n\r" ==> IsSpace(id[i])
    {
      AsciiSpace(id[i]);
    }
    hide IsSpace;
    forall a, b | id == a + ".." + b
      ensures !ValidId(id)
    {
      assert id[|a|] == '.' && id[|a| + 1] == '.';
    }
    if i :| 0 <= i < |id| - 1 && id[i] == '.' && id[i + 1] == '.' {
      assert id == id[..i] + ".." + id[i + 2..];
    }
  }

  const PREFIX := ".lan-commander-upload-"

  function TempName(id: string): string {
    PREFIX + id + ".part"
  }

  function MetaName(id: string): string {
    TempName(id) + ".meta"
  }

  function Temp(k: Key): Path {
    Path(k.dir, TempName(k.id))
  }

  function Meta(k: Key): Path {
    Path(k.dir, MetaName(k.id))
  }

  /** Names under which the agent keeps unfinished transfers. */
  ghost predicate Scratch(p: Path) {
    exists id: string :: p.name == TempName(id) || p.name == MetaName(id)
  }

  /** Unfinished transfers are kept beside their destination, under names that no other
      file should have: a path with another name is a proper destination. */
  lemma ScratchNames(k: Key, p: Path)
    ensures Temp(k).dir == Meta(k).dir == k.dir
    ensures Scratch(p) ==>
              && ".lan-commander-upload-" <= p.name
              && (p.name[|p.name| - 5..] == ".part" || p.name[|p.name| - 5..] == ".meta")
  {
    if id: string :| p.name == TempName(id) || p.name == MetaName(id) {
      assert TempName(id) == PREFIX + (id + ".part");
      assert MetaName(id) == PREFIX + (id + ".part" + ".meta");
    }
  }

  // ---------------------------------------------------------------- protocol

  /** What the disk says about one transfer. */
  datatype Slot = Idle | Receiving(total: Int64, received: Bytes)

  function View(files: Files, k: Key): Slot {
    if Temp(k) in files && Meta(k) in files then
      match ParseInt(files[Meta(k)])
      case None => Idle
      case Some(total) => Receiving(total, files[Temp(k)])
    else
      Idle
  }

  datatype Outcome = NoTransfer | Rejected | Stored(whole: Bytes) | Committed(whole: Bytes)
  {
    predicate Accepted() {
      Stored? || Committed?
    }
  }

  /** The bytes a chunk must follow: none at offset 0, else exactly what was received. */
  function Expected(slot: Slot, c: Chunk): Option<Bytes> {
    if c.offset == 0 then Some([])
    else if slot.Receiving? && slot.total == c.total && |slot.received| == c.offset then Some(slot.received)
    else None
  }

  predicate PrepareSucceeds(c: Chunk, failing: set<OsCall>) {
    if c.offset == 0 then CreateTemp !in failing && CreateMeta !in failing
    else ReadMeta !in failing && StatTemp !in failing
  }

  predicate FlushSucceeds(c: Chunk, failing: set<OsCall>) {
    && OpenTemp !in failing && SyncTemp !in failing && CloseTemp !in failing
    && (c.data != [] ==> WriteTemp !in failing)
  }

  /** No call that this chunk needs is a failing one. */
  predicate CallsSucceed(c: Chunk, failing: set<OsCall>) {
    && PrepareSucceeds(c, failing)
    && FlushSucceeds(c, failing)
    && (c.final ==> SumTemp !in failing && RenameTemp !in failing)
  }

  /** The protocol, over unbounded sizes and without any file. */
  function Decide(slot: Slot, digest: Digest, c: Chunk, failing: set<OsCall>): Outcome {
    if !ValidId(c.id) then NoTransfer
    else
      match Expected(slot, c)
      case None => Rejected
      case Some(before) =>
        var whole := before + c.data;
        if |c.data| > CHUNK_LIMIT || !CallsSucceed(c, failing) then Rejected
        else if !c.final then
          if 0 < |c.data| && |whole| < c.total then Stored(whole) else Rejected
        else if |whole| == c.total && !Blank(c.checksum) && EqualFold(digest(whole), c.checksum) then Committed(whole)
        else Rejected
  }

  /** The system calls that a chunk needs. */
  function Needed(c: Chunk): set<OsCall> {
    (if c.offset == 0 then {CreateTemp, CreateMeta} else {ReadMeta, StatTemp})
    + {OpenTemp, SyncTemp, CloseTemp}
    + (if c.data == [] then {} else {WriteTemp})
    + (if c.final then {SumTemp, RenameTemp} else {})
  }

  /** Which chunks are accepted: under a proper ID and with every needed call
      succeeding, those of at most 64 KiB that begin a transfer or follow exactly what
      was received for the same total, and either leave some of it to come or end it
      with the digest of the whole. */
  lemma AcceptedExactly(slot: Slot, digest: Digest, c: Chunk, failing: set<OsCall>)
    ensures var out := Decide(slot, digest, c, failing);
            var follows := slot.Receiving? && slot.total == c.total && |slot.received| == c.offset;
            var whole := (if c.offset != 0 && follows then slot.received else []) + c.data;
            && (out.Accepted() <==>
                  && ValidId(c.id) && failing !! Needed(c) && |c.data| <= 65536
                  && (c.offset == 0 || follows)
                  && if c.final then |whole| == c.total && !Blank(c.checksum) && EqualFold(digest(whole), c.checksum)
                     else c.data != [] && |whole| < c.total)
            && (out.Accepted() ==> out == if c.final then Committed(whole) else Stored(whole))
            && (out.NoTransfer? <==> !ValidId(c.id))
  {
    hide ValidId, Blank, EqualFold;
  }

  /** The effect of an outcome on the disk. */
  function Apply(files: Files, c: Chunk, out: Outcome): Files {
    var k := c.Owner();
    match out
    case NoTransfer => files
    case Rejected => files - {Temp(k), Meta(k)}
    case Stored(whole) =>
      if c.offset == 0 then files[Temp(k) := whole][Meta(k) := FormatInt(c.total)] else files[Temp(k) := whole]
    case Committed(whole) => (files - {Temp(k)})[c.path := whole] - {Meta(k)}
  }

  /** The disk once the temporary file of a chunk is created or found. */
  function Started(files: Files, c: Chunk): Files {
    if c.offset == 0 then files[Temp(c.Owner()) := []][Meta(c.Owner()) := FormatInt(c.total)] else files
  }

  lemma TempIsNotMeta(k: Key)
    ensures Temp(k) != Meta(k)
  {
    assert |MetaName(k.id)| > |TempName(k.id)|;
  }

  lemma StartedApply(files: Files, c: Chunk, whole: Bytes)
    ensures var started := Started(files, c); var stored := started[Temp(c.Owner()) := whole];
            && stored == Apply(files, c, Stored(whole))
            && Apply(started, c, Rejected) == Apply(files, c, Rejected)
            && Apply(stored, c, Rejected) == Apply(files, c, Rejected)
            && Apply(stored, c, Committed(whole)) == Apply(files, c, Committed(whole))
  {
    hide TempName, MetaName, FormatInt;
    var k, started := c.Owner(), Started(files, c);
    TempIsNotMeta(k);
    var stored := started[Temp(k) := whole];
    assert stored == Apply(files, c, Stored(whole));
    assert started - {Temp(k), Meta(k)} == files - {Temp(k), Meta(k)};
    assert stored - {Temp(k), Meta(k)} == files - {Temp(k), Meta(k)};
    assert (stored - {Temp(k)})[c.path := whole] - {Meta(k)} == (files - {Temp(k)})[c.path := whole] - {Meta(k)};
  }

  function Discard(files: Files, path: Path, id: string): Files {
    if ValidId(id) then files - {Temp(Key(path.dir, id)), Meta(Key(path.dir, id))} else files
  }

  /** What changed a destination: a finished transfer replaced it, or a chunk
      without a transfer ID was written straight into it. */
  datatype Change =
    | Commit(path: Path, id: string, content: Bytes)
    | Overwrite(path: Path, data: Slice, offset: Int64, fault: Fault)
  {
    function Owner(): Key {
      if Commit? then Key(path.dir, id) else Key(path.dir, "")
    }
  }

  function ChangeOf(c: Chunk, out: Outcome): seq<Change> {
    if out.Committed? then [Commit(c.path, c.id, out.whole)] else []
  }

  /** The agent's checks on a chunk before it looks at the disk, in int64. */
  predicate WellShaped(c: Chunk) {
    var end := Add64(c.offset, |c.data|);
    && 0 <= c.offset && 0 <= c.total
    && |c.data| <= CHUNK_LIMIT
    && end <= c.total
    && (c.final || c.data != [])
    && (c.final ==> end == c.total)
    && (!c.final ==> end < c.total)
  }

  /** Wrap-around never lets a chunk through: the wrapped checks together with
      the file size limit are the protocol's unbounded checks. */
  lemma ShapeIsExact(c: Chunk, before: Bytes)
    requires |before| == c.offset
    ensures (WellShaped(c) && (c.data == [] || |before| + |c.data| < TWO_63))
            <==> (|c.data| <= CHUNK_LIMIT
                  && if c.final then |before + c.data| == c.total else 0 < |c.data| && |before + c.data| < c.total)
  {
  }

  lemma InvalidIdDecision(files: Files, slot: Slot, digest: Digest, c: Chunk, failing: set<OsCall>)
    requires !ValidId(c.id)
    ensures Decide(slot, digest, c, failing) == NoTransfer && Apply(files, c, NoTransfer) == files
  {
  }

  lemma CleanupIsRejection(files: Files, c: Chunk)
    ensures Apply(files, c, Rejected) == files - {Temp(c.Owner()), Meta(c.Owner())}
  {
  }

  /** The protocol's decision, in the order in which the agent finds it out. */
  lemma DecideByStages(slot: Slot, digest: Digest, c: Chunk, failing: set<OsCall>)
    requires ValidId(c.id)
    ensures var before := Expected(slot, c);
            var out := Decide(slot, digest, c, failing);
            if before.None? || !WellShaped(c) || !PrepareSucceeds(c, failing) then out == Rejected
            else
              var whole := before.value + c.data;
              if !FlushSucceeds(c, failing) || (c.data != [] && |whole| >= TWO_63) then out == Rejected
              else if !c.final then out == Stored(whole)
              else if !Blank(c.checksum) && SumTemp !in failing && RenameTemp !in failing && EqualFold(digest(whole), c.checksum)
              then out == Committed(whole)
              else out == Rejected
  {
    var before := Expected(slot, c);
    if before.Some? {
      ShapeIsExact(c, before.value);
    }
  }

  // -------------------------------------------------- chunks without a transfer

  /** The call that fails while a chunk is written straight into its destination. */
  datatype Fault = NoFault | OpenFails | StatFails | ExtendFails | WriteFails(written: nat)

  function Padded(file: Bytes, size: nat): (padded: Bytes)
    ensures |padded| == Max(|file|, size) && file <= padded
    ensures forall i | |file| <= i < size :: padded[i] == 0
  {
    if size <= |file| then file else file + seq(size - |file|, _ => 0)
  }

  function Overlay(file: Bytes, data: Bytes, offset: nat): Bytes
    requires offset <= |file|
  {
    file[..offset] + data + (if offset + |data| < |file| then file[offset + |data|..] else [])
  }

  /** The bytes a write at an offset really writes. */
  function Granted(data: Bytes, offset: Int64, fault: Fault): (granted: Bytes)
    requires 0 <= offset
    ensures granted <= data
  {
    var size := if fault.WriteFails? then Min(fault.written, |data|) else |data|;
    data[..Min(size, TWO_63 - 1 - offset)]
  }

  predicate WriteSucceeds(data: Bytes, offset: Int64, fault: Fault) {
    data == [] || (!fault.WriteFails? && offset + |data| < TWO_63)
  }

  /** A destination once it is opened for a chunk at an offset. */
  function Opened(file: Option<Bytes>, offset: Int64): Bytes {
    if offset == 0 || file.None? then [] else file.value
  }

  predicate Reaches(file: Option<Bytes>, offset: Int64, fault: Fault) {
    && offset >= 0
    && !fault.OpenFails?
    && (offset > 0 ==> !fault.StatFails?)
    && (offset > |Opened(file, offset)| ==> !fault.ExtendFails?)
  }

  /** A destination after a chunk was written straight into it. */
  function Overwritten(file: Option<Bytes>, data: Bytes, offset: Int64, fault: Fault): Option<Bytes> {
    if offset < 0 || fault.OpenFails? then file
    else if !Reaches(file, offset, fault) then Some(Opened(file, offset))
    else Some(Overlay(Padded(Opened(file, offset), offset), Granted(data, offset, fault), offset))
  }

  predicate OverwriteSucceeds(file: Option<Bytes>, data: Bytes, offset: Int64, fault: Fault) {
    Reaches(file, offset, fault) && WriteSucceeds(data, offset, fault)
  }

  function SetFile(files: Files, p: Path, content: Option<Bytes>): Files {
    if content.Some? then files[p := content.value] else files - {p}
  }

  /** Written successfully, the chunk is where it was to go, every other byte of the
      file is as before, and a gap before it is zero; a chunk at the end of the file
      is appended, and a chunk at offset 0 is the whole file. */
  lemma OverwritePlacesTheChunk(file: Option<Bytes>, data: Bytes, offset: Int64, fault: Fault)
    requires OverwriteSucceeds(file, data, offset, fault)
    ensures var after := Overwritten(file, data, offset, fault);
            && after.Some? && offset + |data| <= |after.value|
            && after.value[offset..offset + |data|] == data
            && (offset == 0 ==> after.value == data)
            && (offset > 0 ==>
                  && (forall i | 0 <= i < |Opened(file, offset)| && !(offset <= i < offset + |data|) ::
                        i < |after.value| && after.value[i] == Opened(file, offset)[i])
                  && (forall i | |Opened(file, offset)| <= i < offset :: after.value[i] == 0)
                  && (file.Some? && |file.value| == offset ==> after.value == file.value + data))
  {
    assert Granted(data, offset, fault) == data;
    hide Granted;
    OverlayFacts(Padded(Opened(file, offset), offset), data, offset);
    hide Overlay, Padded;
    if offset > 0 && file.Some? && |file.value| == offset {
      assert Padded(file.value, offset) == file.value;
    }
  }

  /** Which of these writes succeed: the call that fails, if any, is not needed, and
      no byte lies beyond the largest file. */
  lemma OverwriteSucceedsExactly(file: Option<Bytes>, data: Bytes, offset: Int64, fault: Fault)
    ensures OverwriteSucceeds(file, data, offset, fault) <==>
              && 0 <= offset
              && (data == [] || offset + |data| < TWO_63)
              && match fault
                 case NoFault => true
                 case OpenFails => false
                 case StatFails => offset == 0
                 case ExtendFails => offset == 0 || (file.Some? && offset <= |file.value|)
                 case WriteFails(_) => data == []
  {
  }

  /** Whatever fails, a chunk further on changes no byte before or behind it, none beyond
      what a failing write still wrote, and nothing at all if an earlier call fails. */
  lemma OverwriteKeepsTheRest(file: Option<Bytes>, data: Bytes, offset: Int64, fault: Fault)
    ensures offset < 0 || fault.OpenFails? ==> Overwritten(file, data, offset, fault) == file
    ensures offset > 0 && file.Some? ==>
              var after := Overwritten(file, data, offset, fault);
              var written := if fault.WriteFails? then Min(fault.written, |data|) else |data|;
              && after.Some? && |after.value| >= |file.value|
              && (forall i | 0 <= i < |file.value| && !(offset <= i < offset + written) :: after.value[i] == file.value[i])
              && (fault.StatFails? || (fault.ExtendFails? && offset > |file.value|) ==> after == file)
  {
    hide Padded, Overlay;
    if offset >= 0 {
      OverlayFacts(Padded(Opened(file, offset), offset), Granted(data, offset, fault), offset);
    }
  }

  lemma OverlayFacts(file: Bytes, data: Bytes, offset: nat)
    requires offset <= |file|
    ensures var after := Overlay(file, data, offset);
            && offset + |data| <= |after| && |file| <= |after| && after[offset..offset + |data|] == data
            && (forall i | 0 <= i < |file| && !(offset <= i < offset + |data|) :: i < |after| && after[i] == file[i])
            && (offset == |file| ==> after == file + data)
  {
    assert offset == |file| ==> file[..offset] == file && file + data + [] == file + data;
  }

  // ---------------------------------------------------------------- the agent

  class AgentDisk {
    var files: Files
    const digest: Digest
    ghost var changes: seq<Change>

    constructor (files: Files, digest: Digest)
      ensures this.files == files && this.digest == digest && changes == []
    {
      this.files := files;
      this.digest := digest;
      changes := [];
    }

    method Remove(p: Path)
      modifies this`files
      ensures files == old(files) - {p}
    {
      files := files - {p};
    }

    method Cleanup(k: Key)
      modifies this`files
      ensures files == old(files) - {Temp(k), Meta(k)}
    {
      Remove(Temp(k));
      Remove(Meta(k));
    }

    /** os.WriteFile: a failed call may leave anything under the name. */
    method WriteFile(p: Path, content: Bytes, fails: bool) returns (ok: bool)
      modifies this`files
      ensures ok == !fails
      ensures p in files && files == old(files)[p := files[p]]
      ensures ok ==> files[p] == content
    {
      if fails {
        var torn: Bytes := *;
        files := files[p := torn];
        return false;
      }
      files := files[p := content];
      return true;
    }

    /** File.WriteAt at the end of the file; no file grows past the int64 range. */
    method Append(p: Path, data: Bytes, fails: bool) returns (ok: bool)
      requires p in files
      modifies this`files
      ensures ok == (!fails && |old(files)[p]| + |data| < TWO_63)
      ensures p in files && files == old(files)[p := files[p]]
      ensures ok ==> files[p] == old(files)[p] + data
    {
      if fails || |files[p]| + |data| >= TWO_63 {
        var torn: Bytes := *;
        files := files[p := torn];
        return false;
      }
      files := files[p := files[p] + data];
      return true;
    }

    /** Creates or resumes the temporary file for a chunk. */
    method Prepare(c: Chunk, failing: set<OsCall>) returns (ok: bool)
      requires ValidId(c.id)
      modifies this`files
      ensures ok == (Expected(View(old(files), c.Owner()), c).Some? && PrepareSucceeds(c, failing))
      ensures files == if ok then Started(old(files), c) else Apply(old(files), c, Rejected)
      ensures ok ==> Temp(c.Owner()) in files && files[Temp(c.Owner())] == Expected(View(old(files), c.Owner()), c).value
    {
      var temp, meta := Temp(c.Owner()), Meta(c.Owner());
      if c.offset == 0 {
        ok := WriteFile(temp, [], CreateTemp in failing);
        if !ok {
          Cleanup(c.Owner());
          assert files == old(files) - {temp, meta};
          return;
        }
        ok := WriteFile(meta, FormatInt(c.total), CreateMeta in failing);
        if !ok {
          Cleanup(c.Owner());
          assert files == old(files) - {temp, meta};
        }
        return;
      }
      if ReadMeta in failing || meta !in files {
        Cleanup(c.Owner());
        return false;
      }
      var expectedTotal := ParseInt(files[meta]);
      if expectedTotal.None? || expectedTotal.value != c.total {
        Cleanup(c.Owner());
        return false;
      }
      if StatTemp in failing || temp !in files {
        Cleanup(c.Owner());
        return false;
      }
      if |files[temp]| != c.offset {
        Cleanup(c.Owner());
        return false;
      }
      return true;
    }

    /** Writes the chunk behind the bytes received so far and closes the file. */
    method FlushTemp(c: Chunk, failing: set<OsCall>) returns (ok: bool)
      requires Temp(c.Owner()) in files
      modifies this`files
      ensures ok == (FlushSucceeds(c, failing) && (c.data == [] || |old(files)[Temp(c.Owner())]| + |c.data| < TWO_63))
      ensures ok ==> files == old(files)[Temp(c.Owner()) := old(files)[Temp(c.Owner())] + c.data]
      ensures !ok ==> files == Apply(old(files), c, Rejected)
    {
      var k := c.Owner();
      if OpenTemp in failing {
        Cleanup(k);
        return false;
      }
      if c.data != [] {
        ok := Append(Temp(k), c.data, WriteTemp in failing);
        if !ok {
          Cleanup(k);
          return;
        }
      }
      if SyncTemp in failing {
        Cleanup(k);
        return false;
      }
      if CloseTemp in failing {
        Cleanup(k);
        return false;
      }
      assert c.data == [] ==> old(files)[Temp(k)] + c.data == old(files)[Temp(k)];
      return true;
    }

    /** Checks the digest of the temporary file and renames it over the destination. */
    method Finalize(c: Chunk, failing: set<OsCall>) returns (ok: bool)
      requires Temp(c.Owner()) in files
      modifies this
      ensures var whole := old(files)[Temp(c.Owner())];
              && ok == (!Blank(c.checksum) && SumTemp !in failing && RenameTemp !in failing && EqualFold(digest(whole), c.checksum))
              && files == Apply(old(files), c, if ok then Committed(whole) else Rejected)
              && changes == old(changes) + (if ok then [Commit(c.path, c.id, whole)] else [])
    {
      var k := c.Owner();
      if Blank(c.checksum) {
        Cleanup(k);
        return false;
      }
      if SumTemp in failing || !EqualFold(digest(files[Temp(k)]), c.checksum) {
        Cleanup(k);
        return false;
      }
      if RenameTemp in failing {
        Cleanup(k);
        return false;
      }
      var content := files[Temp(k)];
      files := (files - {Temp(k)})[c.path := content];
      changes := changes + [Commit(c.path, c.id, content)];
      Remove(Meta(k));
      return true;
    }

    /** Accepts exactly the chunks the protocol accepts, although it adds in
        wrapping int64, and leaves exactly the disk the protocol describes. */
    method WriteAtomicUploadChunk(c: Chunk, failing: set<OsCall>) returns (ok: bool)
      modifies this
      ensures var out := Decide(View(old(files), c.Owner()), digest, c, failing);
              && files == Apply(old(files), c, out)
              && ok == out.Accepted()
              && changes == old(changes) + ChangeOf(c, out)
      ensures Blank(c.id) || '/' in c.id || '\\' in c.id ==> !ok && files == old(files) && changes == old(changes)
    {
      hide View, WellShaped, EqualFold, FormatInt, PrepareSucceeds, FlushSucceeds, Decide, Expected, Apply, Started;
      if !ValidId(c.id) {
        InvalidIdDecision(files, View(files, c.Owner()), digest, c, failing);
      }
      if Blank(c.id) {
        return false;
      }
      if '/' in c.id || '\\' in c.id || exists i | 0 <= i < |c.id| - 1 :: c.id[i] == '.' && c.id[i + 1] == '.' {
        return false;
      }
      DecideByStages(View(files, c.Owner()), digest, c, failing);
      if !WellShaped(c) {
        Cleanup(c.Owner());
        assert files == Apply(old(files), c, Rejected) by { CleanupIsRejection(old(files), c); }
        return false;
      }
      ok := Prepare(c, failing);
      if !ok {
        return;
      }
      StartedApply(old(files), c, files[Temp(c.Owner())] + c.data);
      ok := FlushTemp(c, failing);
      if !ok || !c.final {
        return;
      }
      ok := Finalize(c, failing);
    }

    /** The original protocol: a chunk without a transfer ID goes straight into
        the destination, which is created or truncated by a chunk at offset 0. */
    method WriteFileChunk(path: Path, data: Slice, offset: Int64, fault: Fault) returns (ok: bool)
      modifies this
      ensures files == SetFile(old(files), path, Overwritten(Get(old(files), path), data, offset, fault))
      ensures ok == OverwriteSucceeds(Get(old(files), path), data, offset, fault)
      ensures changes == old(changes) + [Overwrite(path, data, offset, fault)]
    {
      changes := changes + [Overwrite(path, data, offset, fault)];
      if offset < 0 {
        return false;
      }
      if fault.OpenFails? {
        return false;
      }
      if offset == 0 || path !in files {
        files := files[path := []];
      }
      if offset > 0 {
        if fault.StatFails? {
          return false;
        }
        if offset > |files[path]| {
          if fault.ExtendFails? {
            return false;
          }
          files := files[path := Padded(files[path], offset)];
        }
      }
      files := files[path := Overlay(files[path], Granted(data, offset, fault), offset)];
      return WriteSucceeds(data, offset, fault);
    }

    method CancelAtomicUpload(path: Path, id: string) returns (ok: bool)
      modifies this`files
      ensures files == Discard(old(files), path, id)
      ensures ok == ValidId(id)
      ensures Blank(id) || '/' in id || '\\' in id ==> !ok && files == old(files)
      ensures Uuid(id) ==> ok && Temp(Key(path.dir, id)) !in files && Meta(Key(path.dir, id)) !in files
    {
      if Uuid(id) {
        UuidIsValid(id);
      }
      if Blank(id) {
        return false;
      }
      if '/' in id || '\\' in id || exists i | 0 <= i < |id| - 1 :: id[i] == '.' && id[i + 1] == '.' {
        return false;
      }
      Cleanup(Key(path.dir, id));
      return true;
    }
  }
}
