/** Whole runs of the agent's upload requests, from any senders: what the
    temporary files and the destinations hold after every request. */
module UploadHistory {
  import opened Common
  import opened Decimal
  import opened AtomicUpload

  /** A request on its way to a destination: a chunk of a transfer, the end of a
      transfer, or a chunk without one. */
  datatype Request =
    | Put(chunk: Chunk, failing: set<OsCall>)
    | Cancel(path: Path, id: string)
    | Direct(path: Path, data: Slice, offset: Int64, fault: Fault)
  {
    function Target(): Path {
      if Put? then chunk.path else path
    }

    function Owner(): Key {
      match this
      case Put(c, _) => c.Owner()
      case Cancel(path, id) => Key(path.dir, id)
      case Direct(path, _, _, _) => Key(path.dir, "")
    }
  }

  function OutcomeOf(files: Files, digest: Digest, r: Request): Outcome {
    match r
    case Put(c, failing) => Decide(View(files, c.Owner()), digest, c, failing)
    case Cancel(_, id) => if ValidId(id) then Rejected else NoTransfer
    case Direct(_, _, _, _) => NoTransfer
  }

  /** Whether the agent acknowledges a chunk. */
  predicate Acknowledged(files: Files, digest: Digest, r: Request) {
    if r.Direct? then OverwriteSucceeds(Get(files, r.path), r.data, r.offset, r.fault)
    else OutcomeOf(files, digest, r).Accepted()
  }

  function Serve(files: Files, digest: Digest, r: Request): Files {
    match r
    case Put(c, _) => Apply(files, c, OutcomeOf(files, digest, r))
    case Cancel(path, id) => Discard(files, path, id)
    case Direct(p, data, offset, fault) => SetFile(files, p, Overwritten(Get(files, p), data, offset, fault))
  }

  function ChangesOf(files: Files, digest: Digest, r: Request): seq<Change> {
    match r
    case Put(c, _) => ChangeOf(c, OutcomeOf(files, digest, r))
    case Cancel(_, _) => []
    case Direct(path, data, offset, fault) => [Overwrite(path, data, offset, fault)]
  }

  function Run(files: Files, digest: Digest, rs: seq<Request>): Files {
    if rs == [] then files else Serve(Run(files, digest, rs[..|rs| - 1]), digest, rs[|rs| - 1])
  }

  function RunChanges(files: Files, digest: Digest, rs: seq<Request>): seq<Change> {
    if rs == [] then []
    else
      var before := rs[..|rs| - 1];
      RunChanges(files, digest, before) + ChangesOf(Run(files, digest, before), digest, rs[|rs| - 1])
  }

  lemma SnocRun(files: Files, digest: Digest, rs: seq<Request>, r: Request)
    ensures Run(files, digest, rs + [r]) == Serve(Run(files, digest, rs), digest, r)
  {
    var s := rs + [r];
    assert s[..|s| - 1] == rs && s[|s| - 1] == r;
  }

  lemma {:induction false} RunAppend(files: Files, digest: Digest, a: seq<Request>, b: seq<Request>)
    ensures Run(files, digest, a + b) == Run(Run(files, digest, a), digest, b)
  {
    hide Serve;
    if b == [] {
      assert a + b == a;
    } else {
      var most, last := b[..|b| - 1], b[|b| - 1];
      assert a + b == (a + most) + [last] && b == most + [last];
      RunAppend(files, digest, a, most);
      SnocRun(files, digest, a + most, last);
      SnocRun(Run(files, digest, a), digest, most, last);
    }
  }

  lemma SnocChanges(files: Files, digest: Digest, rs: seq<Request>, r: Request)
    ensures RunChanges(files, digest, rs + [r]) == RunChanges(files, digest, rs) + ChangesOf(Run(files, digest, rs), digest, r)
  {
    var s := rs + [r];
    assert s[..|s| - 1] == rs && s[|s| - 1] == r;
  }

  lemma {:induction false} ChangesAppend(files: Files, digest: Digest, a: seq<Request>, b: seq<Request>)
    ensures RunChanges(files, digest, a + b) == RunChanges(files, digest, a) + RunChanges(Run(files, digest, a), digest, b)
  {
    if b == [] {
      assert a + b == a;
    } else {
      var most, last, mid := b[..|b| - 1], b[|b| - 1], Run(files, digest, a);
      assert a + b == (a + most) + [last] && b == most + [last];
      ChangesAppend(files, digest, a, most);
      RunAppend(files, digest, a, most);
      SnocChanges(files, digest, a + most, last);
      SnocChanges(mid, digest, most, last);
      hide RunChanges, Run, ChangesOf;
      Assoc(RunChanges(files, digest, a), RunChanges(mid, digest, most), ChangesOf(Run(mid, digest, most), digest, last));
    }
  }

  /** No request has a destination named like a temporary file. */
  ghost predicate Plain(rs: seq<Request>) {
    rs != [] ==> Plain(rs[..|rs| - 1]) && !Scratch(rs[|rs| - 1].Target())
  }

  lemma {:induction false} PlainAppend(a: seq<Request>, b: seq<Request>)
    requires Plain(a) && Plain(b)
    ensures Plain(a + b)
  {
    if b == [] {
      assert a + b == a;
    } else {
      assert (a + b)[..|a + b| - 1] == a + b[..|b| - 1];
      PlainAppend(a, b[..|b| - 1]);
    }
  }

  /** The disk keeps nothing of transfer k. */
  predicate Absent(files: Files, k: Key) {
    Temp(k) !in files && Meta(k) !in files
  }

  /** What a destination holds after some changes: the content of the last commit
      to it, with the chunks written straight into it since. */
  function Latest(changes: seq<Change>, p: Path, initial: Option<Bytes>): Option<Bytes> {
    if changes == [] then initial
    else
      var last, before := changes[|changes| - 1], changes[..|changes| - 1];
      if last.path != p then Latest(before, p, initial)
      else match last
        case Commit(_, _, content) => Some(content)
        case Overwrite(_, data, offset, fault) => Overwritten(Latest(before, p, initial), data, offset, fault)
  }

  // ------------------------------------------------------------------ frames

  lemma NamesApart(k: Key, l: Key)
    ensures Temp(k) != Meta(l)
    ensures k != l ==> Temp(k) != Temp(l) && Meta(k) != Meta(l)
  {
    var a, b := TempName(k.id), MetaName(l.id);
    assert a[|a| - 1] == 't' && b[|b| - 1] == 'a';
    if k.dir == l.dir && (TempName(k.id) == TempName(l.id) || MetaName(k.id) == MetaName(l.id)) {
      var x, y := TempName(k.id), TempName(l.id);
      assert MetaName(k.id)[..|x|] == x;
      if |x| == |y| {
        assert MetaName(l.id)[..|y|] == y;
        assert k.id == x[|PREFIX|..|PREFIX| + |k.id|];
        assert l.id == y[|PREFIX|..|PREFIX| + |l.id|];
      }
    }
  }

  lemma TempIsScratch(k: Key)
    ensures Scratch(Temp(k)) && Scratch(Meta(k))
  {
  }

  /** A request changes only its own two temporary files and what its changes say. */
  lemma OnlyOwnPaths(files: Files, digest: Digest, r: Request, p: Path)
    requires p != Temp(r.Owner()) && p != Meta(r.Owner())
    ensures Get(Serve(files, digest, r), p) == Latest(ChangesOf(files, digest, r), p, Get(files, p))
    ensures p != r.Target() ==> Get(Serve(files, digest, r), p) == Get(files, p)
  {
    hide Overwritten;
    var changes := ChangesOf(files, digest, r);
    if changes != [] {
      assert changes[..|changes| - 1] == [];
    }
  }

  /** A request leaves every other transfer exactly as it was. */
  lemma OthersUntouched(files: Files, digest: Digest, r: Request, k: Key)
    requires k != r.Owner() && !Scratch(r.Target())
    ensures View(Serve(files, digest, r), k) == View(files, k)
    ensures Absent(Serve(files, digest, r), k) == Absent(files, k)
  {
    NamesApart(k, r.Owner());
    NamesApart(r.Owner(), k);
    TempIsScratch(k);
    OnlyOwnPaths(files, digest, r, Temp(k));
    OnlyOwnPaths(files, digest, r, Meta(k));
    var after := Serve(files, digest, r);
    assert Get(after, Temp(k)) == Get(files, Temp(k)) && Get(after, Meta(k)) == Get(files, Meta(k));
  }

  /** What a transfer has on disk after one of its own requests. */
  lemma OwnSlot(files: Files, digest: Digest, r: Request)
    requires !Scratch(r.Target())
    ensures var out := OutcomeOf(files, digest, r); var after := Serve(files, digest, r); var k := r.Owner();
            && (out.NoTransfer? ==> View(after, k) == View(files, k) && Absent(after, k) == Absent(files, k))
            && (out.Rejected? || out.Committed? ==> Absent(after, k) && View(after, k) == Idle)
            && (out.Stored? ==> Temp(k) in after && Meta(k) in after && View(after, k) == Receiving(r.chunk.total, out.whole))
  {
    var k := r.Owner();
    NamesApart(k, k);
    TempIsScratch(k);
    if r.Put? && r.chunk.offset == 0 {
      FormatParse(r.chunk.total);
    }
  }

  // ------------------------------------------------- the temporary-file invariant

  /** Either nothing, or some but not all of the advertised bytes. */
  predicate SlotClean(files: Files, k: Key) {
    || Absent(files, k)
    || (Temp(k) in files && Meta(k) in files
        && match View(files, k)
           case Idle => false
           case Receiving(total, received) => 0 < |received| < total)
  }

  ghost predicate Clean(files: Files) {
    forall k: Key :: SlotClean(files, k)
  }

  /** Any request, honest or not, keeps every transfer's temporary files in order,
      and a refused one leaves none of its own. */
  lemma ServeKeepsClean(files: Files, digest: Digest, r: Request)
    requires Clean(files) && !Scratch(r.Target())
    ensures Clean(Serve(files, digest, r))
    ensures OutcomeOf(files, digest, r).Rejected? ==> Absent(Serve(files, digest, r), r.Owner())
  {
    OwnSlot(files, digest, r);
    var after := Serve(files, digest, r);
    forall k: Key ensures SlotClean(after, k) {
      assert SlotClean(files, k);
      if k != r.Owner() {
        NamesApart(k, r.Owner());
        NamesApart(r.Owner(), k);
        TempIsScratch(k);
        OnlyOwnPaths(files, digest, r, Temp(k));
        OnlyOwnPaths(files, digest, r, Meta(k));
        OthersUntouched(files, digest, r, k);
        assert Get(after, Temp(k)) == Get(files, Temp(k)) && Get(after, Meta(k)) == Get(files, Meta(k));
      }
    }
  }

  lemma {:induction false} RunKeepsClean(files: Files, digest: Digest, rs: seq<Request>)
    requires Clean(files) && Plain(rs)
    ensures Clean(Run(files, digest, rs))
  {
    if rs == [] {
    } else {
      RunKeepsClean(files, digest, rs[..|rs| - 1]);
      ServeKeepsClean(Run(files, digest, rs[..|rs| - 1]), digest, rs[|rs| - 1]);
    }
  }

  // -------------------------------------------------------------- transcripts

  function Concat(chunks: seq<Chunk>): Bytes {
    if chunks == [] then [] else Concat(chunks[..|chunks| - 1]) + chunks[|chunks| - 1].data
  }

  /** The chunks of transfer k accepted since the last one at offset 0, read off
      the log of requests and answers; empty once the transfer ended. */
  function Transcript(files: Files, digest: Digest, rs: seq<Request>, k: Key): seq<Chunk> {
    if rs == [] then []
    else
      var before, r := rs[..|rs| - 1], rs[|rs| - 1];
      var sofar := Transcript(files, digest, before, k);
      if r.Owner() != k then sofar
      else match OutcomeOf(Run(files, digest, before), digest, r)
        case NoTransfer => sofar
        case Rejected => []
        case Committed(_) => []
        case Stored(_) => if r.chunk.offset == 0 then [r.chunk] else sofar + [r.chunk]
  }

  /** Consecutive unfinished chunks of one transfer, each at the end of the ones before. */
  predicate Consecutive(t: seq<Chunk>, k: Key) {
    forall i | 0 <= i < |t| ::
      && t[i].Owner() == k
      && !t[i].final
      && t[i].data != []
      && t[i].total == t[0].total
      && t[i].offset == |Concat(t[..i])|
  }

  lemma ConsecutiveSnoc(t: seq<Chunk>, c: Chunk, k: Key)
    requires t == [] || Consecutive(t, k)
    requires c.Owner() == k && !c.final && c.data != [] && c.offset == |Concat(t)|
    requires t != [] ==> c.total == t[0].total
    ensures Consecutive(t + [c], k)
    ensures Concat(t + [c]) == Concat(t) + c.data
  {
    var u := t + [c];
    assert u[..|u| - 1] == t;
    forall i | 0 <= i < |u|
      ensures u[i].Owner() == k && !u[i].final && u[i].data != [] && u[i].total == u[0].total && u[i].offset == |Concat(u[..i])|
    {
      if i < |t| {
        assert u[..i] == t[..i];
      }
    }
  }

  /** The transcript t describes what transfer k has on disk. */
  predicate Describes(t: seq<Chunk>, files: Files, k: Key) {
    && Consecutive(t, k)
    && (t == [] ==> Absent(files, k))
    && (t != [] ==> View(files, k) == Receiving(t[0].total, Concat(t)) && 0 < |Concat(t)| < t[0].total)
  }

  /** The protocol stores a chunk only at the end of what it holds. */
  lemma StoredFollows(slot: Slot, digest: Digest, c: Chunk, failing: set<OsCall>)
    requires Decide(slot, digest, c, failing).Stored?
    ensures var w := Decide(slot, digest, c, failing).whole;
            && !c.final && c.data != [] && |w| < c.total
            && (c.offset == 0 ==> w == c.data)
            && (c.offset != 0 ==> slot.Receiving? && slot.total == c.total && |slot.received| == c.offset && w == slot.received + c.data)
  {
    assert [] + c.data == c.data;
  }

  lemma OwnStepDescribed(files: Files, digest: Digest, r: Request, t: seq<Chunk>)
    requires !Scratch(r.Target()) && Describes(t, files, r.Owner())
    ensures var after := Serve(files, digest, r);
            match OutcomeOf(files, digest, r)
            case NoTransfer => Describes(t, after, r.Owner())
            case Stored(_) => Describes(if r.chunk.offset == 0 then [r.chunk] else t + [r.chunk], after, r.Owner())
            case _ => Describes([], after, r.Owner())
  {
    hide Serve, Scratch, View, Concat;
    OwnSlot(files, digest, r);
    if r.Put? {
      var out := OutcomeOf(files, digest, r);
      if out.Stored? {
        StoredDescribed(files, Serve(files, digest, r), digest, r.chunk, r.failing, t);
      }
    }
  }

  lemma AbsentIsIdle(files: Files, k: Key)
    ensures Absent(files, k) ==> View(files, k) == Idle
  {
  }

  lemma NoChunks()
    ensures Concat([]) == []
  {
  }

  lemma StoredDescribed(files: Files, after: Files, digest: Digest, c: Chunk, failing: set<OsCall>, t: seq<Chunk>)
    requires Describes(t, files, c.Owner())
    requires Decide(View(files, c.Owner()), digest, c, failing).Stored?
    requires Temp(c.Owner()) in after
    requires View(after, c.Owner()) == Receiving(c.total, Decide(View(files, c.Owner()), digest, c, failing).whole)
    ensures Describes(if c.offset == 0 then [c] else t + [c], after, c.Owner())
  {
    hide Decide, Temp, Meta, View, Concat, Consecutive;
    NoChunks();
    AbsentIsIdle(files, c.Owner());
    StoredFollows(View(files, c.Owner()), digest, c, failing);
    ConsecutiveSnoc(if c.offset == 0 then [] else t, c, c.Owner());
    assert [] + [c] == [c] && [] + c.data == c.data;
  }

  /** In every run, a transfer's temporary file is exactly the concatenation of
      its transcript, and the metadata file names the total of those chunks. */
  lemma {:induction false} TempIsTranscript(files: Files, digest: Digest, rs: seq<Request>, k: Key)
    requires Absent(files, k) && Plain(rs)
    ensures Describes(Transcript(files, digest, rs, k), Run(files, digest, rs), k)
  {
    if rs == [] {
    } else {
      var before, r := rs[..|rs| - 1], rs[|rs| - 1];
      TempIsTranscript(files, digest, before, k);
      if r.Owner() != k {
        OthersUntouched(Run(files, digest, before), digest, r, k);
      } else {
        OwnStepDescribed(Run(files, digest, before), digest, r, Transcript(files, digest, before, k));
      }
    }
  }

  /** In every run, what a commit puts in place is the transcript of that one
      transfer followed by the committing chunk, with the advertised size and the
      stated digest. */
  lemma CommitIsTranscript(files: Files, digest: Digest, rs: seq<Request>, c: Chunk, failing: set<OsCall>)
    requires Absent(files, c.Owner()) && Plain(rs)
    requires OutcomeOf(Run(files, digest, rs), digest, Put(c, failing)).Committed?
    ensures var t := Transcript(files, digest, rs, c.Owner());
            var w := OutcomeOf(Run(files, digest, rs), digest, Put(c, failing)).whole;
            && w == (if c.offset == 0 then [] else Concat(t)) + c.data
            && (c.offset != 0 ==> t != [] && t[0].total == c.total)
            && |w| == c.total
            && EqualFold(digest(w), c.checksum)
            && (LowerHex(digest(w)) && LowerHex(c.checksum) ==> digest(w) == c.checksum)
  {
    TempIsTranscript(files, digest, rs, c.Owner());
    var sum := digest(OutcomeOf(Run(files, digest, rs), digest, Put(c, failing)).whole);
    if LowerHex(sum) && LowerHex(c.checksum) {
      HexFold(sum, c.checksum);
    }
  }

  // ------------------------------------------------------------- destinations

  lemma {:induction false} LatestAppend(a: seq<Change>, b: seq<Change>, p: Path, initial: Option<Bytes>)
    ensures Latest(a + b, p, initial) == Latest(b, p, Latest(a, p, initial))
  {
    if b == [] {
      assert a + b == a;
    } else {
      var s := a + b;
      assert s[..|s| - 1] == a + b[..|b| - 1];
      LatestAppend(a, b[..|b| - 1], p, initial);
    }
  }

  /** In every run, a destination holds what the last commit to it put there, with
      the chunks written straight into it since: nothing else ever changes it. */
  lemma {:induction false} DestinationFollowsChanges(files: Files, digest: Digest, rs: seq<Request>, p: Path)
    requires Plain(rs) && !Scratch(p)
    ensures Get(Run(files, digest, rs), p) == Latest(RunChanges(files, digest, rs), p, Get(files, p))
  {
    if rs == [] {
    } else {
      var before, r := rs[..|rs| - 1], rs[|rs| - 1];
      DestinationFollowsChanges(files, digest, before, p);
      TempIsScratch(r.Owner());
      OnlyOwnPaths(Run(files, digest, before), digest, r, p);
      LatestAppend(RunChanges(files, digest, before), ChangesOf(Run(files, digest, before), digest, r), p, Get(files, p));
    }
  }
}
