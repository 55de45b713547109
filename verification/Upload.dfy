/** The control center's upload loop, run against the agent over a connection
    that may lose a request or its reply, while other transfers proceed. */
module Upload {
  import opened Common
  import opened AtomicUpload
  import opened UploadHistory

  /** An acknowledgement may leave out the path and the committed flag. */
  datatype Reply = FileAck(path: Option<Path>, offset: Int64, final: bool, committed: Option<bool>) | Failure

  /** How one request fares: answered, never received, or received but its reply lost. */
  datatype Delivery = Delivered | RequestLost | ReplyLost

  datatype ReadEnd = More | Eof | Broken

  /** What the surroundings do during one turn of the loop: cancellation seen
      before the read and before the send, the outcome of the read, the requests
      of others served first, the failing calls on the agent, and the delivery. */
  datatype Turn = Turn(cancelled: bool, take: nat, readEnd: ReadEnd, cancelledLate: bool,
                       others: seq<Request>, failing: set<OsCall>, delivery: Delivery)

  /** An upload: what is read, the size advertised for it, where it goes and under
      which ID, and the turns the loop goes through. */
  datatype Job = Job(source: Slice, total: Int64, path: Path, id: string, turns: seq<Turn>)
  {
    function Owner(): Key {
      Key(path.dir, id)
    }
  }

  /** Past the listed turns nothing happens any more and the source is at its end. */
  function TurnAt(turns: seq<Turn>, i: nat): Turn {
    if i < |turns| then turns[i] else Turn(false, 0, Eof, false, [], {}, Delivered)
  }

  /** Others never use this transfer's ID in its directory, nor a scratch file as destination. */
  ghost predicate Foreign(rs: seq<Request>, k: Key) {
    rs != [] ==>
      && Foreign(rs[..|rs| - 1], k)
      && rs[|rs| - 1].Owner() != k && !Scratch(rs[|rs| - 1].Target())
  }

  /** The destination is a proper one, and whatever others send during a turn
      leaves the transfer alone. */
  ghost predicate WellPlaced(j: Job) {
    && 0 <= j.total && j.id != "" && !Scratch(j.path)
    && forall i | 0 <= i < |j.turns| :: Foreign(j.turns[i].others, j.Owner())
  }

  function OwnedBy(changes: seq<Change>, k: Key): seq<Change> {
    if changes == [] then []
    else
      var last := changes[|changes| - 1];
      OwnedBy(changes[..|changes| - 1], k) + (if last.Owner() == k then [last] else [])
  }

  lemma {:induction false} OwnedByAppend(a: seq<Change>, b: seq<Change>, k: Key)
    ensures OwnedBy(a + b, k) == OwnedBy(a, k) + OwnedBy(b, k)
  {
    if b == [] {
      assert a + b == a;
    } else {
      var s := a + b;
      assert s[..|s| - 1] == a + b[..|b| - 1];
      OwnedByAppend(a, b[..|b| - 1], k);
    }
  }

  /** The changes that the requests of a log made on behalf of one transfer. */
  function Mine(files: Files, digest: Digest, log: seq<Request>, k: Key): seq<Change> {
    OwnedBy(RunChanges(files, digest, log), k)
  }

  lemma {:induction false} ForeignRun(files: Files, digest: Digest, rs: seq<Request>, k: Key)
    requires Foreign(rs, k)
    ensures Plain(rs)
    ensures View(Run(files, digest, rs), k) == View(files, k)
    ensures Absent(Run(files, digest, rs), k) == Absent(files, k)
    ensures Mine(files, digest, rs, k) == []
  {
    if rs == [] {
    } else {
      var before, r := rs[..|rs| - 1], rs[|rs| - 1];
      ForeignRun(files, digest, before, k);
      OthersUntouched(Run(files, digest, before), digest, r, k);
      OthersChanges(Run(files, digest, before), digest, r, k);
      OwnedByAppend(RunChanges(files, digest, before), ChangesOf(Run(files, digest, before), digest, r), k);
      hide ChangesOf, OwnedBy, View, Absent, Serve;
    }
  }

  lemma OthersChanges(files: Files, digest: Digest, r: Request, k: Key)
    requires r.Owner() != k
    ensures OwnedBy(ChangesOf(files, digest, r), k) == []
  {
    var changes := ChangesOf(files, digest, r);
    if changes != [] {
      assert changes[..|changes| - 1] == [];
    }
  }

  lemma NothingServed(files: Files, digest: Digest, k: Key)
    ensures Run(files, digest, []) == files
    ensures RunChanges(files, digest, []) == [] && Mine(files, digest, [], k) == []
    ensures Plain([])
  {
  }

  lemma Extend(files: Files, digest: Digest, log: seq<Request>, more: seq<Request>, k: Key)
    ensures Run(files, digest, log + more) == Run(Run(files, digest, log), digest, more)
    ensures RunChanges(files, digest, log + more)
            == RunChanges(files, digest, log) + RunChanges(Run(files, digest, log), digest, more)
    ensures var first, second := Mine(files, digest, log, k), Mine(Run(files, digest, log), digest, more, k);
            && (first == [] ==> Mine(files, digest, log + more, k) == second)
            && (second == [] ==> Mine(files, digest, log + more, k) == first)
    ensures Plain(log) && Plain(more) ==> Plain(log + more)
  {
    hide Run, RunChanges, OwnedBy, Plain;
    if Plain(log) && Plain(more) {
      PlainAppend(log, more);
    }
    RunAppend(files, digest, log, more);
    ChangesAppend(files, digest, log, more);
    OwnedByAppend(RunChanges(files, digest, log), RunChanges(Run(files, digest, log), digest, more), k);
    assert forall s: seq<Change> :: [] + s == s && s + [] == s;
  }

  method ServeAll(agent: AgentDisk, rs: seq<Request>)
    modifies agent
    ensures agent.files == Run(old(agent.files), agent.digest, rs)
    ensures agent.changes == old(agent.changes) + RunChanges(old(agent.files), agent.digest, rs)
  {
    for i := 0 to |rs|
      invariant agent.files == Run(old(agent.files), agent.digest, rs[..i])
      invariant agent.changes == old(agent.changes) + RunChanges(old(agent.files), agent.digest, rs[..i])
    {
      assert rs[..i + 1][..i] == rs[..i];
      match rs[i]
      case Put(c, failing) =>
        var _ := agent.WriteAtomicUploadChunk(c, failing);
      case Cancel(path, id) =>
        var _ := agent.CancelAtomicUpload(path, id);
      case Direct(path, data, offset, fault) =>
        var _ := agent.WriteFileChunk(path, data, offset, fault);
    }
    assert rs[..|rs|] == rs;
  }

  /** What a send_file message asks for: a chunk of a transfer, or the original
      protocol's chunk when it names none. */
  function RequestOf(c: Chunk, failing: set<OsCall>, fault: Fault): Request {
    if c.id == "" then Direct(c.path, c.data, c.offset, fault) else Put(c, failing)
  }

  /** The agent's handler for a chunk: acknowledged exactly if it is accepted, with
      the committed flag only for transfers. */
  method HandleSendFile(agent: AgentDisk, c: Chunk, failing: set<OsCall>, fault: Fault) returns (reply: Reply)
    modifies agent
    ensures agent.files == Run(old(agent.files), agent.digest, [RequestOf(c, failing, fault)])
    ensures agent.changes
            == old(agent.changes) + RunChanges(old(agent.files), agent.digest, [RequestOf(c, failing, fault)])
    ensures reply == if Acknowledged(old(agent.files), agent.digest, RequestOf(c, failing, fault))
                     then FileAck(Some(c.path), c.offset, c.final, if c.id == "" then None else Some(c.final)) else Failure
    ensures c.id == "" ==> (reply.FileAck? <==> OverwriteSucceeds(Get(old(agent.files), c.path), c.data, c.offset, fault))
    ensures c.id != "" ==> (reply.FileAck? <==> Decide(View(old(agent.files), c.Owner()), agent.digest, c, failing).Accepted())
  {
    hide Overwritten, Decide, Apply;
    OneRequest(agent.files, agent.digest, RequestOf(c, failing, fault));
    var committed := false;
    if c.id == "" {
      var ok := agent.WriteFileChunk(c.path, c.data, c.offset, fault);
      if !ok {
        return Failure;
      }
      committed := c.final;
    } else {
      var ok := agent.WriteAtomicUploadChunk(c, failing);
      if !ok {
        return Failure;
      }
      committed := c.final;
    }
    return FileAck(Some(c.path), c.offset, c.final, if c.id == "" then None else Some(committed));
  }

  /** What the agent serves during one turn. */
  function Served(t: Turn, c: Chunk): seq<Request> {
    if t.cancelledLate then []
    else if t.delivery == RequestLost then t.others
    else t.others + [Put(c, t.failing)]
  }

  /** Whether a reply, from any agent, acknowledges this chunk: it repeats the offset,
      the final flag and the path, if it names one, and does not deny the commit. */
  method CheckAck(reply: Reply, c: Chunk) returns (ok: bool)
    ensures ok <==> exists path: Option<Path>, committed: Option<bool> ::
              && reply == FileAck(path, c.offset, c.final, committed)
              && path in {None, Some(c.path)}
              && (c.final ==> committed in {None, Some(true)})
  {
    if !reply.FileAck? {
      return false;
    }
    if reply.path.Some? && reply.path != Some(c.path) {
      return false;
    }
    if reply.offset != c.offset {
      return false;
    }
    if reply.final != c.final {
      return false;
    }
    if c.final && reply.committed.Some? && !reply.committed.value {
      return false;
    }
    assert reply == FileAck(reply.path, c.offset, c.final, reply.committed);
    return true;
  }

  /** Sends one chunk and checks the acknowledgement; true only if the agent accepted the chunk. */
  method SendUploadChunk(agent: AgentDisk, c: Chunk, t: Turn) returns (ok: bool)
    requires c.id != ""
    modifies agent
    ensures agent.files == Run(old(agent.files), agent.digest, Served(t, c))
    ensures agent.changes == old(agent.changes) + RunChanges(old(agent.files), agent.digest, Served(t, c))
    ensures ok == (!t.cancelledLate && t.delivery == Delivered
                   && OutcomeOf(Run(old(agent.files), agent.digest, t.others), agent.digest, Put(c, t.failing)).Accepted())
  {
    hide Run, RunChanges, OutcomeOf;
    if t.cancelledLate {
      NothingServed(agent.files, agent.digest, c.Owner());
      return false;
    }
    ServeAll(agent, t.others);
    if t.delivery == RequestLost {
      return false;
    }
    RunAppend(old(agent.files), agent.digest, t.others, [Put(c, t.failing)]);
    ChangesAppend(old(agent.files), agent.digest, t.others, [Put(c, t.failing)]);
    var reply := HandleSendFile(agent, c, t.failing, NoFault);
    if t.delivery == ReplyLost {
      return false;
    }
    ok := CheckAck(reply, c);
  }

  // ------------------------------------------------------- what a job comes down to

  /** The bytes a turn reads at an offset. */
  function Taken(t: Turn, source: Slice, offset: nat): nat
    requires offset <= |source|
  {
    Min(Min(t.take, CHUNK_LIMIT), |source| - offset)
  }

  /** The n bytes of the source after an offset. */
  function ReadAt(source: Slice, offset: nat, n: nat): Slice
    requires offset + n <= |source|
  {
    source[offset..offset + n]
  }

  /** How far the first k turns read. */
  function Offset(j: Job, k: nat): (offset: nat)
    ensures offset <= |j.source|
  {
    if k == 0 then 0
    else
      var before := Offset(j, k - 1);
      before + Taken(TurnAt(j.turns, k - 1), j.source, before)
  }

  /** The chunk built from the bytes between two offsets. */
  function ChunkOf(j: Job, digest: Digest, from: nat, to: nat): Chunk
    requires from <= to <= |j.source|
  {
    var final := to == j.total;
    Chunk(j.path, j.id, j.source[from..to], from, j.total, final, if final then digest(j.source[..to]) else "")
  }

  /** The chunk the loop sends in turn k, if it sends one. */
  function ChunkAt(j: Job, digest: Digest, k: nat): Chunk {
    ChunkOf(j, digest, Offset(j, k), Offset(j, k + 1))
  }

  /** Turn k reads something, or finds that an empty source has ended. */
  predicate Sends(j: Job, k: nat) {
    Offset(j, k) < Offset(j, k + 1) || (TurnAt(j.turns, k).readEnd == Eof && j.total == 0)
  }

  predicate Arrives(t: Turn) {
    !t.cancelledLate && t.delivery != RequestLost
  }

  /** What the agent's acceptance of the chunk of turn k depends on. */
  predicate Acceptable(j: Job, digest: Digest, k: nat) {
    && ValidId(j.id)
    && Offset(j, k + 1) <= j.total
    && CallsSucceed(ChunkAt(j, digest, k), TurnAt(j.turns, k).failing)
    && (Offset(j, k + 1) == j.total ==> !Blank(digest(j.source[..j.total])))
  }

  /** Turn k leaves the loop going on: nothing read, or an acknowledged chunk that
      is not the last. */
  predicate Passes(j: Job, digest: Digest, k: nat) {
    var t := TurnAt(j.turns, k);
    && !t.cancelled && t.readEnd == More
    && (Sends(j, k) ==>
          Arrives(t) && t.delivery == Delivered && Acceptable(j, digest, k) && Offset(j, k + 1) < j.total)
  }

  /** Turn k gets the last chunk to the agent, which accepts it. */
  predicate Completes(j: Job, digest: Digest, k: nat) {
    var t := TurnAt(j.turns, k);
    !t.cancelled && Sends(j, k) && Arrives(t) && Acceptable(j, digest, k) && Offset(j, k + 1) == j.total
  }

  /** The source and the turns bring the whole source to the agent, in turn k. */
  ghost predicate CommitsIn(j: Job, digest: Digest, k: nat) {
    (forall i: nat | i < k :: Passes(j, digest, i)) && Completes(j, digest, k)
  }

  lemma CommitsInOneTurn(j: Job, digest: Digest, k: nat, l: nat)
    requires CommitsIn(j, digest, k) && CommitsIn(j, digest, l)
    ensures k == l
  {
    hide Passes, Completes;
    PassingIsNotCompleting(j, digest, k);
    PassingIsNotCompleting(j, digest, l);
  }

  lemma PassingIsNotCompleting(j: Job, digest: Digest, k: nat)
    ensures !(Passes(j, digest, k) && Completes(j, digest, k))
  {
  }

  /** What an upload comes to: its changes are none or one replacement by the whole
      source; there is one exactly if the turns bring the whole source to the agent;
      and success is reported exactly if the reply to the last chunk arrived too. */
  ghost predicate Settled(j: Job, digest: Digest, ok: bool, mine: seq<Change>) {
    && (mine == [] || (0 <= j.total <= |j.source| && mine == [Commit(j.path, j.id, j.source[..j.total])]))
    && (mine != [] <==> exists k: nat :: CommitsIn(j, digest, k))
    && (ok <==> exists k: nat :: CommitsIn(j, digest, k) && TurnAt(j.turns, k).delivery == Delivered)
  }

  lemma SettledWithout(j: Job, digest: Digest, k: nat)
    requires forall i: nat | i < k :: Passes(j, digest, i)
    requires !Passes(j, digest, k) && !Completes(j, digest, k)
    ensures Settled(j, digest, false, [])
  {
    hide Passes, Completes;
    forall n: nat
      ensures !CommitsIn(j, digest, n)
    {
      if n < k {
        PassingIsNotCompleting(j, digest, n);
      }
    }
  }

  lemma SettledWith(j: Job, digest: Digest, k: nat)
    requires CommitsIn(j, digest, k) && 0 <= j.total <= |j.source|
    ensures Settled(j, digest, TurnAt(j.turns, k).delivery == Delivered, [Commit(j.path, j.id, j.source[..j.total])])
  {
    forall n: nat | CommitsIn(j, digest, n)
      ensures n == k
    {
      CommitsInOneTurn(j, digest, n, k);
    }
    hide Passes, Completes;
  }

  /** A reported success always means a replaced destination; the converse fails
      exactly when the reply to the last chunk is lost. */
  lemma FailureAfterCommit(j: Job, digest: Digest, ok: bool, mine: seq<Change>)
    requires Settled(j, digest, ok, mine)
    ensures ok ==> mine != []
    ensures !ok && mine != [] <==> exists k: nat :: CommitsIn(j, digest, k) && TurnAt(j.turns, k).delivery == ReplyLost
  {
    hide Passes, Completes;
    if k: nat :| CommitsIn(j, digest, k) {
      assert Arrives(TurnAt(j.turns, k)) by {
        LastArrives(j, digest, k);
      }
      forall n: nat | CommitsIn(j, digest, n)
        ensures n == k
      {
        CommitsInOneTurn(j, digest, n, k);
      }
    }
  }

  lemma LastArrives(j: Job, digest: Digest, k: nat)
    requires CommitsIn(j, digest, k)
    ensures Arrives(TurnAt(j.turns, k))
  {
  }

  // ------------------------------------------------------- what the agent serves

  /** What the agent serves in turn k: nothing if no chunk is on its way, else the
      requests of others and the chunk, unless it is lost. */
  function TurnLog(j: Job, digest: Digest, k: nat): seq<Request> {
    if TurnAt(j.turns, k).cancelled || !Sends(j, k) then []
    else Served(TurnAt(j.turns, k), ChunkAt(j, digest, k))
  }

  /** What it serves from turn k on, until a turn does not pass. */
  function LogFrom(j: Job, digest: Digest, k: nat): seq<Request>
    requires k <= |j.turns|
    decreases |j.turns| - k
  {
    TurnLog(j, digest, k) + (if k < |j.turns| && Passes(j, digest, k) then LogFrom(j, digest, k + 1) else [])
  }

  /** Some turn from k on tries to send a chunk. */
  predicate AttemptsFrom(j: Job, digest: Digest, k: nat)
    requires k <= |j.turns|
    decreases |j.turns| - k
  {
    || (!TurnAt(j.turns, k).cancelled && Sends(j, k))
    || (k < |j.turns| && Passes(j, digest, k) && AttemptsFrom(j, digest, k + 1))
  }

  /** What it serves until the cancel message was sent. */
  function CancelLog(path: Path, id: string, others: seq<Request>, delivery: Delivery): seq<Request> {
    others + (if delivery == RequestLost then [] else [Cancel(path, id)])
  }

  /** Everything the agent serves during an upload that reports ok. */
  function UploadLog(j: Job, digest: Digest, ok: bool, cancelOthers: seq<Request>, cancelDelivery: Delivery): seq<Request> {
    LogFrom(j, digest, 0)
    + (if !ok && AttemptsFrom(j, digest, 0) then CancelLog(j.path, j.id, cancelOthers, cancelDelivery) else [])
  }

  lemma PassingTurnIsListed(j: Job, digest: Digest, k: nat)
    ensures Passes(j, digest, k) ==> k < |j.turns|
  {
  }

  /** The log and the attempts after a turn, from those before it. */
  lemma LogAfterTurn(j: Job, digest: Digest, k: nat, log: seq<Request>, sent: bool)
    requires k <= |j.turns| && log + LogFrom(j, digest, k) == LogFrom(j, digest, 0)
    requires (sent || AttemptsFrom(j, digest, k)) == AttemptsFrom(j, digest, 0)
    ensures var more := log + TurnLog(j, digest, k);
            var tried := sent || (!TurnAt(j.turns, k).cancelled && Sends(j, k));
            if Passes(j, digest, k) then
              && k < |j.turns|
              && more + LogFrom(j, digest, k + 1) == LogFrom(j, digest, 0)
              && (tried || AttemptsFrom(j, digest, k + 1)) == AttemptsFrom(j, digest, 0)
            else
              more == LogFrom(j, digest, 0) && tried == AttemptsFrom(j, digest, 0)
  {
    hide TurnLog, Passes, Sends, TurnAt;
    PassingTurnIsListed(j, digest, k);
    if Passes(j, digest, k) {
      Assoc(log, TurnLog(j, digest, k), LogFrom(j, digest, k + 1));
    } else {
      assert TurnLog(j, digest, k) + [] == TurnLog(j, digest, k);
    }
  }

  // ------------------------------------------------------------ one chunk sent

  /** The agent holds exactly the bytes acknowledged so far, and not yet all of them. */
  predicate InStep(files: Files, j: Job, offset: nat) {
    && offset <= |j.source|
    && if offset == 0 then Absent(files, j.Owner())
       else offset < j.total && View(files, j.Owner()) == Receiving(j.total, j.source[..offset])
  }

  /** The protocol's answer to the chunk of a transfer that is in step. */
  lemma InStepDecision(files: Files, digest: Digest, j: Job, k: nat)
    requires InStep(files, j, Offset(j, k)) && Sends(j, k)
    ensures var c := ChunkAt(j, digest, k); var to := Offset(j, k + 1);
            Decide(View(files, j.Owner()), digest, c, TurnAt(j.turns, k).failing)
            == if !ValidId(j.id) then NoTransfer
               else if !Acceptable(j, digest, k) then Rejected
               else if to < j.total then Stored(j.source[..to])
               else Committed(j.source[..j.total])
    ensures Acceptable(j, digest, k) ==> ValidId(j.id) && Offset(j, k + 1) <= j.total
  {
    var from, to := Offset(j, k), Offset(j, k + 1);
    assert j.source[..from] + j.source[from..to] == j.source[..to];
    assert from == 0 ==> j.source[from..to] == j.source[..to];
    assert [] + j.source[from..to] == j.source[from..to];
  }

  /** What one served turn does for a transfer that is in step: it commits the
      whole source, or keeps in step, or leaves nothing; accepted in the first
      two cases only. */
  lemma TurnEffect(files: Files, digest: Digest, j: Job, k: nat)
    requires InStep(files, j, Offset(j, k)) && Sends(j, k)
    requires Foreign(TurnAt(j.turns, k).others, j.Owner()) && !Scratch(j.path)
    ensures var t, c := TurnAt(j.turns, k), ChunkAt(j, digest, k);
            var after := Run(files, digest, Served(t, c));
            var mine := Mine(files, digest, Served(t, c), j.Owner());
            && Plain(Served(t, c))
            && (OutcomeOf(Run(files, digest, t.others), digest, Put(c, t.failing)).Accepted() <==> Acceptable(j, digest, k))
            && (c.final <==> Offset(j, k + 1) == j.total)
            && (Acceptable(j, digest, k) ==> Offset(j, k + 1) <= j.total)
            && (if !Arrives(t) then mine == [] && InStep(after, j, Offset(j, k))
                else if !Acceptable(j, digest, k) then mine == [] && (ValidId(j.id) ==> Absent(after, j.Owner()))
                else if c.final then mine == [Commit(j.path, j.id, j.source[..j.total])] && Absent(after, j.Owner())
                else mine == [] && InStep(after, j, Offset(j, k + 1)))
  {
    hide Decide, View, Run, RunChanges, CallsSucceed, ValidId, Serve, Offset, Acceptable, Mine, Plain, Foreign, Scratch;
    var t, c := TurnAt(j.turns, k), ChunkAt(j, digest, k);
    var mid := Run(files, digest, t.others);
    ForeignRun(files, digest, t.others, j.Owner());
    InStepDecision(mid, digest, j, k);
    if t.cancelledLate {
      NothingServed(files, digest, j.Owner());
    } else if t.delivery != RequestLost {
      ServedLast(files, digest, t.others, Put(c, t.failing));
      OwnSlot(mid, digest, Put(c, t.failing));
    }
  }

  /** Requests of others followed by a chunk of the transfer's own. */
  lemma ServedLast(files: Files, digest: Digest, others: seq<Request>, put: Request)
    requires Foreign(others, put.Owner()) && put.Put?
    ensures !Scratch(put.Target()) ==> Plain(others + [put])
    ensures Run(files, digest, others + [put]) == Serve(Run(files, digest, others), digest, put)
    ensures var out := OutcomeOf(Run(files, digest, others), digest, put);
            Mine(files, digest, others + [put], put.Owner())
            == if out.Committed? then [Commit(put.chunk.path, put.chunk.id, out.whole)] else []
  {
    hide RunChanges, OutcomeOf, Serve, Scratch;
    ForeignRun(files, digest, others, put.Owner());
    var mid := Run(files, digest, others);
    OneRequest(mid, digest, put);
    Extend(files, digest, others, [put], put.Owner());
    var changes := ChangesOf(mid, digest, put);
    if changes != [] {
      assert changes[..|changes| - 1] == [];
    }
    assert (others + [put])[..|others|] == others;
  }

  lemma OneRequest(files: Files, digest: Digest, r: Request)
    ensures Run(files, digest, [r]) == Serve(files, digest, r)
    ensures RunChanges(files, digest, [r]) == ChangesOf(files, digest, r)
  {
    assert [r][..0] == [];
  }

  // ------------------------------------------------------------------ the loop

  /** The agent's disk when an upload begins. */
  datatype Base = Base(files: Files, changes: seq<Change>)

  /** How far the loop is: the turn, the bytes read and hashed, and whether a chunk was sent. */
  datatype Position = Position(k: nat, offset: nat, hashed: Bytes, sent: bool)

  /** The agent's disk is what the log's requests made of its former files. */
  ghost predicate Follows(agent: AgentDisk, base: Base, log: seq<Request>)
    reads agent
  {
    && Plain(log)
    && agent.files == Run(base.files, agent.digest, log)
    && agent.changes == base.changes + RunChanges(base.files, agent.digest, log)
  }

  /** The first k turns all passed, and both ends are in step after the log. */
  ghost predicate Underway(files: Files, digest: Digest, log: seq<Request>, j: Job, k: nat) {
    && Plain(log)
    && Mine(files, digest, log, j.Owner()) == []
    && InStep(Run(files, digest, log), j, Offset(j, k))
    && forall i: nat | i < k :: Passes(j, digest, i)
  }

  /** What the loop returns with. */
  ghost predicate Returned(agent: AgentDisk, base: Base, log: seq<Request>, j: Job, ok: bool, sent: bool)
    reads agent
  {
    && Follows(agent, base, log)
    && Settled(j, agent.digest, ok, Mine(base.files, agent.digest, log, j.Owner()))
    && log == LogFrom(j, agent.digest, 0) && sent == AttemptsFrom(j, agent.digest, 0)
    && (ok || !sent ==> Absent(agent.files, j.Owner()))
  }

  /** A turn that sends nothing. */
  lemma SilentTurn(files: Files, digest: Digest, log: seq<Request>, j: Job, k: nat)
    requires Underway(files, digest, log, j, k)
    ensures TurnAt(j.turns, k).cancelled ==> Settled(j, digest, false, [])
    ensures !TurnAt(j.turns, k).cancelled && !Sends(j, k) ==>
              if TurnAt(j.turns, k).readEnd == More then Underway(files, digest, log, j, k + 1)
              else Settled(j, digest, false, [])
  {
    hide Run, RunChanges, OwnedBy, InStep, Acceptable;
    if TurnAt(j.turns, k).cancelled || (!Sends(j, k) && TurnAt(j.turns, k).readEnd != More) {
      SettledWithout(j, digest, k);
    }
  }

  /** A turn that sends a chunk: it passes, or settles the upload. */
  lemma SendingTurn(files: Files, digest: Digest, log: seq<Request>, j: Job, k: nat)
    requires Underway(files, digest, log, j, k) && Sends(j, k) && !TurnAt(j.turns, k).cancelled
    requires Foreign(TurnAt(j.turns, k).others, j.Owner()) && !Scratch(j.path)
    ensures var t, c := TurnAt(j.turns, k), ChunkAt(j, digest, k);
            var before, more := Run(files, digest, log), log + Served(t, c);
            var mine := Mine(files, digest, more, j.Owner());
            var ok := !t.cancelledLate && t.delivery == Delivered
                      && OutcomeOf(Run(before, digest, t.others), digest, Put(c, t.failing)).Accepted();
            && Plain(more)
            && Run(files, digest, more) == Run(before, digest, Served(t, c))
            && RunChanges(files, digest, more) == RunChanges(files, digest, log) + RunChanges(before, digest, Served(t, c))
            && (ok ==> Offset(j, k + 1) <= j.total)
            && (Passes(j, digest, k) <==> ok && !c.final && t.readEnd == More)
            && (if !ok || c.final
                then Settled(j, digest, ok, mine) && (ok ==> Absent(Run(files, digest, more), j.Owner()))
                else if t.readEnd == More then Underway(files, digest, more, j, k + 1)
                else Settled(j, digest, false, mine))
  {
    hide Run, RunChanges, OutcomeOf, Served, Settled, Mine, InStep, ChunkAt, TurnAt, Plain, Foreign, Scratch, Absent;
    hide Acceptable, Offset, Sends;
    var t, c := TurnAt(j.turns, k), ChunkAt(j, digest, k);
    var before := Run(files, digest, log);
    TurnEffect(before, digest, j, k);
    Extend(files, digest, log, Served(t, c), j.Owner());
    if Completes(j, digest, k) {
      SettledWith(j, digest, k);
    } else if !Passes(j, digest, k) {
      SettledWithout(j, digest, k);
    }
  }

  /** What the loop comes round with: the turns before this one passed, and the
      bytes before its offset are hashed. */
  ghost predicate Looping(agent: AgentDisk, base: Base, log: seq<Request>, j: Job, at: Position)
    reads agent
  {
    && Follows(agent, base, log) && Underway(base.files, agent.digest, log, j, at.k)
    && at.k <= |j.turns|
    && log + LogFrom(j, agent.digest, at.k) == LogFrom(j, agent.digest, 0)
    && (at.sent || AttemptsFrom(j, agent.digest, at.k)) == AttemptsFrom(j, agent.digest, 0)
    && at.offset == Offset(j, at.k) && at.hashed == j.source[..at.offset]
    && (!at.sent ==> at.offset == 0)
  }

  lemma LoopStarts(agent: AgentDisk, j: Job)
    requires Absent(agent.files, j.Owner())
    ensures Looping(agent, Base(agent.files, agent.changes), [], j, Position(0, 0, [], false))
  {
    assert agent.changes + [] == agent.changes;
    assert [] + LogFrom(j, agent.digest, 0) == LogFrom(j, agent.digest, 0);
  }

  /** What a turn comes to if it sends nothing. */
  lemma ReadyForTurn(agent: AgentDisk, base: Base, log: seq<Request>, j: Job, at: Position)
    requires WellPlaced(j) && Looping(agent, base, log, j, at)
    ensures at.offset <= |j.source|
    ensures var t := TurnAt(j.turns, at.k); var n := Taken(t, j.source, at.offset);
            && at.offset + n <= |j.source|
            && (j.total == 0 ==> at.offset == 0)
            && (t.readEnd == More ==> at.k < |j.turns|)
            && (t.cancelled || (n == 0 && t.readEnd != More && !(t.readEnd == Eof && j.total == 0))
                ==> Returned(agent, base, log, j, false, at.sent))
            && (!t.cancelled && n == 0 && t.readEnd == More
                ==> Looping(agent, base, log, j, at.(k := at.k + 1)))
  {
    hide Run, RunChanges, OwnedBy, View, Plain, Settled, LogFrom, AttemptsFrom, Acceptable;
    SilentTurn(base.files, agent.digest, log, j, at.k);
    LogAfterTurn(j, agent.digest, at.k, log, at.sent);
    assert log + [] == log;
  }

  /** The chunk of turn k, from the bytes read and the bytes hashed. */
  lemma ChunkBuilt(j: Job, digest: Digest, k: nat, offset: nat, n: nat, hashed: Bytes, c: Chunk)
    requires offset == Offset(j, k) && n == Taken(TurnAt(j.turns, k), j.source, offset)
    requires hashed == j.source[..offset]
    requires c.data == ReadAt(j.source, offset, n)
    requires c == Chunk(j.path, j.id, c.data, offset, j.total, offset + n == j.total,
                        if offset + n == j.total then digest(hashed + c.data) else "")
    ensures c == ChunkAt(j, digest, k) && offset + n == Offset(j, k + 1)
    ensures hashed + c.data == j.source[..offset + n]
    ensures n > 0 || (TurnAt(j.turns, k).readEnd == Eof && j.total == 0) ==> Sends(j, k)
    ensures TurnAt(j.turns, k).readEnd == More ==> k < |j.turns|
  {
    assert j.source[..offset] + j.source[offset..offset + n] == j.source[..offset + n];
  }

  /** This is the chunk the loop builds at its position from the n bytes it reads. */
  predicate BuiltAt(j: Job, digest: Digest, at: Position, n: nat, c: Chunk) {
    && at.offset <= |j.source| && n == Taken(TurnAt(j.turns, at.k), j.source, at.offset)
    && (n > 0 || (TurnAt(j.turns, at.k).readEnd == Eof && j.total == 0))
    && c == Chunk(j.path, j.id, ReadAt(j.source, at.offset, n), at.offset, j.total, at.offset + n == j.total,
                  if at.offset + n == j.total then digest(at.hashed + c.data) else "")
  }

  lemma BeforeSending(agent: AgentDisk, base: Base, log: seq<Request>, j: Job, at: Position, n: nat, c: Chunk)
    requires WellPlaced(j) && Looping(agent, base, log, j, at) && BuiltAt(j, agent.digest, at, n, c)
    ensures c.id != "" && c == ChunkAt(j, agent.digest, at.k) && Sends(j, at.k)
    ensures c.final == (at.offset + n == j.total)
    ensures !Scratch(j.path) && Foreign(TurnAt(j.turns, at.k).others, j.Owner())
    ensures Underway(base.files, agent.digest, log, j, at.k) && agent.files == Run(base.files, agent.digest, log)
    ensures agent.changes == base.changes + RunChanges(base.files, agent.digest, log)
    ensures at.offset + n == Offset(j, at.k + 1) && at.hashed + c.data == j.source[..at.offset + n]
    ensures TurnAt(j.turns, at.k).readEnd == More ==> at.k < |j.turns|
    ensures log + LogFrom(j, agent.digest, at.k) == LogFrom(j, agent.digest, 0)
    ensures (at.sent || AttemptsFrom(j, agent.digest, at.k)) == AttemptsFrom(j, agent.digest, 0)
  {
    hide Run, RunChanges, Plain, Scratch, Mine, InStep, LogFrom, AttemptsFrom;
    ChunkBuilt(j, agent.digest, at.k, at.offset, n, at.hashed, c);
  }

  /** The chunk of a turn on its way, and what it comes to. */
  method SendInTurn(agent: AgentDisk, j: Job, t: Turn, c: Chunk, ghost n: nat, ghost at: Position, ghost base: Base,
                    ghost log: seq<Request>)
    returns (ok: bool, ghost more: seq<Request>)
    requires WellPlaced(j) && Looping(agent, base, log, j, at) && BuiltAt(j, agent.digest, at, n, c)
    requires t == TurnAt(j.turns, at.k) && !t.cancelled
    modifies agent
    ensures !ok || at.offset + n == j.total ==> Returned(agent, base, more, j, ok, true)
    ensures ok && at.offset + n != j.total ==>
              && j.total > 0
              && (t.readEnd != More ==> Returned(agent, base, more, j, false, true))
              && (t.readEnd == More ==>
                    Looping(agent, base, more, j, Position(at.k + 1, at.offset + n, at.hashed + c.data, true)))
  {
    hide Run, RunChanges, OutcomeOf, Served, Settled, Underway, Plain, Mine, Taken, Offset, ChunkAt, Sends, Foreign;
    hide WellPlaced, TurnAt, ReadAt, Absent, Scratch, BuiltAt, LogFrom, AttemptsFrom, Passes;
    BeforeSending(agent, base, log, j, at, n, c);
    LogAfterTurn(j, agent.digest, at.k, log, at.sent);
    SendingTurn(base.files, agent.digest, log, j, at.k);
    Assoc(base.changes, RunChanges(base.files, agent.digest, log), RunChanges(agent.files, agent.digest, Served(t, c)));
    ok := SendUploadChunk(agent, c, t);
    more := log + Served(t, c);
  }

  lemma BuiltFromRead(j: Job, digest: Digest, at: Position, n: nat)
    requires at.offset <= |j.source| && n == Taken(TurnAt(j.turns, at.k), j.source, at.offset) && n > 0
    requires at.offset + n <= |j.source|
    ensures var data := ReadAt(j.source, at.offset, n); var final := at.offset + n == j.total;
            BuiltAt(j, digest, at, n, Chunk(j.path, j.id, data, at.offset, j.total, final,
                                            if final then digest(at.hashed + data) else ""))
  {
  }

  lemma BuiltFromNothing(j: Job, digest: Digest, at: Position)
    requires at.offset == 0 && Taken(TurnAt(j.turns, at.k), j.source, 0) == 0
    requires TurnAt(j.turns, at.k).readEnd == Eof && j.total == 0
    ensures BuiltAt(j, digest, at, 0, Chunk(j.path, j.id, [], 0, 0, true, digest(at.hashed)))
  {
    assert at.hashed + [] == at.hashed;
  }

  method SendChunks(agent: AgentDisk, j: Job) returns (ok: bool, sent: bool, ghost log: seq<Request>)
    requires WellPlaced(j)
    requires Absent(agent.files, j.Owner())
    modifies agent
    ensures Returned(agent, Base(old(agent.files), old(agent.changes)), log, j, ok, sent)
  {
    hide *;
    ghost var base := Base(agent.files, agent.changes);
    LoopStarts(agent, j);
    var offset := 0;
    var hashed: Bytes := [];
    var k := 0;
    sent := false;
    log := [];
    while true
      invariant offset >= 0 && Looping(agent, base, log, j, Position(k, offset, hashed, sent))
      decreases |j.turns| - k
    {
      ghost var at := Position(k, offset, hashed, sent);
      var t := TurnAt(j.turns, k);
      ReadyForTurn(agent, base, log, j, at);
      if t.cancelled {
        return false, sent, log;
      }
      var n := Taken(t, j.source, offset);
      if n > 0 {
        BuiltFromRead(j, agent.digest, at, n);
        var data := ReadAt(j.source, offset, n);
        hashed := hashed + data;
        var final := offset + n == j.total;
        var c := Chunk(j.path, j.id, data, offset, j.total, final, if final then agent.digest(hashed) else "");
        sent := true;
        var accepted;
        accepted, log := SendInTurn(agent, j, t, c, n, at, base, log);
        if !accepted {
          return false, sent, log;
        }
        offset := offset + n;
        if final {
          return true, sent, log;
        }
      }
      if t.readEnd != More {
        if t.readEnd == Eof {
          if j.total == 0 {
            BuiltFromNothing(j, agent.digest, at);
            var c := Chunk(j.path, j.id, [], 0, 0, true, agent.digest(hashed));
            sent := true;
            ok, log := SendInTurn(agent, j, t, c, n, at, base, log);
            return;
          }
          return false, sent, log;
        }
        return false, sent, log;
      }
      k := k + 1;
    }
  }

  lemma CancelServed(files: Files, digest: Digest, path: Path, id: string)
    ensures Run(files, digest, [Cancel(path, id)]) == Discard(files, path, id)
    ensures RunChanges(files, digest, [Cancel(path, id)]) == []
    ensures Mine(files, digest, [Cancel(path, id)], Key(path.dir, id)) == []
    ensures !Scratch(path) ==> Plain([Cancel(path, id)])
  {
    OneRequest(files, digest, Cancel(path, id));
  }

  /** The cancel message sent after a failed upload; its reply is ignored. */
  method SendCancel(agent: AgentDisk, path: Path, id: string, others: seq<Request>, delivery: Delivery)
    requires Foreign(others, Key(path.dir, id)) && !Scratch(path)
    modifies agent
    ensures Follows(agent, Base(old(agent.files), old(agent.changes)), CancelLog(path, id, others, delivery))
    ensures Mine(old(agent.files), agent.digest, CancelLog(path, id, others, delivery), Key(path.dir, id)) == []
    ensures var before := Run(old(agent.files), agent.digest, others);
            agent.files == if delivery == RequestLost then before else Discard(before, path, id)
    ensures Absent(old(agent.files), Key(path.dir, id)) || (ValidId(id) && delivery != RequestLost)
            ==> Absent(agent.files, Key(path.dir, id))
  {
    hide Run, RunChanges, Mine, Foreign, Scratch, Plain;
    ghost var k := Key(path.dir, id);
    ForeignRun(agent.files, agent.digest, others, k);
    ServeAll(agent, others);
    assert others + [] == others;
    if delivery != RequestLost {
      ghost var mid := agent.files;
      var _ := agent.CancelAtomicUpload(path, id);
      CancelServed(mid, agent.digest, path, id);
      Extend(old(agent.files), agent.digest, others, [Cancel(path, id)], k);
      Assoc(old(agent.changes), RunChanges(old(agent.files), agent.digest, others), []);
    }
  }

  // -------------------------------------------------------------- the destination

  /** Requests of others that have another destination than p. */
  predicate Elsewhere(rs: seq<Request>, p: Path) {
    forall r | r in rs :: r.Target() != p
  }

  /** Nobody else writes to the destination while the upload goes on. */
  predicate Alone(j: Job, cancelOthers: seq<Request>) {
    && Elsewhere(cancelOthers, j.path)
    && forall i | 0 <= i < |j.turns| :: Elsewhere(j.turns[i].others, j.path)
  }

  /** Requests of this transfer, or with another destination. */
  predicate MineOrElsewhere(rs: seq<Request>, j: Job) {
    forall r | r in rs :: r.Owner() == j.Owner() || r.Target() != j.path
  }

  lemma TurnLogIsMine(j: Job, digest: Digest, k: nat, cancelOthers: seq<Request>)
    requires Alone(j, cancelOthers)
    ensures MineOrElsewhere(TurnLog(j, digest, k), j)
  {
    hide Sends;
    var t := TurnAt(j.turns, k);
    assert Elsewhere(t.others, j.path);
    assert ChunkAt(j, digest, k).Owner() == j.Owner();
  }

  lemma {:induction false} LogIsMine(j: Job, digest: Digest, k: nat, cancelOthers: seq<Request>)
    requires Alone(j, cancelOthers) && k <= |j.turns|
    ensures MineOrElsewhere(LogFrom(j, digest, k), j)
    decreases |j.turns| - k
  {
    hide TurnLog, Passes, Alone;
    TurnLogIsMine(j, digest, k, cancelOthers);
    if k == |j.turns| || !Passes(j, digest, k) {
    } else {
      LogIsMine(j, digest, k + 1, cancelOthers);
    }
  }

  lemma UploadLogIsMine(j: Job, digest: Digest, ok: bool, cancelOthers: seq<Request>, cancelDelivery: Delivery)
    requires Alone(j, cancelOthers)
    ensures MineOrElsewhere(UploadLog(j, digest, ok, cancelOthers, cancelDelivery), j)
  {
    LogIsMine(j, digest, 0, cancelOthers);
    hide LogFrom, AttemptsFrom;
    assert Cancel(j.path, j.id).Owner() == j.Owner();
  }

  /** What a request changes at p counts for a transfer exactly if it is its own. */
  lemma OneCounts(files: Files, digest: Digest, r: Request, j: Job, initial: Option<Bytes>)
    requires r.Owner() == j.Owner() || r.Target() != j.path
    ensures Latest(ChangesOf(files, digest, r), j.path, initial)
            == Latest(OwnedBy(ChangesOf(files, digest, r), j.Owner()), j.path, initial)
  {
    hide Overwritten, OutcomeOf;
    var changes := ChangesOf(files, digest, r);
    if changes != [] {
      assert changes[..|changes| - 1] == [];
      assert r.Owner() == j.Owner() ==> OwnedBy(changes, j.Owner()) == changes;
    }
  }

  /** If nobody else writes to the destination, only the transfer's own changes count there. */
  lemma {:induction false} OnlyMineCount(files: Files, digest: Digest, rs: seq<Request>, j: Job, initial: Option<Bytes>)
    requires MineOrElsewhere(rs, j)
    ensures Latest(RunChanges(files, digest, rs), j.path, initial)
            == Latest(Mine(files, digest, rs, j.Owner()), j.path, initial)
  {
    hide Latest, ChangesOf, OwnedBy;
    if rs == [] {
      NothingServed(files, digest, j.Owner());
    } else {
      var before, last := rs[..|rs| - 1], rs[|rs| - 1];
      OnlyMineCount(files, digest, before, j, initial);
      var changes, more := RunChanges(files, digest, before), ChangesOf(Run(files, digest, before), digest, last);
      LatestAppend(changes, more, j.path, initial);
      OwnedByAppend(changes, more, j.Owner());
      LatestAppend(OwnedBy(changes, j.Owner()), OwnedBy(more, j.Owner()), j.path, initial);
      assert last in rs;
      OneCounts(Run(files, digest, before), digest, last, j, Latest(changes, j.path, initial));
    }
  }

  lemma {:induction false} ForeignOwners(rs: seq<Request>, k: Key, r: Request)
    requires Foreign(rs, k) && r in rs
    ensures r.Owner() != k
  {
    if r != rs[|rs| - 1] {
      assert r in rs[..|rs| - 1];
      ForeignOwners(rs[..|rs| - 1], k, r);
    }
  }

  lemma TurnsDoNotCancel(j: Job, digest: Digest, k: nat)
    requires WellPlaced(j)
    ensures Cancel(j.path, j.id) !in TurnLog(j, digest, k)
  {
    hide Sends;
    var t := TurnAt(j.turns, k);
    if Cancel(j.path, j.id) in t.others {
      ForeignOwners(t.others, j.Owner(), Cancel(j.path, j.id));
    }
  }

  lemma {:induction false} LoopDoesNotCancel(j: Job, digest: Digest, k: nat)
    requires WellPlaced(j) && k <= |j.turns|
    ensures Cancel(j.path, j.id) !in LogFrom(j, digest, k)
    decreases |j.turns| - k
  {
    hide TurnLog, Passes, WellPlaced;
    TurnsDoNotCancel(j, digest, k);
    if k == |j.turns| || !Passes(j, digest, k) {
    } else {
      LoopDoesNotCancel(j, digest, k + 1);
    }
  }

  /** A cancel message reaches the agent exactly after a failed upload that had tried to
      send something, unless the message is lost; never after a success. */
  lemma CancelsAfterFailureOnly(j: Job, digest: Digest, ok: bool, cancelOthers: seq<Request>, cancelDelivery: Delivery)
    requires WellPlaced(j) && Foreign(cancelOthers, j.Owner())
    ensures Cancel(j.path, j.id) in UploadLog(j, digest, ok, cancelOthers, cancelDelivery)
            <==> !ok && AttemptsFrom(j, digest, 0) && cancelDelivery != RequestLost
  {
    hide LogFrom, AttemptsFrom, WellPlaced;
    LoopDoesNotCancel(j, digest, 0);
    if Cancel(j.path, j.id) in cancelOthers {
      ForeignOwners(cancelOthers, j.Owner(), Cancel(j.path, j.id));
    }
  }

  /** What an upload makes of a destination that nobody else writes to: the whole
      source exactly if the turns bring it to the agent, else what it was. */
  ghost predicate Replaces(j: Job, digest: Digest, before: Option<Bytes>, after: Option<Bytes>) {
    if exists k: nat :: CommitsIn(j, digest, k)
    then 0 <= j.total <= |j.source| && after == Some(j.source[..j.total])
    else after == before
  }

  lemma SettledDestination(j: Job, digest: Digest, ok: bool, mine: seq<Change>, before: Option<Bytes>)
    requires Settled(j, digest, ok, mine)
    ensures Replaces(j, digest, before, Latest(mine, j.path, before))
  {
    hide CommitsIn;
    if mine != [] {
      assert mine[..|mine| - 1] == [];
    }
  }

  /** A whole upload, with the deferred cancel message after a failure.

      In every run, whatever is lost, cancelled or served in between: the agent
      serves exactly the requests of others and the transfer's own messages, as the
      turns say; the transfer replaces its destination at most once and only by its
      whole source, exactly if the turns bring that to the agent; success is
      reported exactly if the last reply arrives as well; every destination holds
      what those requests make of it, so one that nobody else writes to holds the
      source after a commit and its old content otherwise; and unless the cancel
      message itself is lost, no temporary file stays behind. */
  method Upload(agent: AgentDisk, j: Job, cancelOthers: seq<Request>, cancelDelivery: Delivery)
    returns (ok: bool)
    requires WellPlaced(j) && Foreign(cancelOthers, j.Owner())
    requires Absent(agent.files, j.Owner())
    modifies agent
    ensures var log := UploadLog(j, agent.digest, ok, cancelOthers, cancelDelivery);
            && Follows(agent, Base(old(agent.files), old(agent.changes)), log)
            && Settled(j, agent.digest, ok, Mine(old(agent.files), agent.digest, log, j.Owner()))
            && (forall p: Path :: !Scratch(p) ==>
                  Get(agent.files, p)
                  == Latest(RunChanges(old(agent.files), agent.digest, log), p, Get(old(agent.files), p)))
    ensures Alone(j, cancelOthers) ==>
              Replaces(j, agent.digest, Get(old(agent.files), j.path), Get(agent.files, j.path))
    ensures ValidId(j.id) && (ok || cancelDelivery != RequestLost) ==> Absent(agent.files, j.Owner())
  {
    hide Run, RunChanges, OwnedBy, View, Decide, ValidId, Latest, Settled, LogFrom, AttemptsFrom, CancelLog;
    hide Mine, Alone, Replaces, MineOrElsewhere;
    var sent;
    ghost var log;
    ok, sent, log := SendChunks(agent, j);
    assert log + [] == log;
    if !ok && sent {
      SendCancel(agent, j.path, j.id, cancelOthers, cancelDelivery);
      ghost var more := CancelLog(j.path, j.id, cancelOthers, cancelDelivery);
      Extend(old(agent.files), agent.digest, log, more, j.Owner());
      Assoc(old(agent.changes), RunChanges(old(agent.files), agent.digest, log),
            RunChanges(Run(old(agent.files), agent.digest, log), agent.digest, more));
      log := log + more;
    }
    forall p: Path | !Scratch(p)
      ensures Get(agent.files, p) == Latest(RunChanges(old(agent.files), agent.digest, log), p, Get(old(agent.files), p))
    {
      DestinationFollowsChanges(old(agent.files), agent.digest, log, p);
    }
    if Alone(j, cancelOthers) {
      ghost var before := Get(old(agent.files), j.path);
      UploadLogIsMine(j, agent.digest, ok, cancelOthers, cancelDelivery);
      OnlyMineCount(old(agent.files), agent.digest, log, j, before);
      SettledDestination(j, agent.digest, ok, Mine(old(agent.files), agent.digest, log, j.Owner()), before);
    }
  }

  // ------------------------------------------------------------- favourable runs

  predicate Calm(t: Turn) {
    !t.cancelled && !t.cancelledLate && t.readEnd == More && t.take > 0 && t.failing == {} && t.delivery == Delivered
  }

  /** Nothing goes wrong, and there are turns enough to read the whole source. */
  ghost predicate Undisturbed(j: Job, digest: Digest) {
    && |j.source| == j.total <= |j.turns|
    && !Blank(digest(j.source))
    && forall i | 0 <= i < |j.turns| :: Calm(j.turns[i])
  }

  ghost predicate Favourable(j: Job, digest: Digest) {
    ValidId(j.id) && Undisturbed(j, digest)
  }

  /** Every turn reads on until the source is read. */
  lemma {:induction false} CalmReads(j: Job, digest: Digest, k: nat)
    requires Favourable(j, digest) && k <= |j.turns|
    ensures Offset(j, k) >= Min(k, |j.source|)
  {
    if k == 0 {
    } else {
      CalmReads(j, digest, k - 1);
    }
  }

  /** Reads that yield all that is asked for take 64 KiB each: a source of n bytes is
      read in ceil(n / 65536) turns. */
  lemma {:induction false} FullReads(j: Job, k: nat)
    requires forall i: nat | i < k :: TurnAt(j.turns, i).take >= 65536
    ensures Offset(j, k) == Min(k * 65536, |j.source|)
  {
    if k == 0 {
    } else {
      FullReads(j, k - 1);
    }
  }

  /** The turn in which a favourable upload ends: the one that reads the last byte. */
  lemma {:induction false} LastTurn(j: Job, digest: Digest, k: nat) returns (last: nat)
    requires Favourable(j, digest) && j.total > 0
    requires k < |j.turns| && Offset(j, k + 1) == j.total
    ensures last <= k && Offset(j, last) < j.total == Offset(j, last + 1)
    ensures forall i: nat | i <= last :: Offset(j, i) < j.total
  {
    if Offset(j, k) < j.total {
      last := k;
      OffsetsGrow(j, k);
    } else {
      last := LastTurn(j, digest, k - 1);
    }
  }

  lemma {:induction false} OffsetsGrow(j: Job, k: nat)
    ensures forall i: nat | i <= k :: Offset(j, i) <= Offset(j, k)
  {
    if k == 0 {
    } else {
      OffsetsGrow(j, k - 1);
    }
  }

  /** A calm turn before the last byte is read passes; the one that reads it completes. */
  lemma CalmTurn(j: Job, digest: Digest, k: nat)
    requires Favourable(j, digest) && k < |j.turns|
    ensures Offset(j, k + 1) < j.total || j.total == 0 ==> Passes(j, digest, k)
    ensures Offset(j, k) < j.total == Offset(j, k + 1) ==> Completes(j, digest, k)
  {
    assert Calm(j.turns[k]);
    assert j.source[..j.total] == j.source;
    hide Offset, Blank, ValidId;
    assert Offset(j, k) <= |j.source| && Offset(j, k + 1) <= |j.source|;
  }

  lemma EmptyEnd(j: Job, digest: Digest)
    requires Favourable(j, digest) && j.total == 0
    ensures Completes(j, digest, |j.turns|)
  {
    assert j.source[..j.total] == j.source;
    hide Blank, ValidId;
  }

  /** Without interference an upload succeeds, and a destination that nobody else
      writes to becomes the source. */
  lemma FavourableSucceeds(j: Job, digest: Digest, ok: bool, mine: seq<Change>, before: Option<Bytes>, after: Option<Bytes>)
    requires Favourable(j, digest) && Settled(j, digest, ok, mine)
    ensures ok && mine == [Commit(j.path, j.id, j.source)]
    ensures Replaces(j, digest, before, after) ==> after == Some(j.source)
  {
    hide Settled, Passes, Completes;
    assert j.source[..j.total] == j.source;
    var last: nat := |j.turns|;
    if j.total == 0 {
      EmptyEnd(j, digest);
    } else {
      CalmReads(j, digest, |j.turns|);
      last := LastTurn(j, digest, |j.turns| - 1);
      CalmTurn(j, digest, last);
    }
    forall i: nat | i < last
      ensures Passes(j, digest, i)
    {
      CalmTurn(j, digest, i);
      assert j.total > 0 ==> Offset(j, i + 1) < j.total;
    }
    assert CommitsIn(j, digest, last);
    if last < |j.turns| {
      assert Calm(j.turns[last]);
    }
    SettledMeans(j, digest, ok, mine, last);
  }

  lemma SettledMeans(j: Job, digest: Digest, ok: bool, mine: seq<Change>, k: nat)
    requires Settled(j, digest, ok, mine) && CommitsIn(j, digest, k) && TurnAt(j.turns, k).delivery == Delivered
    ensures ok && mine != []
    ensures 0 <= j.total <= |j.source| && mine == [Commit(j.path, j.id, j.source[..j.total])]
  {
    hide CommitsIn;
  }

  /** An undisturbed upload under a UUID to a destination of its own, end to end. */
  method UploadAlone(agent: AgentDisk, j: Job) returns (ok: bool)
    requires WellPlaced(j) && Absent(agent.files, j.Owner()) && Undisturbed(j, agent.digest) && Alone(j, [])
    requires Uuid(j.id)
    modifies agent
    ensures ok && Get(agent.files, j.path) == Some(j.source) && Absent(agent.files, j.Owner())
  {
    hide Settled, Follows, UploadLog, Replaces, Alone, WellPlaced, Latest;
    UuidIsValid(j.id);
    ok := Upload(agent, j, [], Delivered);
    ghost var mine := Mine(old(agent.files), agent.digest, UploadLog(j, agent.digest, ok, [], Delivered), j.Owner());
    FavourableSucceeds(j, agent.digest, ok, mine, Get(old(agent.files), j.path), Get(agent.files, j.path));
  }
}
