/** One connection on the agent: its read pump, write pump and reply queue. */
module AgentLink {
  import opened Common

  const QUEUE_SIZE: nat := 64
  const MAX_AUTH_ATTEMPTS: nat := 5

  datatype Kind = AuthRequired | AgentInfo | AuthOk | ErrorReply | Result | SystemUpdate

  datatype Msg = Msg(kind: Kind, id: Option<MsgId>)

  datatype Body = AuthRight | AuthWrong | AuthMalformed | KeepAlive | Operation | UnknownType

  datatype Request = Request(id: MsgId, body: Body)

  /** How the handler of an operation ends: a result, or an error reply. */
  datatype Answer = Succeeds | Fails

  /** The write pump is started once the greeting is sent, together with the read
      pump, and returns after a failed write or when it sees the closed done channel. */
  datatype Pump = NotStarted | Running | Stopped

  datatype Link = Link(
    tokenMode: bool,           // the agent is configured with a token
    pump: Pump,
    authed: bool,
    attempts: nat,
    done: bool,                // the done channel is closed
    dead: bool,                // the socket is closed
    queue: seq<Msg>,           // the send channel
    flight: Option<Msg>,       // taken by the write pump, not yet written
    written: seq<Msg>,         // on the wire, in order
    busy: Option<Request>,     // read, its handler not yet returned
    begun: bool,               // ... and its handler has decided what to send
    pending: seq<Msg>,         // what the running handler, or the greeting, still has to send
    owed: seq<Msg>,            // the replies that the requests handled so far are owed, in order
    logins: nat,               // correct tokens seen
    operations: nat)           // operation handlers run

  function Open(tokenMode: bool): Link {
    Link(tokenMode, NotStarted, !tokenMode, 0, false, false, [], None, [], None, false,
         [Greeting(tokenMode)], [], 0, 0)
  }

  function Greeting(tokenMode: bool): Msg {
    Msg(if tokenMode then AuthRequired else AgentInfo, None)
  }

  datatype Step =
    | Send(taken: bool)        // the next pending message; taken: the select's pick once done
    | StartPumps
    | Receive(req: Request)
    | Begin(answer: Answer)
    | Return
    | Take
    | WriteOk
    | WriteFails
    | Push(taken: bool)
    | StopPump
    | Close
    | Kill

  // ------------------------------------------------------ queue and handler steps

  /** sendMsg: queue, or give up because the connection is done, or close it when full. */
  function Queued(l: Link, m: Msg, taken: bool): Link {
    if l.done && (!taken || |l.queue| >= QUEUE_SIZE) then l
    else if |l.queue| < QUEUE_SIZE then l.(queue := l.queue + [m])
    else l.(done := true, dead := true)
  }

  predicate QueuesUpdate(l: Link, taken: bool) {
    (l.done ==> taken) && |l.queue| < QUEUE_SIZE
  }

  /** pushSystemUpdate: queue, or skip. */
  function Pushed(l: Link, taken: bool): Link {
    if QueuesUpdate(l, taken) then l.(queue := l.queue + [Msg(SystemUpdate, None)]) else l
  }

  predicate NeedsReply(req: Request) {
    !req.body.KeepAlive?
  }

  predicate LogsIn(l: Link, req: Request) {
    req.body.AuthRight? || (req.body.AuthWrong? && !l.tokenMode)
  }

  predicate Denied(l: Link, req: Request) {
    req.body.AuthWrong? && l.tokenMode
  }

  predicate Operates(l: Link, req: Request) {
    req.body.Operation? && l.authed
  }

  /** The one message of a handler that carries its request's ID. */
  function Reply(l: Link, req: Request, answer: Answer): Msg {
    Msg(if LogsIn(l, req) then AuthOk
        else if Operates(l, req) && answer.Succeeds? then Result
        else ErrorReply,
        Some(req.id))
  }

  /** What the handler of a request will send, in order. */
  function Replies(l: Link, req: Request, answer: Answer): seq<Msg> {
    if !NeedsReply(req) then []
    else if LogsIn(l, req) then [Reply(l, req, answer), Msg(AgentInfo, None)]
    else [Reply(l, req, answer)]
  }

  /** The state once the handler has decided, before anything is sent. */
  function Begun(l: Link, req: Request, answer: Answer): Link {
    l.(begun := true,
       pending := Replies(l, req, answer),
       owed := if NeedsReply(req) then l.owed + [Reply(l, req, answer)] else l.owed,
       authed := l.authed || LogsIn(l, req),
       logins := if req.body.AuthRight? then l.logins + 1 else l.logins,
       attempts := if Denied(l, req) then l.attempts + 1 else l.attempts,
       operations := if Operates(l, req) then l.operations + 1 else l.operations)
  }

  /** The handler of a wrong token closes the connection at the last attempt. */
  function Returned(l: Link, req: Request): Link {
    if Denied(l, req) && l.attempts >= MAX_AUTH_ATTEMPTS then l.(done := true, dead := true) else l
  }

  predicate Enabled(l: Link, step: Step) {
    match step
    case Send(_) => l.pending != []
    case StartPumps => l.pump.NotStarted? && l.pending == []
    case Receive(_) => !l.pump.NotStarted? && l.busy.None? && l.pending == [] && !l.dead
    case Begin(_) => l.busy.Some? && !l.begun
    case Return => l.busy.Some? && l.begun && l.pending == []
    case Take => l.pump.Running? && l.flight.None? && l.queue != []
    case WriteOk => l.pump.Running? && l.flight.Some? && !l.dead
    case WriteFails => l.pump.Running? && l.flight.Some?
    case Push(_) => l.pump.Running? && l.flight.None? && l.authed
    case StopPump => l.pump.Running? && l.flight.None? && l.done
    case Close => true
    case Kill => l.done
  }

  function Do(l: Link, step: Step): Link
    requires Enabled(l, step)
  {
    match step
    case Send(taken) => Queued(l, l.pending[0], taken).(pending := l.pending[1..])
    case StartPumps => l.(pump := Running)
    case Receive(req) => l.(busy := Some(req), begun := false)
    case Begin(answer) => Begun(l, l.busy.value, answer)
    case Return => Returned(l, l.busy.value).(busy := None)
    case Take => l.(flight := Some(l.queue[0]), queue := l.queue[1..])
    case WriteOk => l.(flight := None, written := l.written + [l.flight.value])
    case WriteFails => l.(flight := None, done := true, pump := Stopped)
    case Push(taken) => Pushed(l, taken)
    case StopPump => l.(pump := Stopped)
    case Close => l.(done := true)
    case Kill => l.(dead := true)
  }

  function Run(l: Link, steps: seq<Step>): Option<Link> {
    if steps == [] then Some(l)
    else match Run(l, steps[..|steps| - 1])
      case None => None
      case Some(m) => if Enabled(m, steps[|steps| - 1]) then Some(Do(m, steps[|steps| - 1])) else None
  }

  // -------------------------------------------------------------- the agent's code

  /** Which case of the write pump's select is taken. */
  datatype Ready = SawDone | NextMessage | Tick

  /** What a handler does: it decides, and sends what it decided. */
  predicate Answering(steps: seq<Step>, answer: Answer) {
    steps != [] && steps[0] == Begin(answer) && forall i | 0 < i < |steps| :: steps[i].Send?
  }

  lemma SendAnswers(steps: seq<Step>, taken: bool)
    ensures forall answer :: Answering(steps, answer) ==> Answering(steps + [Send(taken)], answer)
  {
    var more := steps + [Send(taken)];
    forall answer | Answering(steps, answer)
      ensures Answering(more, answer)
    {
      assert forall i | 0 <= i < |steps| :: more[i] == steps[i];
    }
  }

  lemma BeginAnswers(answer: Answer)
    ensures Answering([Begin(answer)], answer)
  {
  }

  /** The steps of one turn of the write pump. */
  predicate PumpSteps(steps: seq<Step>, ready: Ready, authed: bool, failed: bool) {
    match ready
    case SawDone => steps == [StopPump, Kill]
    case NextMessage => steps == if failed then [Take, WriteFails, Kill] else [Take, WriteOk]
    case Tick => if authed then |steps| == 1 && steps[0].Push? else steps == []
  }

  /** The code of the accept handler, the read pump and the write pump on one
      connection. Each method is a step or a run of steps of the link; link records
      where they are, and interleaving them is left to the transitions above. */
  class Client {
    const tokenMode: bool
    var pump: Pump
    var authed: bool
    var attempts: nat
    var done: bool
    var dead: bool
    var queue: seq<Msg>
    var written: seq<Msg>
    ghost var link: Link

    ghost predicate Valid()
      reads this
    {
      && link.tokenMode == tokenMode && link.authed == authed && link.attempts == attempts
      && link.done == done && link.dead == dead && link.queue == queue
      && link.pump == pump && link.written == written
    }

    constructor (tokenMode: bool)
      ensures Valid() && link == Open(tokenMode)
    {
      this.tokenMode := tokenMode;
      pump, authed, attempts, done, dead, queue, written := NotStarted, !tokenMode, 0, false, false, [], [];
      link := Open(tokenMode);
    }

    /** The accept handler: greets, then starts both pumps. */
    method Greet() returns (ghost steps: seq<Step>)
      requires Valid() && link == Open(tokenMode)
      modifies this
      ensures Valid() && Run(old(link), steps) == Some(link) && link.pump.Running?
      ensures |steps| == 2 && steps[0].Send? && steps[1] == StartPumps
    {
      hide Run, Queued;
      ghost var start := link;
      NoSteps(link);
      if tokenMode {
        steps := SendNext(start, [], Msg(AuthRequired, None), []);
      } else {
        steps := SendNext(start, [], Msg(AgentInfo, None), []);
      }
      Extend(start, steps, link, StartPumps);
      pump := Running;
      link := link.(pump := Running);
      steps := steps + [StartPumps];
    }

    /** One turn of the read pump: reads a request and handles it. */
    method ServeOne(req: Request, answer: Answer) returns (ghost steps: seq<Step>)
      requires Valid() && Enabled(link, Receive(req))
      modifies this
      ensures Valid() && Run(old(link), steps) == Some(link) && link.busy.None?
      ensures |steps| > 2 && steps[0] == Receive(req) && steps[|steps| - 1] == Return
      ensures Answering(steps[1..|steps| - 1], answer)
    {
      hide Run, Begun, Returned, Answering;
      ghost var start := link;
      link := link.(busy := Some(req), begun := false);
      steps := HandleMessage(req, answer);
      RunFrom(start, Receive(req), steps);
      assert ([Receive(req)] + steps)[1..|steps|] == steps[..|steps| - 1];
      steps := [Receive(req)] + steps;
    }

    /** One turn of the write pump: it stops, writes the next message, or pushes. */
    method WritePumpTurn(ready: Ready, fails: bool) returns (stopped: bool, ghost steps: seq<Step>)
      requires Valid() && link.pump.Running? && link.flight.None?
      requires (ready.SawDone? ==> done) && (ready.NextMessage? ==> queue != [])
      modifies this
      ensures Valid() && Run(old(link), steps) == Some(link)
      ensures stopped == (ready.SawDone? || (ready.NextMessage? && (fails || old(dead)))) == link.pump.Stopped?
      ensures stopped ==> link.done && link.dead
      ensures link.flight.None?
      ensures written == if ready.NextMessage? && !stopped then old(written) + [old(queue)[0]] else old(written)
      ensures PumpSteps(steps, ready, old(authed), stopped)
    {
      hide Run, Pushed, Do;
      ghost var start := link;
      match ready
      case SawDone =>
        FirstStop(link);
        pump := Stopped;
        link := link.(pump := Stopped);
        steps := Finish(start, [StopPump]);
        stopped := true;
      case NextMessage =>
        stopped, steps := WriteNext(fails);
      case Tick =>
        steps := PushTick();
        stopped := false;
    }

    method WriteNext(fails: bool) returns (stopped: bool, ghost steps: seq<Step>)
      requires Valid() && link.pump.Running? && link.flight.None? && queue != []
      modifies this
      ensures Valid() && Run(old(link), steps) == Some(link)
      ensures stopped == (fails || old(dead)) == link.pump.Stopped? && (stopped ==> link.done && link.dead)
      ensures link.flight.None? && written == if stopped then old(written) else old(written) + [old(queue)[0]]
      ensures steps == if stopped then [Take, WriteFails, Kill] else [Take, WriteOk]
    {
      hide Run, Do;
      ghost var start := link;
      FirstTake(link);
      var message := queue[0];
      queue := queue[1..];
      link := link.(flight := Some(message), queue := queue);
      WriteEnds(start, link);
      stopped := fails || dead;
      if stopped {
        steps := AbandonWrite(start);
      } else {
        steps := CompleteWrite(start, message);
      }
    }

    method AbandonWrite(ghost start: Link) returns (ghost steps: seq<Step>)
      requires Valid()
      requires Run(start, [Take, WriteFails]) == Some(link.(flight := None, done := true, pump := Stopped))
      modifies this
      ensures Valid() && Run(start, steps) == Some(link) && steps == [Take, WriteFails, Kill]
      ensures link == old(link).(flight := None, done := true, pump := Stopped, dead := true)
    {
      hide Run;
      done, pump := true, Stopped;
      link := link.(flight := None, done := true, pump := Stopped);
      steps := Finish(start, [Take, WriteFails]);
      assert [Take, WriteFails] + [Kill] == [Take, WriteFails, Kill];
    }

    method CompleteWrite(ghost start: Link, message: Msg) returns (ghost steps: seq<Step>)
      requires Valid()
      requires Run(start, [Take, WriteOk]) == Some(link.(flight := None, written := link.written + [message]))
      modifies this
      ensures Valid() && Run(start, steps) == Some(link) && steps == [Take, WriteOk]
      ensures link == old(link).(flight := None, written := old(link).written + [message])
    {
      hide Run;
      written := written + [message];
      link := link.(flight := None, written := written);
      steps := [Take, WriteOk];
    }

    method PushTick() returns (ghost steps: seq<Step>)
      requires Valid() && link.pump.Running? && link.flight.None?
      modifies this
      ensures Valid() && Run(old(link), steps) == Some(link) && link == old(link).(queue := link.queue)
      ensures if old(authed) then |steps| == 1 && steps[0].Push? else steps == []
    {
      hide Run;
      NoSteps(link);
      steps := [];
      if authed {
        First(link, Push(true));
        First(link, Push(false));
        ghost var taken := PushSystemUpdate();
        steps := [Push(taken)];
      }
    }

    /** The write pump's deferred close. */
    method Finish(ghost start: Link, ghost steps: seq<Step>) returns (ghost more: seq<Step>)
      requires Valid() && link.done && Run(start, steps) == Some(link)
      modifies this
      ensures Valid() && Run(start, more) == Some(link) && link == old(link).(dead := true)
      ensures more == steps + [Kill]
    {
      hide Run;
      Extend(start, steps, link, Kill);
      CloseNow();
      more := steps + [Kill];
    }

    method CloseNow()
      requires Valid()
      modifies this
      ensures Valid() && link == old(link).(done := true, dead := true)
    {
      done := true;
      dead := true;
      link := link.(done := true, dead := true);
    }

    method SendMsg(m: Msg, ghost rest: seq<Msg>) returns (ghost taken: bool)
      requires Valid() && link.pending == [m] + rest
      modifies this
      ensures Valid() && link == Do(old(link), Send(taken))
    {
      hide Do;
      SendIs(link, true);
      SendIs(link, false);
      link := link.(pending := rest);
      var pick := *;
      taken := pick;
      if done && (!pick || |queue| >= QUEUE_SIZE) {
        return;
      }
      if |queue| < QUEUE_SIZE {
        queue := queue + [m];
        link := link.(queue := queue);
      } else {
        CloseNow();
      }
    }

    method PushSystemUpdate() returns (ghost taken: bool)
      requires Valid() && Enabled(link, Push(true))
      modifies this
      ensures Valid() && link == Do(old(link), Push(taken))
    {
      var pick := *;
      taken := pick;
      if (done && !pick) || |queue| >= QUEUE_SIZE {
        return;
      }
      queue := queue + [Msg(SystemUpdate, None)];
      link := link.(queue := queue);
    }

    /** The handler of one request: a sequence of the steps above, from the
        moment it starts until it returns. */
    method HandleMessage(req: Request, answer: Answer) returns (ghost steps: seq<Step>)
      requires Valid() && link.busy == Some(req) && !link.begun && link.pending == []
      modifies this
      ensures Valid() && Run(old(link), steps) == Some(link) && link.busy.None?
      ensures |steps| > 1 && steps[|steps| - 1] == Return && Answering(steps[..|steps| - 1], answer)
    {
      hide Run, Replies, Begun;
      ghost var start := link;
      ghost var before;
      if req.body.AuthRight? || req.body.AuthWrong? || req.body.AuthMalformed? {
        steps, before := HandleAuth(req, answer);
      } else {
        steps := HandleOther(req, answer);
        before := link;
      }
      Extend(start, steps, before, Return);
      link := link.(busy := None);
      assert (steps + [Return])[..|steps|] == steps;
      steps := steps + [Return];
    }

    /** Everything but authentication: one reply, or none for a keep-alive. */
    method HandleOther(req: Request, answer: Answer) returns (ghost steps: seq<Step>)
      requires Valid() && link.busy == Some(req) && !link.begun && link.pending == []
      requires req.body.KeepAlive? || req.body.Operation? || req.body.UnknownType?
      modifies this
      ensures Valid() && Run(old(link), steps) == Some(link) && Enabled(link, Return) && link.busy == Some(req)
      ensures !Denied(link, req) && Answering(steps, answer)
    {
      hide Run, Begun, Queued;
      ghost var start := link;
      First(link, Begin(answer));
      BegunFacts(link, req, answer);
      steps := [Begin(answer)];
      link := Begun(link, req, answer);
      if req.body.KeepAlive? {
        return;
      }
      var m := Msg(ErrorReply, Some(req.id));
      if authed && req.body.Operation? && answer.Succeeds? {
        m := Msg(Result, Some(req.id));
      }
      steps := SendNext(start, steps, m, []);
    }

    method HandleAuth(req: Request, answer: Answer) returns (ghost steps: seq<Step>, ghost before: Link)
      requires Valid() && link.busy == Some(req) && !link.begun && link.pending == []
      requires req.body.AuthRight? || req.body.AuthWrong? || req.body.AuthMalformed?
      modifies this
      ensures Valid() && Run(old(link), steps) == Some(before) && Enabled(before, Return)
      ensures before.busy == Some(req) && link == Returned(before, req)
      ensures Answering(steps, answer)
    {
      hide Run, Begun, Queued, Answering;
      ghost var start := link;
      First(link, Begin(answer));
      BegunFacts(link, req, answer);
      BeginAnswers(answer);
      steps := [Begin(answer)];
      link := Begun(link, req, answer);
      if req.body.AuthMalformed? {
        steps := SendNext(start, steps, Msg(ErrorReply, Some(req.id)), []);
        return steps, link;
      }
      if tokenMode && req.body.AuthWrong? {
        attempts := attempts + 1;
        steps, before := Deny(req, start, steps);
        return;
      }
      authed := true;
      steps := SendNext(start, steps, Msg(AuthOk, Some(req.id)), [Msg(AgentInfo, None)]);
      steps := SendNext(start, steps, Msg(AgentInfo, None), []);
      before := link;
    }

    /** The reply to a wrong token, the last of which closes the connection. */
    method Deny(req: Request, ghost start: Link, ghost steps: seq<Step>) returns (ghost more: seq<Step>, ghost before: Link)
      requires Valid() && link.busy == Some(req) && link.begun && link.pending == [Msg(ErrorReply, Some(req.id))]
      requires Denied(link, req) && Run(start, steps) == Some(link)
      modifies this
      ensures Valid() && Run(start, more) == Some(before) && Enabled(before, Return)
      ensures before.busy == Some(req) && link == Returned(before, req)
      ensures forall answer :: Answering(steps, answer) ==> Answering(more, answer)
    {
      hide Run, Answering;
      assert link.pending == [Msg(ErrorReply, Some(req.id))] + [];
      more := SendNext(start, steps, Msg(ErrorReply, Some(req.id)), []);
      before := link;
      if attempts >= MAX_AUTH_ATTEMPTS {
        CloseNow();
      }
    }

    /** SendMsg as one more step of a run. */
    method SendNext(ghost start: Link, ghost steps: seq<Step>, m: Msg, ghost rest: seq<Msg>)
      returns (ghost more: seq<Step>)
      requires Valid() && link.pending == [m] + rest && Run(start, steps) == Some(link)
      modifies this
      ensures Valid() && Run(start, more) == Some(link)
      ensures link == old(link).(pending := rest, queue := link.queue, done := link.done, dead := link.dead)
      ensures forall answer :: Answering(steps, answer) ==> Answering(more, answer)
      ensures |more| == |steps| + 1 && more[|steps|].Send?
    {
      hide Run, Do, Queued, Answering;
      SendIs(link, true);
      SendIs(link, false);
      Extend(start, steps, link, Send(true));
      Extend(start, steps, link, Send(false));
      ghost var taken := SendMsg(m, rest);
      SendAnswers(steps, taken);
      more := steps + [Send(taken)];
    }
  }

  lemma NoSteps(l: Link)
    ensures Run(l, []) == Some(l)
  {
  }

  lemma FirstStop(l: Link)
    requires Enabled(l, StopPump)
    ensures Run(l, [StopPump]) == Some(l.(pump := Stopped))
  {
    First(l, StopPump);
  }

  lemma FirstTake(l: Link)
    requires Enabled(l, Take)
    ensures Run(l, [Take]) == Some(l.(flight := Some(l.queue[0]), queue := l.queue[1..]))
  {
    First(l, Take);
  }

  /** The two ways in which a write ends. */
  lemma WriteEnds(start: Link, l: Link)
    requires Run(start, [Take]) == Some(l) && l.pump.Running? && l.flight.Some?
    ensures Run(start, [Take, WriteFails]) == Some(l.(flight := None, done := true, pump := Stopped))
    ensures !l.dead ==> Run(start, [Take, WriteOk]) == Some(l.(flight := None, written := l.written + [l.flight.value]))
  {
    hide Run;
    Extend(start, [Take], l, WriteFails);
    assert [Take] + [WriteFails] == [Take, WriteFails] && [Take] + [WriteOk] == [Take, WriteOk];
    if !l.dead {
      Extend(start, [Take], l, WriteOk);
    }
  }

  lemma SendIs(l: Link, taken: bool)
    requires l.pending != []
    ensures Do(l, Send(taken)) == Queued(l, l.pending[0], taken).(pending := l.pending[1..])
    ensures Queued(l, l.pending[0], taken)
            == l.(queue := Queued(l, l.pending[0], taken).queue, done := Queued(l, l.pending[0], taken).done,
                  dead := Queued(l, l.pending[0], taken).dead)
  {
  }

  /** A run may begin with one more step. */
  lemma {:induction false} RunFrom(l: Link, step: Step, steps: seq<Step>)
    requires Enabled(l, step) && Run(Do(l, step), steps).Some?
    ensures Run(l, [step] + steps) == Run(Do(l, step), steps)
  {
    hide Do, Enabled;
    if steps == [] {
      assert [step] + [] == [step] && [step][..0] == [];
    } else {
      var most, last := steps[..|steps| - 1], steps[|steps| - 1];
      assert [step] + steps == ([step] + most) + [last];
      RunFrom(l, step, most);
      Extend(l, [step] + most, Run(Do(l, step), most).value, last);
    }
  }

  /** What a handler has decided, body by body. */
  lemma BegunFacts(l: Link, req: Request, answer: Answer)
    ensures var t := Begun(l, req, answer);
            && t == l.(begun := true, pending := t.pending, owed := t.owed, authed := t.authed, logins := t.logins,
                       attempts := t.attempts, operations := t.operations)
            && t.authed == (l.authed || LogsIn(l, req))
            && t.attempts == (if Denied(l, req) then l.attempts + 1 else l.attempts)
            && t.pending == Replies(l, req, answer)
            && (t.pending != [] ==> t.pending == [t.pending[0]] + t.pending[1..])
  {
  }

  lemma First(l: Link, step: Step)
    requires Enabled(l, step)
    ensures Run(l, [step]) == Some(Do(l, step))
  {
    assert [step][..0] == [];
  }

  lemma Extend(start: Link, steps: seq<Step>, l: Link, step: Step)
    requires Run(start, steps) == Some(l) && Enabled(l, step)
    ensures Run(start, steps + [step]) == Some(Do(l, step))
  {
    var more := steps + [step];
    assert more[..|more| - 1] == steps;
  }

  // ------------------------------------------------------------------ every reply

  /** The messages that carry a request's ID. */
  function Keyed(ms: seq<Msg>): seq<Msg> {
    if ms == [] then []
    else Keyed(ms[..|ms| - 1]) + (if ms[|ms| - 1].id.Some? then [ms[|ms| - 1]] else [])
  }

  lemma {:induction false} KeyedAppend(a: seq<Msg>, b: seq<Msg>)
    ensures Keyed(a + b) == Keyed(a) + Keyed(b)
  {
    if b == [] {
      assert a + b == a;
    } else {
      var s := a + b;
      assert s[..|s| - 1] == a + b[..|b| - 1];
      KeyedAppend(a, b[..|b| - 1]);
    }
  }

  lemma KeyedOne(m: Msg)
    ensures Keyed([m]) == if m.id.Some? then [m] else []
  {
    assert [m][..0] == [];
  }

  function InFlight(l: Link): seq<Msg> {
    if l.flight.Some? then [l.flight.value] else []
  }

  /** Everything sent so far and not lost, in wire order. */
  function Sent(l: Link): seq<Msg> {
    l.written + InFlight(l) + l.queue
  }

  /** While the connection is not done, what is sent and what a running handler
      still has to send are, apart from pushes and greetings, exactly the owed
      replies in order. */
  predicate Sound(l: Link) {
    && (!l.done ==> Keyed(Sent(l) + l.pending) == l.owed)
    && (l.busy.Some? && !l.begun ==> l.pending == [])
    && |l.queue| <= QUEUE_SIZE
    && (l.dead || l.pump.Stopped? ==> l.done)
  }

  lemma Shift(a: seq<Msg>, m: Msg, b: seq<Msg>)
    ensures (a + [m]) + b == a + ([m] + b)
    ensures [m] + [] == [m] && a + [] == a
  {
  }

  lemma SendMoves(l: Link, taken: bool)
    requires l.pending != []
    ensures var t := Do(l, Send(taken));
            if t.queue == l.queue then (l.done || t.done) && Sent(t) == Sent(l)
            else Sent(t) == Sent(l) + [l.pending[0]]
    ensures var t := Do(l, Send(taken));
            t == l.(pending := l.pending[1..], queue := t.queue, done := t.done, dead := t.dead)
    ensures l.pending == [l.pending[0]] + l.pending[1..]
  {
    Assoc(l.written + InFlight(l), l.queue, [l.pending[0]]);
  }

  lemma TakeMoves(l: Link)
    requires Enabled(l, Take)
    ensures Sent(Do(l, Take)) == Sent(l)
  {
    assert l.queue == [l.queue[0]] + l.queue[1..];
    Shift(l.written, l.queue[0], l.queue[1..]);
  }

  lemma WriteMoves(l: Link)
    requires Enabled(l, WriteOk)
    ensures Sent(Do(l, WriteOk)) == Sent(l)
  {
    Shift(l.written, l.flight.value, []);
  }

  lemma PushMoves(l: Link, taken: bool)
    requires Enabled(l, Push(taken))
    ensures Sent(Do(l, Push(taken)))
            == Sent(l) + (if QueuesUpdate(l, taken) then [Msg(SystemUpdate, None)] else [])
  {
    Assoc(l.written + InFlight(l), l.queue, [Msg(SystemUpdate, None)]);
  }

  lemma BeginMoves(l: Link, answer: Answer)
    requires Enabled(l, Begin(answer))
    ensures Sent(Do(l, Begin(answer))) == Sent(l)
  {
  }

  lemma FailedWriteMoves(l: Link)
    requires Enabled(l, WriteFails)
    ensures forall m | m in Sent(Do(l, WriteFails)) :: m in Sent(l)
    ensures l.written <= Sent(l) && Do(l, WriteFails).pending == l.pending
  {
  }

  /** The other steps send nothing. */
  lemma NothingMoves(l: Link, step: Step)
    requires Enabled(l, step)
    requires step.StartPumps? || step.Receive? || step.Return? || step.StopPump? || step.Close? || step.Kill?
    ensures Sent(Do(l, step)) == Sent(l) && Do(l, step).pending == l.pending && Do(l, step).tokenMode == l.tokenMode
  {
  }

  /** The new messages that a step decides to send. */
  function Added(l: Link, step: Step): seq<Msg>
    requires Enabled(l, step)
  {
    match step
    case Begin(answer) => Replies(l, l.busy.value, answer)
    case Push(_) => [Msg(SystemUpdate, None)]
    case _ => []
  }

  lemma NothingElseSent(l: Link, step: Step, m: Msg)
    requires Enabled(l, step) && (step.Begin? ==> l.pending == [])
    requires m in Sent(Do(l, step)) || m in Do(l, step).pending
    ensures m in Sent(l) || m in l.pending || m in Added(l, step)
  {
    hide Sent, Replies, Queued;
    match step
    case Send(taken) => SendMoves(l, taken);
    case Begin(answer) => BeginMoves(l, answer);
    case Take => TakeMoves(l);
    case WriteOk => WriteMoves(l);
    case WriteFails => FailedWriteMoves(l);
    case Push(taken) => PushMoves(l, taken);
    case _ => NothingMoves(l, step);
  }

  lemma SendKeepsReplies(l: Link, taken: bool)
    requires Sound(l) && l.pending != []
    ensures Sound(Do(l, Send(taken)))
  {
    hide Keyed, Sent;
    SendMoves(l, taken);
    Shift(Sent(l), l.pending[0], l.pending[1..]);
  }

  lemma PumpKeepsReplies(l: Link, step: Step)
    requires Sound(l) && Enabled(l, step) && (step.Take? || step.WriteOk?)
    ensures Sound(Do(l, step))
  {
    hide Keyed, Sent;
    if step.Take? {
      TakeMoves(l);
    } else {
      WriteMoves(l);
    }
  }

  lemma PushKeepsReplies(l: Link, taken: bool)
    requires Sound(l) && Enabled(l, Push(taken))
    ensures Sound(Do(l, Push(taken)))
  {
    hide Keyed, Sent;
    var update := Msg(SystemUpdate, None);
    PushMoves(l, taken);
    KeyedOne(update);
    KeyedAppend(Sent(l), [update]);
    KeyedAppend(Sent(l) + [update], l.pending);
    KeyedAppend(Sent(l), l.pending);
  }

  lemma BeginKeepsReplies(l: Link, answer: Answer)
    requires Sound(l) && Enabled(l, Begin(answer))
    ensures Sound(Do(l, Begin(answer)))
  {
    hide Keyed, Sent;
    var t, replies := Do(l, Begin(answer)), Replies(l, l.busy.value, answer);
    HandlerOwesOne(l, l.busy.value, answer);
    BeginMoves(l, answer);
    assert t.pending == replies && l.pending == [];
    assert Sent(l) + [] == Sent(l);
    KeyedAppend(Sent(l), replies);
    assert t.owed == l.owed + Keyed(replies);
  }

  lemma StepKeepsReplies(l: Link, step: Step)
    requires Sound(l) && Enabled(l, step)
    ensures Sound(Do(l, step))
  {
    match step
    case Send(taken) => SendKeepsReplies(l, taken);
    case Begin(answer) => BeginKeepsReplies(l, answer);
    case Take => PumpKeepsReplies(l, step);
    case WriteOk => PumpKeepsReplies(l, step);
    case Push(taken) => PushKeepsReplies(l, taken);
    case _ =>
    hide Keyed, Replies;
  }

  /** Every handler decides to send exactly one message with its request's ID,
      except keep-alive, which sends none. */
  lemma HandlerOwesOne(l: Link, req: Request, answer: Answer)
    ensures Keyed(Replies(l, req, answer)) == if NeedsReply(req) then [Reply(l, req, answer)] else []
    ensures forall m | m in Replies(l, req, answer) && m.id.Some? :: m == Reply(l, req, answer) && m.id == Some(req.id)
    ensures Replies(l, req, answer) != [] ==> NeedsReply(req)
  {
    var info := Msg(AgentInfo, None);
    KeyedOne(Reply(l, req, answer));
    KeyedOne(info);
    KeyedAppend([Reply(l, req, answer)], [info]);
    assert [Reply(l, req, answer)] + [info] == [Reply(l, req, answer), info];
  }

  /** In every run: no reply is lost or reordered while the connection is open,
      whatever pushes are queued or skipped. */
  lemma {:induction false} NoReplyLost(tokenMode: bool, steps: seq<Step>)
    requires Run(Open(tokenMode), steps).Some?
    ensures Sound(Run(Open(tokenMode), steps).value)
    ensures var l := Run(Open(tokenMode), steps).value;
            !l.done && l.pending == [] ==> Keyed(Sent(l)) == l.owed
  {
    if steps == [] {
      KeyedOne(Greeting(tokenMode));
      assert Sent(Open(tokenMode)) + Open(tokenMode).pending == [Greeting(tokenMode)];
    } else {
      NoReplyLost(tokenMode, steps[..|steps| - 1]);
      StepKeepsReplies(Run(Open(tokenMode), steps[..|steps| - 1]).value, steps[|steps| - 1]);
      var l := Run(Open(tokenMode), steps).value;
      assert l.pending == [] ==> Sent(l) + l.pending == Sent(l);
    }
    hide Do, Enabled, Keyed, Sent;
  }

  /** Every reply sent or still to be sent is one that is owed. */
  ghost predicate OnlyOwed(l: Link) {
    && (forall m | (m in Sent(l) || m in l.pending) && m.id.Some? :: m in l.owed)
    && (l.busy.Some? && !l.begun ==> l.pending == [])
  }

  /** Only beginning a request changes what is owed and who is authenticated. */
  lemma OnlyBeginDecides(l: Link, step: Step)
    requires Enabled(l, step) && !step.Begin?
    ensures var t := Do(l, step);
            && t.owed == l.owed && t.authed == l.authed && t.logins == l.logins && t.operations == l.operations
            && t.tokenMode == l.tokenMode
  {
    hide Queued, Pushed, Returned;
    match step
    case Send(taken) => SendIs(l, taken);
    case Push(taken) => PushedIs(l, taken);
    case Return => ReturnedIs(l, l.busy.value);
    case _ =>
  }

  lemma PushedIs(l: Link, taken: bool)
    ensures Pushed(l, taken) == l.(queue := Pushed(l, taken).queue)
  {
  }

  lemma ReturnedIs(l: Link, req: Request)
    ensures Returned(l, req) == l.(done := Returned(l, req).done, dead := Returned(l, req).dead)
  {
  }

  lemma BeginIs(l: Link, answer: Answer)
    requires Enabled(l, Begin(answer))
    ensures Do(l, Begin(answer)) == Begun(l, l.busy.value, answer)
  {
  }

  lemma NotBegun(l: Link, step: Step)
    requires Enabled(l, step) && Do(l, step).busy.Some? && !Do(l, step).begun
    ensures if step.Receive? then Do(l, step).pending == [] && Do(l, step).busy == Some(step.req)
            else l.busy == Do(l, step).busy && !l.begun && (Do(l, step).pending == l.pending || step.Send?)
  {
    hide Replies, Queued, Pushed;
    match step
    case Send(taken) => SendIs(l, taken);
    case Push(taken) => PushedIs(l, taken);
    case _ =>
  }

  lemma NothingPendingUnbegun(l: Link, step: Step)
    requires Enabled(l, step) && (l.busy.Some? && !l.begun ==> l.pending == [])
    ensures var t := Do(l, step); t.busy.Some? && !t.begun ==> t.pending == []
  {
    hide Do;
    var t := Do(l, step);
    if t.busy.Some? && !t.begun {
      NotBegun(l, step);
    }
  }

  lemma StepKeepsOwed(l: Link, step: Step)
    requires OnlyOwed(l) && Enabled(l, step)
    ensures OnlyOwed(Do(l, step))
  {
    hide Sent, Keyed, Replies, Do;
    var t := Do(l, step);
    NothingPendingUnbegun(l, step);
    if step.Begin? {
      BeginIs(l, step.answer);
      HandlerOwesOne(l, l.busy.value, step.answer);
    } else {
      OnlyBeginDecides(l, step);
    }
    forall m | (m in Sent(t) || m in t.pending) && m.id.Some?
      ensures m in t.owed
    {
      NothingElseSent(l, step, m);
    }
  }

  /** In every run, also after the connection is done: whatever the control center
      receives with a request's ID is the reply that this request's handler decided. */
  lemma {:induction false} RepliesAreOwed(tokenMode: bool, steps: seq<Step>)
    requires Run(Open(tokenMode), steps).Some?
    ensures OnlyOwed(Run(Open(tokenMode), steps).value)
  {
    if steps == [] {
    } else {
      RepliesAreOwed(tokenMode, steps[..|steps| - 1]);
      StepKeepsOwed(Run(Open(tokenMode), steps[..|steps| - 1]).value, steps[|steps| - 1]);
      hide OnlyOwed;
    }
    hide Do, Enabled;
  }

  // ------------------------------------------------------ what is decided, and when it ends

  /** The replies of every handler, in order, and whom it lets in: an operation gets a
      result exactly if it succeeds on an authenticated connection. */
  lemma ReplyTable(l: Link, req: Request, answer: Answer)
    ensures var error := Msg(ErrorReply, Some(req.id));
            var welcome := [Msg(AuthOk, Some(req.id)), Msg(AgentInfo, None)];
            var t := Begun(l, req, answer);
            && t.pending == (match req.body
                             case AuthRight => welcome
                             case AuthWrong => if l.tokenMode then [error] else welcome
                             case AuthMalformed => [error]
                             case KeepAlive => []
                             case Operation => if l.authed && answer.Succeeds? then [Msg(Result, Some(req.id))] else [error]
                             case UnknownType => [error])
            && t.authed == (l.authed || req.body.AuthRight? || (req.body.AuthWrong? && !l.tokenMode))
            && t.owed == (if req.body.KeepAlive? then l.owed else l.owed + [t.pending[0]])
            && t.logins == l.logins + (if req.body.AuthRight? then 1 else 0)
            && t.attempts == l.attempts + (if req.body.AuthWrong? && l.tokenMode then 1 else 0)
            && t.operations == l.operations + (if req.body.Operation? && l.authed then 1 else 0)
  {
  }

  /** What makes an open connection done: a message for which 64 are queued already, a
      failed write, a close from outside, and the end of the handler of a fifth wrong
      token; nothing else does. The first and the last close the socket at once. */
  lemma WhatCloses(l: Link, step: Step)
    requires Enabled(l, step) && !l.done
    ensures var overflows := step.Send? && |l.queue| >= 64;
            var fifth := step.Return? && l.busy.value.body.AuthWrong? && l.tokenMode && l.attempts >= 5;
            && (Do(l, step).done <==> overflows || fifth || step.WriteFails? || step.Close?)
            && (Do(l, step).dead <==> l.dead || overflows || fifth)
  {
  }

  /** What happens to a message that is to be sent: it is queued if there is room, and
      dropped if there is none; on a connection that is done it may be dropped anyway. */
  lemma WhatSendingQueues(l: Link, taken: bool)
    requires l.pending != []
    ensures var t := Do(l, Send(taken));
            && t.pending == l.pending[1..]
            && t.queue == (if |l.queue| < 64 && (l.done ==> taken) then l.queue + [l.pending[0]] else l.queue)
            && t.written == l.written && t.flight == l.flight
  {
  }

  lemma DoneStays(l: Link, step: Step)
    requires Enabled(l, step) && l.done
    ensures Do(l, step).done
  {
  }

  /** The wrong tokens received in a run. */
  function WrongTokens(steps: seq<Step>): nat {
    if steps == [] then 0
    else
      var last := steps[|steps| - 1];
      WrongTokens(steps[..|steps| - 1]) + (if last.Receive? && last.req.body.AuthWrong? then 1 else 0)
  }

  /** Every wrong token received is counted once its handler begins, and from the fifth
      on the handler leaves the connection done. */
  predicate Counts(l: Link, wrong: nat) {
    && wrong == l.attempts + (if l.busy.Some? && !l.begun && l.busy.value.body.AuthWrong? then 1 else 0)
    && (l.attempts >= 5 ==> l.done || (l.busy.Some? && l.begun && l.busy.value.body.AuthWrong?))
  }

  lemma StepCounts(l: Link, step: Step, wrong: nat)
    requires l.tokenMode && Enabled(l, step) && Counts(l, wrong)
    ensures Counts(Do(l, step), wrong + (if step.Receive? && step.req.body.AuthWrong? then 1 else 0))
    ensures Do(l, step).tokenMode
  {
    hide Replies, Queued;
    if l.done {
      DoneStays(l, step);
    }
    match step
    case Send(taken) => SendIs(l, taken);
    case _ =>
  }

  /** In every run of an agent with a token: a connection that has received five wrong
      tokens and is not handling one is done. */
  lemma {:induction false} FifthWrongTokenCloses(steps: seq<Step>)
    requires Run(Open(true), steps).Some?
    ensures var l := Run(Open(true), steps).value;
            && l.tokenMode && Counts(l, WrongTokens(steps))
            && (WrongTokens(steps) >= 5 && l.busy.None? ==> l.done)
  {
    if steps == [] {
    } else {
      var before := steps[..|steps| - 1];
      FifthWrongTokenCloses(before);
      StepCounts(Run(Open(true), before).value, steps[|steps| - 1], WrongTokens(before));
    }
    hide Do, Enabled;
  }

  /** From any state with a running write pump and a live socket: everything queued gets
      written, in order, by the pump alone. */
  lemma {:induction false} QueueGetsWritten(start: Link, steps: seq<Step>, l: Link) returns (more: seq<Step>)
    requires Run(start, steps) == Some(l) && l.pump.Running? && l.flight.None? && !l.dead
    ensures Run(start, more) == Some(l.(queue := [], written := l.written + l.queue))
    decreases |l.queue|
  {
    hide Run;
    if l.queue == [] {
      more := steps;
      assert l.written + l.queue == l.written && l == l.(queue := []);
    } else {
      Extend(start, steps, l, Take);
      var taken := Do(l, Take);
      Extend(start, steps + [Take], taken, WriteOk);
      Shift(l.written, l.queue[0], l.queue[1..]);
      assert l.queue == [l.queue[0]] + l.queue[1..];
      more := QueueGetsWritten(start, steps + [Take] + [WriteOk], Do(taken, WriteOk));
    }
  }

  /** Once the socket is closed, no message is read or written in the rest of any run. */
  lemma {:induction false} ClosedSocketIsSilent(l: Link, steps: seq<Step>)
    requires Run(l, steps).Some? && (l.dead || (steps != [] && steps[0] == Kill))
    ensures Run(l, steps).value.written == l.written && Run(l, steps).value.dead
    ensures forall step | step in steps :: !step.Receive? && !step.WriteOk?
  {
    hide Do, Enabled;
    if steps == [] {
    } else {
      var before, last := steps[..|steps| - 1], steps[|steps| - 1];
      if before != [] || l.dead {
        ClosedSocketIsSilent(l, before);
      }
      DeadStep(Run(l, before).value, last);
      assert forall step | step in steps :: step in before || step == last;
    }
  }

  lemma DeadStep(l: Link, step: Step)
    requires (l.dead || step.Kill?) && Enabled(l, step)
    ensures Do(l, step).dead && Do(l, step).written == l.written && !step.Receive? && !step.WriteOk?
  {
    hide Replies, Pushed, Queued;
    match step
    case Send(taken) => SendingToDead(l, taken);
    case Push(taken) => PushedIs(l, taken);
    case _ =>
  }

  lemma SendingToDead(l: Link, taken: bool)
    requires l.pending != []
    ensures var t := Do(l, Send(taken)); t.written == l.written && (l.dead ==> t.dead)
  {
  }

  /** What is still to be sent is queued if there is room for all of it. */
  lemma {:induction false} PendingGetsQueued(start: Link, steps: seq<Step>, l: Link) returns (more: seq<Step>)
    requires Run(start, steps) == Some(l) && !l.done && |l.queue| + |l.pending| <= 64
    ensures Run(start, more) == Some(l.(pending := [], queue := l.queue + l.pending))
    decreases |l.pending|
  {
    hide Run;
    if l.pending == [] {
      more := steps;
      assert l.queue + l.pending == l.queue && l == l.(pending := []);
    } else {
      Extend(start, steps, l, Send(true));
      Assoc(l.queue, [l.pending[0]], l.pending[1..]);
      assert l.pending == [l.pending[0]] + l.pending[1..];
      more := PendingGetsQueued(start, steps + [Send(true)], Do(l, Send(true)));
    }
  }

  /** From any state of an open connection with room for two messages: its read pump can
      read a request, handle it and read the next one, and the replies are queued. */
  lemma RequestIsHandled(l: Link, req: Request, answer: Answer) returns (steps: seq<Step>, t: Link)
    requires Enabled(l, Receive(req)) && !l.done && |l.queue| <= 62 && l.attempts < 4
    ensures Run(l, steps) == Some(t) && Enabled(t, Receive(req)) && !t.done
    ensures t.queue == l.queue + Begun(l, req, answer).pending && t.written == l.written
  {
    hide Run, Replies, LogsIn, Operates, NeedsReply;
    var replies := Begun(l, req, answer).pending;
    AtMostTwo(l, req, answer);
    var reading := l.(busy := Some(req), begun := false);
    First(l, Receive(req));
    BeginsAlike(l, reading, req, answer);
    Extend(l, [Receive(req)], reading, Begin(answer));
    var begun := Do(reading, Begin(answer));
    steps := PendingGetsQueued(l, [Receive(req)] + [Begin(answer)], begun);
    var sent := begun.(pending := [], queue := begun.queue + begun.pending);
    Extend(l, steps, sent, Return);
    steps, t := steps + [Return], Do(sent, Return);
  }

  lemma AtMostTwo(l: Link, req: Request, answer: Answer)
    ensures |Begun(l, req, answer).pending| <= 2 && Begun(l, req, answer).attempts <= l.attempts + 1
  {
  }

  lemma BeginsAlike(l: Link, m: Link, req: Request, answer: Answer)
    requires m == l.(busy := Some(req), begun := false)
    ensures Begun(m, req, answer).pending == Begun(l, req, answer).pending
    ensures Begun(m, req, answer).attempts == Begun(l, req, answer).attempts
  {
  }
}
