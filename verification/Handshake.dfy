/** Authentication of one connection, on the agent and in the control center's
    handshake: what each of them knows about the other. */
module Handshake {
  import opened Common
  import opened AgentLink

  // ---------------------------------------------------------------- authentication

  /** Messages that a connection may get before anybody has logged in. */
  predicate Public(m: Msg) {
    m.kind.AuthRequired? || m.kind.ErrorReply?
  }

  ghost predicate AuthSound(l: Link) {
    && (!l.authed ==> forall m | m in Sent(l) || m in l.pending :: Public(m))
    && (l.busy.Some? && !l.begun ==> l.pending == [])
    && (l.tokenMode && l.authed ==> l.logins > 0)
    && (l.tokenMode && l.operations > 0 ==> l.logins > 0)
  }

  lemma PublicUnlessAuthed(l: Link, req: Request, answer: Answer)
    ensures forall m | m in Replies(l, req, answer) && !Public(m) :: l.authed || LogsIn(l, req)
  {
  }

  /** Authentication is never withdrawn, and only an authenticated connection runs an
      operation or is ever sent anything but errors and the demand for a token. */
  lemma StepKeepsAuth(l: Link, step: Step)
    requires AuthSound(l) && Enabled(l, step)
    ensures AuthSound(Do(l, step))
    ensures l.authed ==> Do(l, step).authed
    ensures Do(l, step).tokenMode == l.tokenMode
    ensures Do(l, step).operations > l.operations ==> l.authed
  {
    hide Sent, Replies, Do;
    var t := Do(l, step);
    NothingPendingUnbegun(l, step);
    if step.Begin? {
      BeginIs(l, step.answer);
      PublicUnlessAuthed(l, l.busy.value, step.answer);
    } else {
      OnlyBeginDecides(l, step);
    }
    forall m | !t.authed && (m in Sent(t) || m in t.pending)
      ensures Public(m)
    {
      NothingElseSent(l, step, m);
    }
  }

  /** In every run, in token mode: authenticated, or having run an operation,
      only after a correct token on this very connection. */
  lemma {:induction false} AuthOnlyByToken(tokenMode: bool, steps: seq<Step>)
    requires Run(Open(tokenMode), steps).Some?
    ensures AuthSound(Run(Open(tokenMode), steps).value) && Run(Open(tokenMode), steps).value.tokenMode == tokenMode
  {
    if steps == [] {
    } else {
      AuthOnlyByToken(tokenMode, steps[..|steps| - 1]);
      StepKeepsAuth(Run(Open(tokenMode), steps[..|steps| - 1]).value, steps[|steps| - 1]);
      hide AuthSound;
    }
    hide Do, Enabled;
  }

  /** The run has received a correct token. */
  ghost predicate ReceivedToken(steps: seq<Step>) {
    exists id :: Receive(Request(id, AuthRight)) in steps
  }

  /** A correct token was counted, or is being handled. */
  predicate SawToken(l: Link) {
    l.logins > 0 || (l.busy.Some? && l.busy.value.body.AuthRight?)
  }

  lemma StepSeesToken(l: Link, step: Step)
    requires Enabled(l, step)
    ensures SawToken(Do(l, step)) ==> SawToken(l) || (step.Receive? && step.req.body.AuthRight?)
  {
    hide Do;
    if step.Begin? {
      BeginIs(l, step.answer);
      ReplyTable(l, l.busy.value, step.answer);
    } else {
      OnlyBeginDecides(l, step);
    }
    if Do(l, step).busy.Some? {
      BusyByReceiving(l, step);
    }
  }

  /** The correct tokens counted, and the one being handled, were received. */
  lemma {:induction false} LoginsWereReceived(start: Link, steps: seq<Step>)
    requires start.busy.None? && start.logins == 0 && Run(start, steps).Some?
    ensures SawToken(Run(start, steps).value) ==> ReceivedToken(steps)
  {
    hide Do, Enabled;
    if steps == [] {
    } else {
      var before, step := steps[..|steps| - 1], steps[|steps| - 1];
      LoginsWereReceived(start, before);
      StepSeesToken(Run(start, before).value, step);
      if ReceivedToken(before) {
        var id :| Receive(Request(id, AuthRight)) in before;
        assert Receive(Request(id, AuthRight)) in steps;
      } else if step.Receive? && step.req.body.AuthRight? {
        assert Receive(Request(step.req.id, AuthRight)) in steps;
      }
    }
  }

  lemma BusyByReceiving(l: Link, step: Step)
    requires Enabled(l, step) && Do(l, step).busy.Some?
    ensures Do(l, step).busy == if step.Receive? then Some(step.req) else l.busy
  {
    hide Replies, Queued, Pushed;
    match step
    case Send(taken) => SendIs(l, taken);
    case Push(taken) => PushedIs(l, taken);
    case _ =>
  }

  /** In every run of an agent with a token: a connection that is authenticated, has run
      an operation, or was sent a result, an update, a welcome or the agent's details,
      has received a correct token before. */
  lemma NothingWithoutToken(steps: seq<Step>)
    requires Run(Open(true), steps).Some?
    ensures var l := Run(Open(true), steps).value;
            l.authed || l.operations > 0
            || (exists m :: (m in Sent(l) || m in l.pending)
                            && (m.kind.Result? || m.kind.SystemUpdate? || m.kind.AuthOk? || m.kind.AgentInfo?))
            ==> ReceivedToken(steps)
  {
    AuthOnlyByToken(true, steps);
    LoginsWereReceived(Open(true), steps);
    hide Run, ReceivedToken;
  }

  // ------------------------------------------------- the control center's handshake

  /** The greeting exchanges that let the control center in. */
  predicate Agreed(ms: seq<Msg>, token: string) {
    && ms != []
    && (ms[0].kind.AgentInfo?
        || (ms[0].kind.AuthRequired? && token != ""
            && exists k :: 0 < k < |ms| && ms[k].kind.AuthOk? && forall i | 0 < i < k :: ms[i].kind.AgentInfo?))
  }

  /** Reads the agent's messages until one decides; running out of them is a read error. */
  method Handshake(ms: seq<Msg>, token: string) returns (ok: bool)
    ensures ok <==> Agreed(ms, token)
  {
    if ms == [] {
      return false;
    }
    if ms[0].kind.AgentInfo? {
      return true;
    }
    if !ms[0].kind.AuthRequired? || token == "" {
      return false;
    }
    var next := 1;
    while next < |ms|
      invariant 1 <= next <= |ms|
      invariant forall i | 0 < i < next :: ms[i].kind.AgentInfo?
    {
      if ms[next].kind.AuthOk? {
        return true;
      }
      if !ms[next].kind.AgentInfo? {
        return false;
      }
      next := next + 1;
    }
    return false;
  }

  /** In every interleaving, a handshake that succeeds on what this connection has
      delivered means that the agent has authenticated this connection. */
  lemma HandshakeMeansAuthed(tokenMode: bool, steps: seq<Step>, received: nat, token: string)
    requires Run(Open(tokenMode), steps).Some?
    requires received <= |Run(Open(tokenMode), steps).value.written|
    requires Agreed(Run(Open(tokenMode), steps).value.written[..received], token)
    ensures Run(Open(tokenMode), steps).value.authed
    ensures tokenMode ==> Run(Open(tokenMode), steps).value.logins > 0
  {
    hide Run, Agreed, Sent;
    AuthOnlyByToken(tokenMode, steps);
    var l := Run(Open(tokenMode), steps).value;
    var i := WelcomeIn(l.written[..received], token);
    WrittenIsSent(l, l.written[i]);
  }

  lemma WelcomeIn(ms: seq<Msg>, token: string) returns (i: nat)
    requires Agreed(ms, token)
    ensures i < |ms| && !Public(ms[i])
  {
    i :| 0 <= i < |ms| && (ms[i].kind.AgentInfo? || ms[i].kind.AuthOk?);
  }

  lemma WrittenIsSent(l: Link, m: Msg)
    requires m in l.written
    ensures m in Sent(l)
  {
  }

  // --------------------------------------------- which correct tokens are let in

  predicate HasAuthOk(ms: seq<Msg>) {
    exists i :: 0 <= i < |ms| && ms[i].kind.AuthOk?
  }

  predicate HasUpdate(ms: seq<Msg>) {
    exists i :: 0 <= i < |ms| && ms[i].kind.SystemUpdate?
  }

  /** What may precede the reply to the token: the demand for it, and updates. */
  predicate Opening(ms: seq<Msg>) {
    forall i | 0 <= i < |ms| :: ms[i].kind.SystemUpdate? || (i == 0 && ms[i].kind.AuthRequired?)
  }

  /** The reply to the token is in ms, and an update is before it or not. */
  predicate ReplyAfterOpening(ms: seq<Msg>, overtaken: bool) {
    exists k :: 0 <= k < |ms| && ms[k].kind.AuthOk? && Opening(ms[..k]) && HasUpdate(ms[..k]) == overtaken
  }

  /** An update is queued while the reply to the token is decided but not queued. */
  predicate Overtakes(l: Link, step: Step) {
    step.Push? && QueuesUpdate(l, step.taken) && Welcomes(l.pending)
  }

  predicate Welcomes(ms: seq<Msg>) {
    ms != [] && ms[0].kind.AuthOk?
  }

  /** Somewhere in the run an update overtakes the reply to the token. */
  predicate Overtaken(start: Link, steps: seq<Step>)
    requires Run(start, steps).Some?
  {
    steps != [] &&
    var before := steps[..|steps| - 1];
    Overtaken(start, before) || Overtakes(Run(start, before).value, steps[|steps| - 1])
  }

  /** What reaches the control center: once the write pump stopped, nothing more. */
  function Arriving(l: Link): seq<Msg> {
    if l.pump.Stopped? then l.written else Sent(l)
  }

  /** Nothing answered yet: only the greeting, if anything. */
  predicate Unanswered(l: Link, overtaken: bool) {
    && !overtaken && !l.authed && l.logins == 0
    && (l.pending == [] || (l.pump.NotStarted? && l.pending == [Msg(AuthRequired, None)] && Sent(l) == []))
    && Opening(Arriving(l)) && !HasUpdate(Arriving(l))
  }

  /** One correct token and nothing else was handled. */
  predicate LoggedIn(l: Link, overtaken: bool) {
    && (forall i | 1 <= i < |l.pending| :: !l.pending[i].kind.AuthOk?)
    && if Welcomes(l.pending) then
         && !HasAuthOk(Arriving(l))
         && (!l.pump.Stopped? ==> Opening(Arriving(l)) && HasUpdate(Arriving(l)) == overtaken)
       else
         HasAuthOk(Arriving(l)) ==> ReplyAfterOpening(Arriving(l), overtaken)
  }

  predicate Stage(l: Link, overtaken: bool) {
    && l.tokenMode && l.logins <= |l.owed|
    && (l.pump.NotStarted? ==> l.busy.None?)
    && (l.busy.Some? && !l.begun ==> l.pending == [])
    && (l.owed == [] ==> Unanswered(l, overtaken))
    && (|l.owed| == 1 && l.logins == 1 ==> !l.pump.NotStarted? && LoggedIn(l, overtaken))
  }

  lemma OneMore(ms: seq<Msg>, m: Msg, overtaken: bool)
    ensures HasAuthOk(ms + [m]) <==> HasAuthOk(ms) || m.kind.AuthOk?
    ensures HasUpdate(ms + [m]) <==> HasUpdate(ms) || m.kind.SystemUpdate?
    ensures Opening(ms + [m]) <==> Opening(ms) && (m.kind.SystemUpdate? || (ms == [] && m.kind.AuthRequired?))
    ensures ReplyAfterOpening(ms, overtaken) ==> ReplyAfterOpening(ms + [m], overtaken)
    ensures Opening(ms) && HasUpdate(ms) == overtaken && m.kind.AuthOk? ==> ReplyAfterOpening(ms + [m], overtaken)
  {
    var more := ms + [m];
    assert more[|ms|] == m && more[..|ms|] == ms;
    assert forall i | 0 <= i < |ms| :: more[i] == ms[i];
    if ReplyAfterOpening(ms, overtaken) {
      var k :| 0 <= k < |ms| && ms[k].kind.AuthOk? && Opening(ms[..k]) && HasUpdate(ms[..k]) == overtaken;
      assert more[..k] == ms[..k];
    }
  }

  lemma Fewer(ms: seq<Msg>, p: seq<Msg>, overtaken: bool)
    requires p <= ms
    ensures HasAuthOk(p) ==> HasAuthOk(ms)
    ensures HasUpdate(p) ==> HasUpdate(ms)
    ensures Opening(ms) ==> Opening(p)
    ensures ReplyAfterOpening(ms, overtaken) && HasAuthOk(p) ==> ReplyAfterOpening(p, overtaken)
  {
    assert forall i | 0 <= i < |p| :: p[i] == ms[i];
    if ReplyAfterOpening(ms, overtaken) && HasAuthOk(p) {
      var k :| 0 <= k < |ms| && ms[k].kind.AuthOk? && Opening(ms[..k]) && HasUpdate(ms[..k]) == overtaken;
      assert forall j | 0 <= j < k :: !ms[j].kind.AuthOk? by {
        assert forall j | 0 <= j < k :: ms[..k][j] == ms[j];
      }
      assert p[..k] == ms[..k];
    }
  }

  lemma SendKeepsStage(l: Link, taken: bool, overtaken: bool)
    requires Stage(l, overtaken) && l.pending != []
    ensures Stage(Do(l, Send(taken)), overtaken)
  {
    hide Queued, Sent, HasAuthOk, HasUpdate, Opening, ReplyAfterOpening;
    var t, m := Do(l, Send(taken)), l.pending[0];
    SendMoves(l, taken);
    OneMore(Sent(l), m, overtaken);
    hide Do;
    if l.owed == [] {
      OneMore([], m, overtaken);
      assert Sent(t) == Sent(l) || Sent(t) == [] + [m];
      assert Unanswered(t, overtaken);
    } else if |l.owed| == 1 && l.logins == 1 {
      assert Arriving(t) == Arriving(l) || Arriving(t) == Arriving(l) + [m];
      assert LoggedIn(t, overtaken);
    }
  }

  /** The write pump only moves messages along, or stops. */
  lemma PumpKeepsStage(l: Link, step: Step, overtaken: bool)
    requires Stage(l, overtaken) && Enabled(l, step)
    requires step.Take? || step.WriteOk? || step.WriteFails? || step.StopPump?
    ensures Stage(Do(l, step), overtaken)
  {
    hide HasAuthOk, HasUpdate, Opening, ReplyAfterOpening, Sent;
    WrittenFirst(l);
    if step.Take? {
      TakeMoves(l);
    } else if step.WriteOk? {
      WriteMoves(l);
    } else {
      Fewer(Sent(l), l.written, overtaken);
    }
  }

  lemma WrittenFirst(l: Link)
    ensures l.written <= Sent(l)
  {
  }

  lemma PushKeepsStage(l: Link, taken: bool, overtaken: bool)
    requires Stage(l, overtaken) && Enabled(l, Push(taken))
    ensures Stage(Do(l, Push(taken)), overtaken || Overtakes(l, Push(taken)))
  {
    hide HasAuthOk, HasUpdate, Opening, ReplyAfterOpening, Sent;
    PushMoves(l, taken);
    OneMore(Sent(l), Msg(SystemUpdate, None), overtaken);
  }

  lemma BeginKeepsStage(l: Link, answer: Answer, overtaken: bool)
    requires Stage(l, overtaken) && Enabled(l, Begin(answer))
    ensures Stage(Do(l, Begin(answer)), overtaken)
  {
    assert Arriving(Do(l, Begin(answer))) == Arriving(l);
    NoAuthOkYet(Arriving(l));
    hide HasAuthOk, HasUpdate, Opening, ReplyAfterOpening, Arriving;
  }

  lemma NoAuthOkYet(ms: seq<Msg>)
    ensures Opening(ms) ==> !HasAuthOk(ms)
  {
  }

  lemma StepKeepsStage(l: Link, step: Step, overtaken: bool)
    requires Stage(l, overtaken) && Enabled(l, step)
    ensures Stage(Do(l, step), overtaken || Overtakes(l, step))
  {
    hide HasAuthOk, HasUpdate, Opening, ReplyAfterOpening, Sent, Replies, Queued;
    match step
    case Send(taken) => SendKeepsStage(l, taken, overtaken);
    case Take => PumpKeepsStage(l, step, overtaken);
    case WriteOk => PumpKeepsStage(l, step, overtaken);
    case WriteFails => PumpKeepsStage(l, step, overtaken);
    case StopPump => PumpKeepsStage(l, step, overtaken);
    case Push(taken) => PushKeepsStage(l, taken, overtaken);
    case Begin(answer) => BeginKeepsStage(l, answer, overtaken);
    case _ => NothingMoves(l, step);
  }

  lemma {:induction false} StageAlways(steps: seq<Step>)
    requires Run(Open(true), steps).Some?
    ensures Stage(Run(Open(true), steps).value, Overtaken(Open(true), steps))
  {
    if steps == [] {
    } else {
      StageAlways(steps[..|steps| - 1]);
      StepKeepsStage(Run(Open(true), steps[..|steps| - 1]).value, steps[|steps| - 1],
                     Overtaken(Open(true), steps[..|steps| - 1]));
      hide Stage, Overtakes;
    }
    hide Do, Enabled;
  }

  /** Unless the connection is done, its first message is the greeting. */
  predicate Greeted(l: Link) {
    && (l.pump.Stopped? ==> l.done)
    && (l.done || (Sent(l) == [] && l.pending == [Greeting(l.tokenMode)] && l.busy.None? && l.pump.NotStarted?)
        || (Sent(l) != [] && Sent(l)[0] == Greeting(l.tokenMode)))
  }

  lemma StepKeepsGreeting(l: Link, step: Step)
    requires Greeted(l) && Enabled(l, step)
    ensures Greeted(Do(l, step)) && Do(l, step).tokenMode == l.tokenMode
  {
    hide Sent, Replies;
    match step
    case Send(taken) => SendMoves(l, taken);
    case Begin(answer) => BeginMoves(l, answer);
    case Take => TakeMoves(l);
    case WriteOk => WriteMoves(l);
    case WriteFails => FailedWriteMoves(l);
    case Push(taken) => PushMoves(l, taken);
    case _ => NothingMoves(l, step);
  }

  lemma {:induction false} GreetingFirst(tokenMode: bool, steps: seq<Step>)
    requires Run(Open(tokenMode), steps).Some?
    ensures Greeted(Run(Open(tokenMode), steps).value) && Run(Open(tokenMode), steps).value.tokenMode == tokenMode
  {
    if steps == [] {
    } else {
      GreetingFirst(tokenMode, steps[..|steps| - 1]);
      StepKeepsGreeting(Run(Open(tokenMode), steps[..|steps| - 1]).value, steps[|steps| - 1]);
      hide Greeted;
    }
    hide Do, Enabled;
  }

  /** Which correct tokens are let in. Take any run in which the agent handled one
      correct token and nothing else that is answered, and its reply has arrived:
      the handshake succeeds if and only if the demand for the token arrived first
      and no update overtook the reply. On a connection that is not closed, the
      demand always arrives first. */
  lemma HandshakeExactly(steps: seq<Step>, token: string)
    requires Run(Open(true), steps).Some?
    requires var l := Run(Open(true), steps).value; |l.owed| == 1 && l.logins == 1 && HasAuthOk(l.written)
    ensures var l := Run(Open(true), steps).value;
            && (Agreed(l.written, token)
                <==> token != "" && l.written[0].kind.AuthRequired? && !Overtaken(Open(true), steps))
            && (!l.done ==> l.written[0].kind.AuthRequired?)
  {
    var l, overtaken := Run(Open(true), steps).value, Overtaken(Open(true), steps);
    StageAlways(steps);
    GreetingFirst(true, steps);
    assert l.written <= Arriving(l);
    assert l.written[0] == Arriving(l)[0];
    Fewer(Arriving(l), l.written, overtaken);
    AnsweredExactly(l.written, overtaken, token);
    hide Run, Overtaken, HasAuthOk, ReplyAfterOpening, Agreed, Opening;
  }

  lemma AnsweredExactly(ms: seq<Msg>, overtaken: bool, token: string)
    requires ReplyAfterOpening(ms, overtaken)
    ensures Agreed(ms, token) <==> token != "" && ms[0].kind.AuthRequired? && !overtaken
  {
    var k :| 0 <= k < |ms| && ms[k].kind.AuthOk? && Opening(ms[..k]) && HasUpdate(ms[..k]) == overtaken;
    assert forall i | 0 <= i < k :: ms[i] == ms[..k][i];
  }

  /** An agent without a token lets everybody in: on a connection that is not
      closed, whatever has arrived begins with the anonymous greeting. */
  lemma AnonymousIsLetIn(steps: seq<Step>, token: string)
    requires Run(Open(false), steps).Some?
    requires !Run(Open(false), steps).value.done && Run(Open(false), steps).value.written != []
    ensures Agreed(Run(Open(false), steps).value.written, token)
  {
    GreetingFirst(false, steps);
    var l := Run(Open(false), steps).value;
    assert l.written[0] == Sent(l)[0];
    hide Run;
  }

  /** It does happen that an update overtakes the reply: a periodic update queued
      between the authentication and its reply turns a correct token away. */
  lemma CorrectTokenCanBeTurnedAway(id: MsgId, token: string)
    ensures exists steps ::
              && Run(Open(true), steps).Some?
              && Run(Open(true), steps).value.authed
              && Run(Open(true), steps).value.owed == [Msg(AuthOk, Some(id))]
              && Overtaken(Open(true), steps)
              && Run(Open(true), steps).value.written
                 == [Msg(AuthRequired, None), Msg(SystemUpdate, None), Msg(AuthOk, Some(id))]
              && !Agreed(Run(Open(true), steps).value.written, token)
  {
    hide Run, Agreed, Overtaken;
    var steps, l := OvertakenRun(id);
    WrittenThree(Msg(AuthRequired, None), Msg(SystemUpdate, None), Msg(AuthOk, Some(id)), token);
    WrittenThree(Msg(AuthRequired, None), Msg(SystemUpdate, None), Msg(AuthOk, Some(id)), "token");
    assert l.written[2].kind.AuthOk?;
    HandshakeExactly(steps, "token");
  }

  lemma OvertakenRun(id: MsgId) returns (steps: seq<Step>, l: Link)
    ensures Run(Open(true), steps) == Some(l)
    ensures l.authed && l.owed == [Msg(AuthOk, Some(id))] && l.logins == 1
    ensures l.written == [Msg(AuthRequired, None), Msg(SystemUpdate, None), Msg(AuthOk, Some(id))]
  {
    hide Run;
    var greeting, update, welcome := Msg(AuthRequired, None), Msg(SystemUpdate, None), Msg(AuthOk, Some(id));
    steps, l := AfterGreeting();
    steps, l := Proceed(Open(true), steps, l, Receive(Request(id, AuthRight)));
    steps, l := Proceed(Open(true), steps, l, Begin(Succeeds));
    assert l.pending == [welcome, Msg(AgentInfo, None)] && l.owed == [] + [welcome];
    steps, l := Proceed(Open(true), steps, l, Push(true));
    OneQueued(update);
    steps, l := Proceed(Open(true), steps, l, Send(true));
    TwoQueued(update, welcome);
    assert l.queue == [update, welcome];
    steps, l := DeliverTwo(Open(true), steps, l, update, welcome);
    assert l.written == [greeting, update, welcome];
  }

  lemma OneQueued(m: Msg)
    ensures [] + [m] == [m]
  {
  }

  lemma TwoQueued(a: Msg, b: Msg)
    ensures [a] + [b] == [a, b] && [a, b][0] == a && [a, b][1..] == [b] && [b][1..] == []
  {
  }

  lemma WrittenThree(a: Msg, b: Msg, c: Msg, token: string)
    requires a.kind.AuthRequired? && b.kind.SystemUpdate?
    ensures [a] + [b] + [c] == [a, b, c]
    ensures !Agreed([a, b, c], token)
  {
    forall k | 0 < k < 3 && [a, b, c][k].kind.AuthOk?
      ensures !(forall i | 0 < i < k :: [a, b, c][i].kind.AgentInfo?)
    {
      assert k == 2 && [a, b, c][1] == b;
    }
  }

  /** The write pump delivers the two queued messages. */
  lemma DeliverTwo(start: Link, steps: seq<Step>, l: Link, a: Msg, b: Msg) returns (more: seq<Step>, m: Link)
    requires Run(start, steps) == Some(l) && l.queue == [a, b] && l.flight.None? && !l.dead && l.pump.Running?
    ensures Run(start, more) == Some(m)
    ensures m == l.(queue := [], written := l.written + [a] + [b])
  {
    TwoQueued(a, b);
    more, m := Proceed(start, steps, l, Take);
    more, m := Proceed(start, more, m, WriteOk);
    more, m := Proceed(start, more, m, Take);
    more, m := Proceed(start, more, m, WriteOk);
    hide Run;
  }

  lemma Proceed(start: Link, steps: seq<Step>, l: Link, step: Step) returns (more: seq<Step>, m: Link)
    requires Run(start, steps) == Some(l) && Enabled(l, step)
    ensures m == Do(l, step) && Run(start, more) == Some(m)
  {
    Extend(start, steps, l, step);
    more, m := steps + [step], Do(l, step);
  }

  /** A connection whose greeting has been written. */
  lemma AfterGreeting() returns (steps: seq<Step>, l: Link)
    ensures Run(Open(true), steps) == Some(l)
    ensures l == Open(true).(pending := [], written := [Msg(AuthRequired, None)], pump := Running)
  {
    First(Open(true), Send(true));
    steps, l := [Send(true)], Do(Open(true), Send(true));
    assert l.queue == [Msg(AuthRequired, None)];
    steps, l := Proceed(Open(true), steps, l, StartPumps);
    steps, l := Proceed(Open(true), steps, l, Take);
    steps, l := Proceed(Open(true), steps, l, WriteOk);
    assert l.written == [Msg(AuthRequired, None)];
    hide Run;
  }
}
