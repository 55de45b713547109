/** Requests and responses of the control center: any number of callers wait on
    the pending table while any number of read pumps deliver into it. */
module Correlation {
  import opened Common
  import Link = AgentLink

  /** A message read from an agent; the serial number tells equal messages apart. */
  datatype Incoming = Incoming(serial: nat, id: MsgId, kind: Link.Kind)

  datatype Outcome = Answer(msg: Incoming) | NotSent | TimedOut | ShutDown

  datatype Phase = Waiting | Deciding(outcome: Outcome) | Returned(outcome: Outcome)

  /** One SendRequest: its one-place channel and how far it is. */
  datatype Call = Call(box: Option<Incoming>, phase: Phase)

  datatype State = State(
    calls: map<MsgId, Call>,
    pending: set<MsgId>,
    held: map<nat, Incoming>,    // per pump: a message whose request was found
    forwarded: seq<Incoming>,    // given to the callback
    next: nat)

  datatype Step =
    | Start(id: MsgId)
    | Decide(id: MsgId, outcome: Outcome)
    | TakeAnswer(id: MsgId)
    | Finish(id: MsgId)
    | Receive(pump: nat, id: MsgId, kind: Link.Kind)
    | Put(pump: nat)
    | CloseAll

  // ------------------------------------------------------------ the pending table

  function Registered(pending: set<MsgId>, id: MsgId): set<MsgId> {
    pending + {id}
  }

  function Forgotten(pending: set<MsgId>, id: MsgId): set<MsgId> {
    pending - {id}
  }

  predicate Awaited(pending: set<MsgId>, id: MsgId) {
    id.text != "" && id in pending
  }

  class PendingTable {
    var pending: set<MsgId>

    method Register(id: MsgId)
      modifies this
      ensures pending == Registered(old(pending), id)
    {
      pending := pending + {id};
    }

    method Forget(id: MsgId)
      modifies this
      ensures pending == Forgotten(old(pending), id)
    {
      pending := pending - {id};
    }

    /** Whether a message answers a waiting request; otherwise it goes to the callback. */
    method Matches(msg: Incoming) returns (found: bool)
      ensures found == Awaited(pending, msg.id) == (msg.id.text != "" && msg.id in pending)
    {
      if msg.id.text == "" {
        return false;
      }
      return msg.id in pending;
    }
  }

  // -------------------------------------------------------------- the transitions

  predicate Enabled(s: State, step: Step) {
    match step
    case Start(id) => id !in s.calls && id.text != ""
    case Decide(id, outcome) => id in s.calls && s.calls[id].phase.Waiting? && !outcome.Answer?
    case TakeAnswer(id) => id in s.calls && s.calls[id].phase.Waiting? && s.calls[id].box.Some?
    case Finish(id) => id in s.calls && s.calls[id].phase.Deciding?
    case Receive(pump, _, _) => pump !in s.held
    case Put(pump) => pump in s.held && s.held[pump].id in s.calls
    case CloseAll => true
  }

  function Do(s: State, step: Step): State
    requires Enabled(s, step)
  {
    match step
    case Start(id) => s.(calls := s.calls[id := Call(None, Waiting)], pending := Registered(s.pending, id))
    case Decide(id, outcome) => s.(calls := s.calls[id := s.calls[id].(phase := Deciding(outcome))])
    case TakeAnswer(id) => s.(calls := s.calls[id := Call(None, Deciding(Answer(s.calls[id].box.value)))])
    case Finish(id) =>
      s.(calls := s.calls[id := s.calls[id].(phase := Returned(s.calls[id].phase.outcome))],
         pending := Forgotten(s.pending, id))
    case Receive(pump, id, kind) =>
      var msg := Incoming(s.next, id, kind);
      if Awaited(s.pending, id) then s.(held := s.held[pump := msg], next := s.next + 1)
      else s.(forwarded := s.forwarded + [msg], next := s.next + 1)
    case Put(pump) =>
      var msg := s.held[pump];
      var call := s.calls[msg.id];
      s.(held := s.held - {pump},
         calls := if call.box.None? then s.calls[msg.id := call.(box := Some(msg))] else s.calls)
    case CloseAll => s.(pending := {})
  }

  function Run(steps: seq<Step>): Option<State> {
    if steps == [] then Some(State(map[], {}, map[], [], 0))
    else match Run(steps[..|steps| - 1])
      case None => None
      case Some(s) => if Enabled(s, steps[|steps| - 1]) then Some(Do(s, steps[|steps| - 1])) else None
  }

  // ------------------------------------------------------------- where messages go

  function AnswerOf(c: Call): Option<Incoming> {
    match c.phase
    case Waiting => None
    case Deciding(out) => if out.Answer? then Some(out.msg) else None
    case Returned(out) => if out.Answer? then Some(out.msg) else None
  }

  /** A place where a received message can be. */
  datatype Place = Held(pump: nat) | Box(id: MsgId) | Answered(id: MsgId) | Forwarded(index: nat)

  function At(s: State, p: Place): Option<Incoming> {
    match p
    case Held(pump) => Get(s.held, pump)
    case Box(id) => if id in s.calls then s.calls[id].box else None
    case Answered(id) => if id in s.calls then AnswerOf(s.calls[id]) else None
    case Forwarded(i) => if i < |s.forwarded| then Some(s.forwarded[i]) else None
  }

  /** The request a place belongs to, if the place is a request's. */
  predicate Belongs(s: State, p: Place) {
    match p
    case Held(pump) => pump in s.held ==> s.held[pump].id in s.calls
    case Box(id) => At(s, p).Some? ==> At(s, p).value.id == id
    case Answered(id) => At(s, p).Some? ==> At(s, p).value.id == id
    case Forwarded(_) => true
  }

  /** Every message is in one place only, and a request's messages carry its ID;
      finished requests leave no pending entry. */
  ghost predicate Inv(s: State) {
    && (forall p :: At(s, p).Some? ==> At(s, p).value.serial < s.next)
    && (forall p, q :: At(s, p).Some? && At(s, q).Some? && At(s, p).value.serial == At(s, q).value.serial ==> p == q)
    && (forall p :: Belongs(s, p))
    && (forall id | id in s.pending :: id in s.calls)
    && (forall id | id in s.calls && s.calls[id].phase.Returned? :: id !in s.pending)
  }

  /** Each place after a step holds what one place held before, or the new message. */
  function Origin(s: State, step: Step, p: Place): Place
    requires Enabled(s, step)
  {
    match step
    case TakeAnswer(id) => if p == Answered(id) then Box(id) else p
    case Put(pump) => if p == Box(s.held[pump].id) && s.calls[s.held[pump].id].box.None? then Held(pump) else p
    case _ => p
  }

  predicate IsNew(s: State, step: Step, p: Place)
    requires Enabled(s, step)
  {
    step.Receive? && p == (if Awaited(s.pending, step.id) then Held(step.pump) else Forwarded(|s.forwarded|))
  }

  lemma PlacesMove(s: State, step: Step, p: Place)
    requires Inv(s) && Enabled(s, step)
    ensures var t := Do(s, step);
            && (IsNew(s, step, p) ==> At(t, p) == Some(Incoming(s.next, step.id, step.kind)) && At(s, p).None?)
            && (!IsNew(s, step, p) && At(t, p).Some? ==> At(t, p) == At(s, Origin(s, step, p)))
            && Belongs(t, p)
  {
    assert Belongs(s, p) && Belongs(s, Origin(s, step, p));
  }

  lemma OriginsApart(s: State, step: Step, p: Place, q: Place)
    requires Inv(s) && Enabled(s, step) && p != q
    requires At(Do(s, step), p).Some? && At(Do(s, step), q).Some? && !IsNew(s, step, p) && !IsNew(s, step, q)
    ensures Origin(s, step, p) != Origin(s, step, q)
  {
  }

  lemma StepKeepsInv(s: State, step: Step)
    requires Inv(s) && Enabled(s, step)
    ensures Inv(Do(s, step))
  {
    var t := Do(s, step);
    assert t.next == s.next + (if step.Receive? then 1 else 0);
    forall p
      ensures At(t, p).Some? ==> At(t, p).value.serial < t.next
      ensures Belongs(t, p)
    {
      PlacesMove(s, step, p);
    }
    forall p, q | At(t, p).Some? && At(t, q).Some? && At(t, p).value.serial == At(t, q).value.serial
      ensures p == q
    {
      PlacesMove(s, step, p);
      PlacesMove(s, step, q);
      if p != q && !IsNew(s, step, p) && !IsNew(s, step, q) {
        OriginsApart(s, step, p, q);
      }
    }
  }

  lemma {:induction false} RunKeepsInv(steps: seq<Step>)
    requires Run(steps).Some?
    ensures Inv(Run(steps).value)
  {
    if steps == [] {
    } else {
      RunKeepsInv(steps[..|steps| - 1]);
      StepKeepsInv(Run(steps[..|steps| - 1]).value, steps[|steps| - 1]);
    }
  }

  /** In every interleaving: what a request returns carries that request's ID, was
      not also given to the callback, nor to any other request; and a request that
      returned, in whatever way, has no pending entry. */
  lemma AnswersMatch(steps: seq<Step>, id: MsgId)
    requires Run(steps).Some? && id in Run(steps).value.calls && Run(steps).value.calls[id].phase.Returned?
    ensures var s := Run(steps).value;
            && id !in s.pending
            && (s.calls[id].phase.outcome.Answer? ==>
                  var msg := s.calls[id].phase.outcome.msg;
                  && msg.id == id
                  && (forall i | 0 <= i < |s.forwarded| :: s.forwarded[i].serial != msg.serial)
                  && (forall other | other in s.calls && !s.calls[other].phase.Waiting? && other != id ::
                        s.calls[other].phase.outcome.Answer? ==> s.calls[other].phase.outcome.msg.serial != msg.serial))
  {
    RunKeepsInv(steps);
    var s := Run(steps).value;
    assert Belongs(s, Answered(id));
    if s.calls[id].phase.outcome.Answer? {
      var msg := s.calls[id].phase.outcome.msg;
      assert At(s, Answered(id)) == Some(msg);
      forall i | 0 <= i < |s.forwarded|
        ensures s.forwarded[i].serial != msg.serial
      {
        assert At(s, Forwarded(i)).Some? && Forwarded(i) != Answered(id);
      }
      forall other | other in s.calls && !s.calls[other].phase.Waiting? && other != id && s.calls[other].phase.outcome.Answer?
        ensures s.calls[other].phase.outcome.msg.serial != msg.serial
      {
        assert At(s, Answered(other)).Some? && Answered(other) != Answered(id);
      }
    }
  }

  // ------------------------------------------------- while and after it is pending

  /** In every run, until the manager closes: the pending table holds exactly the
      requests that have not returned. */
  lemma {:induction false} PendingExactly(steps: seq<Step>, id: MsgId)
    requires Run(steps).Some? && CloseAll !in steps
    ensures var s := Run(steps).value;
            id in s.pending <==> id in s.calls && !s.calls[id].phase.Returned?
  {
    if steps == [] {
    } else {
      PendingExactly(steps[..|steps| - 1], id);
    }
  }

  /** This request has returned, with this answer if any. */
  predicate ReturnedWith(s: State, id: MsgId, answer: Option<Incoming>) {
    id in s.calls && s.calls[id].phase.Returned? && AnswerOf(s.calls[id]) == answer && id !in s.pending
  }

  lemma StepKeepsReturned(s: State, step: Step, id: MsgId, answer: Option<Incoming>)
    requires ReturnedWith(s, id, answer) && Enabled(s, step)
    ensures ReturnedWith(Do(s, step), id, answer)
  {
  }

  lemma {:induction false} ReturnedForGood(steps: seq<Step>, more: seq<Step>, id: MsgId, answer: Option<Incoming>)
    requires Run(steps).Some? && ReturnedWith(Run(steps).value, id, answer) && Run(steps + more).Some?
    ensures ReturnedWith(Run(steps + more).value, id, answer)
  {
    if more == [] {
      assert steps + more == steps;
    } else {
      var all := steps + more;
      assert all[..|all| - 1] == steps + more[..|more| - 1];
      ReturnedForGood(steps, more[..|more| - 1], id, answer);
      StepKeepsReturned(Run(steps + more[..|more| - 1]).value, more[|more| - 1], id, answer);
    }
    hide ReturnedWith, Do, Enabled;
  }

  /** A forgotten request is forgotten for good: whatever runs after it returned,
      its answer stays what it was, and any further message with its ID goes to
      the callback and changes no request. */
  lemma LateReplyIsForwarded(steps: seq<Step>, more: seq<Step>, id: MsgId, pump: nat, kind: Link.Kind)
    requires Run(steps).Some? && id in Run(steps).value.calls && Run(steps).value.calls[id].phase.Returned?
    requires Run(steps + more).Some? && Enabled(Run(steps + more).value, Receive(pump, id, kind))
    ensures var t := Run(steps + more).value; var u := Do(t, Receive(pump, id, kind));
            && id in t.calls && AnswerOf(t.calls[id]) == AnswerOf(Run(steps).value.calls[id])
            && u.calls == t.calls && u.pending == t.pending && u.held == t.held
            && u.forwarded == t.forwarded + [Incoming(t.next, id, kind)]
  {
    hide Run;
    RunKeepsInv(steps);
    ReturnedForGood(steps, more, id, AnswerOf(Run(steps).value.calls[id]));
  }

  // ------------------------------------------------------------ where answers come from

  /** A message that this pump has received in the run. */
  ghost predicate Received(steps: seq<Step>, pump: nat, msg: Incoming) {
    exists i :: 0 <= i < |steps| && steps[i] == Receive(pump, msg.id, msg.kind)
  }

  /** Whatever a place holds was received by some pump. */
  lemma {:induction false} HeldWasReceived(steps: seq<Step>, p: Place) returns (pump: nat)
    requires Run(steps).Some? && At(Run(steps).value, p).Some?
    ensures Received(steps, pump, At(Run(steps).value, p).value)
  {
    assert steps != [];
    var before, step := steps[..|steps| - 1], steps[|steps| - 1];
    var s := Run(before).value;
    var msg := At(Run(steps).value, p).value;
    RunKeepsInv(before);
    PlacesMove(s, step, p);
    if IsNew(s, step, p) {
      pump := step.pump;
      assert steps[|steps| - 1] == Receive(pump, msg.id, msg.kind);
    } else {
      pump := HeldWasReceived(before, Origin(s, step, p));
      var i :| 0 <= i < |before| && before[i] == Receive(pump, msg.id, msg.kind);
      assert steps[i] == Receive(pump, msg.id, msg.kind);
    }
    hide Inv;
  }

  // ------------------------------------------------------------ answers do arrive

  lemma Extend(steps: seq<Step>, step: Step)
    requires Run(steps).Some? && Enabled(Run(steps).value, step)
    ensures Run(steps + [step]) == Some(Do(Run(steps).value, step))
  {
    assert (steps + [step])[..|steps|] == steps;
  }

  /** A run's last step, once it has gone on. */
  lemma LastStep(steps: seq<Step>, more: seq<Step>)
    requires more != [] && Run(steps + more).Some?
    ensures var before, last := steps + more[..|more| - 1], more[|more| - 1];
            && Run(before).Some? && Enabled(Run(before).value, last)
            && Run(steps + more) == Some(Do(Run(before).value, last))
            && (forall s :: s in more <==> s in more[..|more| - 1] || s == last)
  {
    var all := steps + more;
    assert all[..|all| - 1] == steps + more[..|more| - 1];
  }

  /** A caller that has decided returns exactly what it decided, in the rest of any run. */
  lemma {:induction false} DecisionStays(steps: seq<Step>, more: seq<Step>, id: MsgId)
    requires Run(steps).Some? && id in Run(steps).value.calls && Run(steps).value.calls[id].phase.Deciding?
    requires Run(steps + more).Some?
    ensures var out, t := Run(steps).value.calls[id].phase.outcome, Run(steps + more).value;
            id in t.calls && t.calls[id].phase == if Finish(id) in more then Returned(out) else Deciding(out)
  {
    if more == [] {
      assert steps + more == steps;
    } else {
      LastStep(steps, more);
      DecisionStays(steps, more[..|more| - 1], id);
    }
  }

  /** A caller that waits no longer without an answer returns the outcome it saw. */
  lemma OutcomeIsReturned(steps: seq<Step>, id: MsgId, outcome: Outcome, more: seq<Step>)
    requires Run(steps).Some? && Enabled(Run(steps).value, Decide(id, outcome))
    requires Run(steps + [Decide(id, outcome)] + more).Some?
    ensures var t := Run(steps + [Decide(id, outcome)] + more).value;
            && id in t.calls && AnswerOf(t.calls[id]).None?
            && (Finish(id) in more ==> t.calls[id].phase == Returned(outcome))
  {
    Extend(steps, Decide(id, outcome));
    DecisionStays(steps + [Decide(id, outcome)], more, id);
    hide Run;
  }

  /** The first response put for a waiting caller stays in its box until it takes it:
      later ones are dropped. */
  lemma {:induction false} FirstResponseStays(steps: seq<Step>, more: seq<Step>, id: MsgId, msg: Incoming)
    requires Run(steps).Some? && id in Run(steps).value.calls && Run(steps).value.calls[id] == Call(Some(msg), Waiting)
    requires Run(steps + more).Some? && forall s | s in more :: !(s.Decide? && s.id == id)
    ensures var t := Run(steps + more).value;
            && id in t.calls
            && if TakeAnswer(id) in more then
                 t.calls[id].phase == if Finish(id) in more then Returned(Answer(msg)) else Deciding(Answer(msg))
               else t.calls[id] == Call(Some(msg), Waiting) && Enabled(t, TakeAnswer(id)) && Finish(id) !in more
  {
    if more == [] {
      assert steps + more == steps;
    } else {
      LastStep(steps, more);
      FirstResponseStays(steps, more[..|more| - 1], id, msg);
    }
    hide Run;
  }

  /** In every run: once a pump puts a response for a caller that waits with an empty
      box, that caller can take it at any time, keeps waiting for nothing else, and
      returns exactly that response. */
  lemma FirstResponseWins(steps: seq<Step>, pump: nat, more: seq<Step>)
    requires Run(steps).Some? && Enabled(Run(steps).value, Put(pump))
    requires var s := Run(steps).value; s.calls[s.held[pump].id] == Call(None, Waiting)
    requires Run(steps + [Put(pump)] + more).Some?
    requires forall s | s in more :: !(s.Decide? && s.id == Run(steps).value.held[pump].id)
    ensures var msg := Run(steps).value.held[pump]; var t := Run(steps + [Put(pump)] + more).value;
            && msg.id in t.calls
            && if TakeAnswer(msg.id) in more then
                 t.calls[msg.id].phase == if Finish(msg.id) in more then Returned(Answer(msg)) else Deciding(Answer(msg))
               else t.calls[msg.id] == Call(Some(msg), Waiting) && Enabled(t, TakeAnswer(msg.id))
  {
    Extend(steps, Put(pump));
    FirstResponseStays(steps + [Put(pump)], more, Run(steps).value.held[pump].id, Run(steps).value.held[pump]);
    hide Run;
  }

  /** From any reachable state before closing: a response that a free pump receives for
      a caller that waits with an empty box is what that caller returns, and the
      callback does not see it. */
  lemma ResponseIsReturned(steps: seq<Step>, id: MsgId, pump: nat, kind: Link.Kind)
    requires Run(steps).Some? && CloseAll !in steps && pump !in Run(steps).value.held
    requires id in Run(steps).value.calls && Run(steps).value.calls[id] == Call(None, Waiting)
    ensures var s := Run(steps).value; var run := [Receive(pump, id, kind), Put(pump), TakeAnswer(id), Finish(id)];
            && Run(steps + run).Some?
            && var t := Run(steps + run).value;
               && t.calls == s.calls[id := Call(None, Returned(Answer(Incoming(s.next, id, kind))))]
               && t.forwarded == s.forwarded && t.held == s.held && t.pending == s.pending - {id}
  {
    RunKeepsInv(steps);
    PendingExactly(steps, id);
    NamedCalls(steps, id);
    var s := Run(steps).value;
    hide Run, Inv;
    Extend(steps, Receive(pump, id, kind));
    Extend(steps + [Receive(pump, id, kind)], Put(pump));
    Extend(steps + [Receive(pump, id, kind)] + [Put(pump)], TakeAnswer(id));
    Extend(steps + [Receive(pump, id, kind)] + [Put(pump)] + [TakeAnswer(id)], Finish(id));
    assert steps + [Receive(pump, id, kind), Put(pump), TakeAnswer(id), Finish(id)]
           == steps + [Receive(pump, id, kind)] + [Put(pump)] + [TakeAnswer(id)] + [Finish(id)];
  }

  lemma {:induction false} NamedCalls(steps: seq<Step>, id: MsgId)
    requires Run(steps).Some? && id in Run(steps).value.calls
    ensures id.text != ""
  {
    if steps == [] {
    } else {
      var before := steps[..|steps| - 1];
      if id in Run(before).value.calls {
        NamedCalls(before, id);
      }
    }
  }

  /** Closing forgets every request made so far: in the rest of any run, what is still
      received for one of them goes to the callback. */
  lemma {:induction false} ClosingForgetsAll(steps: seq<Step>, more: seq<Step>, id: MsgId)
    requires Run(steps).Some? && id in Run(steps).value.calls && Run(steps + [CloseAll] + more).Some?
    ensures var t := Run(steps + [CloseAll] + more).value;
            && id in t.calls && id !in t.pending
            && forall pump, kind | pump !in t.held ::
                 Do(t, Receive(pump, id, kind)) == t.(forwarded := t.forwarded + [Incoming(t.next, id, kind)], next := t.next + 1)
  {
    if more == [] {
      assert steps + [CloseAll] + more == steps + [CloseAll];
      Extend(steps, CloseAll);
    } else {
      LastStep(steps + [CloseAll], more);
      ClosingForgetsAll(steps, more[..|more| - 1], id);
    }
    hide Run;
  }
}
