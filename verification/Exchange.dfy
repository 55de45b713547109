/** Both ends of the requests as one system: the control center's callers and read
    pumps, the connections, the requests on their way, and the agents. */
module Exchange {
  import opened Common
  import Client = Correlation
  import Agent = AgentLink

  /** A request on its way, over the connection of a read pump. */
  datatype Sending = Sending(pump: nat, body: Agent.Body)

  datatype State = State(
    client: Client.State,
    links: map<nat, Agent.Link>,      // the agents' ends, by the control center's read pump
    transit: map<MsgId, Sending>,
    sent: map<MsgId, Agent.Body>,     // the requests sent so far
    taken: set<MsgId>,                // their IDs, and those that agents numbered messages with
    read: map<nat, nat>)              // how many messages of a connection were received

  datatype Step =
    | Connect(pump: nat, tokenMode: bool)
    | OfClient(local: Client.Step)                    // anything but receiving
    | Transmit(id: MsgId, pump: nat, body: Agent.Body)
    | Arrive(id: MsgId)
    | Number(id: MsgId, pump: nat, body: Agent.Body)  // a message without an ID gets one from the agent
    | OfAgent(pump: nat, remote: Agent.Step)          // anything but receiving
    | Deliver(pump: nat)
    | Skip(pump: nat)                                 // read by the handshake, or lost

  /** The message that a read pump receives next, with the empty ID if it has none. */
  function Next(s: State, pump: nat): Client.Step
    requires pump in s.links && Get(s.read, pump).Some? && s.read[pump] < |s.links[pump].written|
  {
    var m := s.links[pump].written[s.read[pump]];
    Client.Receive(pump, if m.id.Some? then m.id.value else MsgId(""), m.kind)
  }

  predicate HasNext(s: State, pump: nat) {
    pump in s.links && pump in s.read && s.read[pump] < |s.links[pump].written|
  }

  predicate Accepts(s: State, pump: nat, id: MsgId, body: Agent.Body) {
    pump in s.links && Agent.Enabled(s.links[pump], Agent.Receive(Agent.Request(id, body)))
  }

  /** Fresh IDs: a caller starts with one that nobody has taken, and so does an
      agent that numbers a message. A request is sent once, by its own caller. */
  predicate Enabled(s: State, step: Step) {
    match step
    case Connect(p, _) => p !in s.links
    case OfClient(local) =>
      !local.Receive? && Client.Enabled(s.client, local) && (local.Start? ==> local.id !in s.taken)
    case Transmit(id, p, _) =>
      id in s.client.calls && s.client.calls[id].phase.Waiting? && id !in s.taken && p in s.links
    case Arrive(id) => id in s.transit && Accepts(s, s.transit[id].pump, id, s.transit[id].body)
    case Number(id, p, body) => id.text != "" && id !in s.taken && id !in s.client.calls && Accepts(s, p, id, body)
    case OfAgent(p, remote) => p in s.links && !remote.Receive? && Agent.Enabled(s.links[p], remote)
    case Deliver(p) => HasNext(s, p) && Client.Enabled(s.client, Next(s, p))
    case Skip(p) => HasNext(s, p)
  }

  function SetLink(s: State, p: nat, remote: Agent.Step): State
    requires p in s.links && Agent.Enabled(s.links[p], remote)
  {
    s.(links := s.links[p := Agent.Do(s.links[p], remote)])
  }

  function Do(s: State, step: Step): State
    requires Enabled(s, step)
  {
    match step
    case Connect(p, tokenMode) => s.(links := s.links[p := Agent.Open(tokenMode)], read := s.read[p := 0])
    case OfClient(local) => s.(client := Client.Do(s.client, local))
    case Transmit(id, p, body) => 
      s.(transit := s.transit[id := Sending(p, body)], sent := s.sent[id := body], taken := s.taken + {id})
    case Arrive(id) =>
      SetLink(s, s.transit[id].pump, Agent.Receive(Agent.Request(id, s.transit[id].body))).(transit := s.transit - {id})
    case Number(id, p, body) => SetLink(s, p, Agent.Receive(Agent.Request(id, body))).(taken := s.taken + {id})
    case OfAgent(p, remote) => SetLink(s, p, remote)
    case Deliver(p) => s.(client := Client.Do(s.client, Next(s, p)), read := s.read[p := s.read[p] + 1])
    case Skip(p) => s.(read := s.read[p := s.read[p] + 1])
  }

  function Run(steps: seq<Step>): Option<State> {
    if steps == [] then Some(State(Client.State(map[], {}, map[], [], 0), map[], map[], map[], {}, map[]))
    else match Run(steps[..|steps| - 1])
      case None => None
      case Some(s) => if Enabled(s, steps[|steps| - 1]) then Some(Do(s, steps[|steps| - 1])) else None
  }

  // ------------------------------------------------------------ where requests are

  /** A place where a request, or the reply it is owed, can be. */
  datatype Site = InTransit(id: MsgId) | Busy(pump: nat) | Owed(pump: nat, index: nat)

  function IdAt(s: State, site: Site): Option<MsgId> {
    match site
    case InTransit(id) => if id in s.transit then Some(id) else None
    case Busy(p) => if p in s.links then Unbegun(s.links[p]) else None
    case Owed(p, i) => if p in s.links && i < |s.links[p].owed| then s.links[p].owed[i].id else None
  }

  /** The request that was read and is not yet owed a reply. */
  function Unbegun(l: Agent.Link): Option<MsgId> {
    if l.busy.Some? && !l.begun then Some(l.busy.value.id) else None
  }

  /** Every request is in one place at most, and its ID is taken. */
  ghost predicate Single(s: State) {
    && (forall a, b :: IdAt(s, a).Some? && IdAt(s, a) == IdAt(s, b) ==> a == b)
    && (forall a :: IdAt(s, a).Some? ==> IdAt(s, a).value in s.taken)
  }

  /** The place whose request a place holds after a step; none for a new request. */
  function Origin(s: State, step: Step, site: Site): Option<Site>
    requires Enabled(s, step)
  {
    match step
    case Transmit(id, _, _) => if site == InTransit(id) then None else Some(site)
    case Number(_, p, _) => if site == Busy(p) then None else Some(site)
    case Arrive(id) => if site == Busy(s.transit[id].pump) then Some(InTransit(id)) else Some(site)
    case OfAgent(p, remote) =>
      if remote.Begin? && site == Owed(p, |s.links[p].owed|) then Some(Busy(p)) else Some(site)
    case _ => Some(site)
  }

  /** This is what some handler of the request replies, on an agent with or without a token. */
  ghost predicate RepliesTo(m: Agent.Msg, req: Agent.Request, tokenMode: bool) {
    exists l: Agent.Link, answer :: l.tokenMode == tokenMode && Agent.NeedsReply(req) && m == Agent.Reply(l, req, answer)
  }

  /** On the agent, only beginning turns a read request into an owed reply. */
  lemma AgentMoves(l: Agent.Link, remote: Agent.Step)
    requires Agent.Enabled(l, remote) && !remote.Receive?
    ensures var t := Agent.Do(l, remote);
            && t.tokenMode == l.tokenMode
            && (Unbegun(t).Some? ==> Unbegun(t) == Unbegun(l) && t.busy == l.busy && !remote.Begin?)
            && (t.owed == l.owed
                || (remote.Begin? && |t.owed| == |l.owed| + 1 && t.owed[..|l.owed|] == l.owed
                    && Unbegun(l) == t.owed[|l.owed|].id && RepliesTo(t.owed[|l.owed|], l.busy.value, l.tokenMode)))
  {
    hide Agent.Do;
    var t := Agent.Do(l, remote);
    if remote.Begin? {
      Agent.BeginIs(l, remote.answer);
    } else {
      Agent.OnlyBeginDecides(l, remote);
    }
    if t.busy.Some? && !t.begun {
      Agent.NotBegun(l, remote);
    }
  }

  /** A new message is read: it is the connection's one unbegun request. */
  lemma AgentReads(l: Agent.Link, req: Agent.Request)
    requires Agent.Enabled(l, Agent.Receive(req))
    ensures var t := Agent.Do(l, Agent.Receive(req));
            && Unbegun(t) == Some(req.id) && t.busy == Some(req) && Unbegun(l).None?
            && t.owed == l.owed && t.written == l.written && t.tokenMode == l.tokenMode
  {
  }

  lemma SitesMove(s: State, step: Step, site: Site)
    requires Enabled(s, step) && IdAt(Do(s, step), site).Some?
    ensures match Origin(s, step, site)
            case Some(from) => IdAt(Do(s, step), site) == IdAt(s, from)
            case None => IdAt(Do(s, step), site).value !in s.taken && IdAt(Do(s, step), site).value in Do(s, step).taken
    ensures s.taken <= Do(s, step).taken
  {
    hide Agent.Do, Agent.Enabled, Client.Do, Client.Enabled;
    match step
    case Arrive(id) => AgentReads(s.links[s.transit[id].pump], Agent.Request(id, s.transit[id].body));
    case Number(id, p, body) => AgentReads(s.links[p], Agent.Request(id, body));
    case OfAgent(p, remote) => AgentMoves(s.links[p], remote);
    case _ =>
  }

  lemma OriginsApart(s: State, step: Step, a: Site, b: Site)
    requires Enabled(s, step) && IdAt(Do(s, step), a).Some? && IdAt(Do(s, step), b).Some? && a != b
    ensures Origin(s, step, a) != Origin(s, step, b)
  {
    hide Agent.Do, Agent.Enabled, Client.Do, Client.Enabled;
    match step
    case OfAgent(p, remote) => AgentMoves(s.links[p], remote);
    case _ =>
  }

  lemma StepKeepsSingle(s: State, step: Step)
    requires Single(s) && Enabled(s, step)
    ensures Single(Do(s, step))
  {
    hide Do, Enabled, IdAt, Origin;
    var t := Do(s, step);
    forall a | IdAt(t, a).Some?
      ensures IdAt(t, a).value in t.taken
    {
      SitesMove(s, step, a);
    }
    forall a, b | IdAt(t, a).Some? && IdAt(t, a) == IdAt(t, b)
      ensures a == b
    {
      SitesMove(s, step, a);
      SitesMove(s, step, b);
      if a != b {
        OriginsApart(s, step, a, b);
      }
    }
  }

  // ------------------------------------------------------- what requests say

  /** A sent request says at every place what its caller sent; owed a reply, it is
      owed what its handler replies to that. */
  ghost predicate SaysWhatWasSent(s: State, site: Site) {
    IdAt(s, site).Some? && IdAt(s, site).value in s.sent ==>
      var req := Agent.Request(IdAt(s, site).value, s.sent[IdAt(s, site).value]);
      match site
      case InTransit(id) => s.transit[id].body == req.body
      case Busy(p) => s.links[p].busy == Some(req)
      case Owed(p, i) => RepliesTo(s.links[p].owed[i], req, s.links[p].tokenMode)
  }

  /** What callers sent stays where it is recorded, under IDs that are taken; and a
      caller's ID is only taken by sending its request. */
  ghost predicate Recorded(s: State) {
    && (forall id | id in s.sent :: id in s.taken)
    && (forall id | id in s.client.calls && id in s.taken :: id in s.sent)
    && (forall site :: SaysWhatWasSent(s, site))
  }

  lemma StepKeepsRecord(s: State, step: Step)
    requires Single(s) && Recorded(s) && Enabled(s, step)
    ensures var t := Do(s, step);
            && (forall id | id in t.sent :: id in t.taken)
            && (forall id | id in t.client.calls && id in t.taken :: id in t.sent)
            && (forall id | id in s.sent :: id in t.sent && t.sent[id] == s.sent[id])
            && (forall id | id in t.sent && id !in s.sent :: step.Transmit? && step.id == id && t.sent[id] == step.body)
  {
    hide Agent.Do, Agent.Enabled, Client.Enabled, IdAt, Single, SaysWhatWasSent, Client.Do;
    match step
    case OfClient(local) => CallsGrow(s.client, local);
    case Deliver(p) => CallsGrow(s.client, Next(s, p));
    case _ =>
  }

  /** Only starting a request adds a call. */
  lemma CallsGrow(c: Client.State, local: Client.Step)
    requires Client.Enabled(c, local)
    ensures forall id | id in Client.Do(c, local).calls :: id in c.calls || (local.Start? && local.id == id)
  {
  }

  /** A place that keeps its request, or takes one over, says what it said before. */
  lemma KeptRequestSays(s: State, step: Step, site: Site)
    requires Recorded(s) && Enabled(s, step) && !step.OfAgent? && !step.Number? && !step.Transmit?
    requires IdAt(Do(s, step), site).Some? && Do(s, step).sent == s.sent
    requires Origin(s, step, site).Some? && IdAt(Do(s, step), site) == IdAt(s, Origin(s, step, site).value)
    ensures SaysWhatWasSent(Do(s, step), site)
  {
    hide Agent.Do, Agent.Enabled, Client.Do, Client.Enabled, RepliesTo;
    assert SaysWhatWasSent(s, Origin(s, step, site).value);
    match step
    case Arrive(id) => AgentReads(s.links[s.transit[id].pump], Agent.Request(id, s.transit[id].body));
    case _ =>
  }

  /** So does one that an agent's own step leaves alone or begins to answer. */
  lemma AnsweredRequestSays(s: State, p: nat, remote: Agent.Step, site: Site)
    requires Recorded(s) && Enabled(s, OfAgent(p, remote))
    requires IdAt(Do(s, OfAgent(p, remote)), site).Some?
    ensures SaysWhatWasSent(Do(s, OfAgent(p, remote)), site)
  {
    hide Agent.Do, Agent.Enabled, RepliesTo;
    SitesMove(s, OfAgent(p, remote), site);
    AgentMoves(s.links[p], remote);
    assert SaysWhatWasSent(s, Origin(s, OfAgent(p, remote), site).value);
  }

  /** A request that is new on the way, or has just been numbered by an agent. */
  lemma NewRequestSays(s: State, step: Step, site: Site)
    requires Single(s) && Recorded(s) && Enabled(s, step) && (step.Number? || step.Transmit?)
    requires IdAt(Do(s, step), site).Some?
    ensures SaysWhatWasSent(Do(s, step), site)
  {
    hide Agent.Do, Agent.Enabled, RepliesTo, Single;
    SitesMove(s, step, site);
    if Origin(s, step, site).Some? {
      assert SaysWhatWasSent(s, Origin(s, step, site).value);
      OldIdIsTaken(s, Origin(s, step, site).value);
    }
    if step.Number? {
      AgentReads(s.links[step.pump], Agent.Request(step.id, step.body));
    }
  }

  lemma SiteSays(s: State, step: Step, site: Site)
    requires Single(s) && Recorded(s) && Enabled(s, step)
    ensures SaysWhatWasSent(Do(s, step), site)
  {
    hide Do, Enabled, Single, Recorded, Origin;
    if IdAt(Do(s, step), site).Some? {
      match step
      case OfAgent(p, remote) => AnsweredRequestSays(s, p, remote, site);
      case Number(_, _, _) => NewRequestSays(s, step, site);
      case Transmit(_, _, _) => NewRequestSays(s, step, site);
      case _ =>
        SitesMove(s, step, site);
        OriginKept(s, step, site);
        KeptRequestSays(s, step, site);
    }
  }

  lemma OriginKept(s: State, step: Step, site: Site)
    requires Enabled(s, step) && !step.Number? && !step.Transmit?
    ensures Origin(s, step, site).Some? && Do(s, step).sent == s.sent
  {
    hide Agent.Do, Agent.Enabled, Client.Do, Client.Enabled;
  }

  lemma OldIdIsTaken(s: State, site: Site)
    requires Single(s)
    ensures IdAt(s, site).Some? ==> IdAt(s, site).value in s.taken
  {
  }

  // -------------------------------------------------------- where responses come from

  /** Some agent wrote this message. */
  ghost predicate Wrote(s: State, msg: Client.Incoming) {
    exists p :: p in s.links && Agent.Msg(msg.kind, Some(msg.id)) in s.links[p].written
  }

  /** Both ends are in order, and whatever the control center holds under an ID was
      written by an agent. */
  ghost predicate Inv(s: State) {
    && Single(s) && Recorded(s)
    && Client.Inv(s.client)
    && (forall id | id in s.client.calls :: id.text != "")
    && (forall p | p in s.links :: Agent.OnlyOwed(s.links[p]))
    && (forall place :: Genuine(s, place))
  }

  ghost predicate Genuine(s: State, place: Client.Place) {
    Client.At(s.client, place).Some? && Client.At(s.client, place).value.id.text != ""
    ==> Wrote(s, Client.At(s.client, place).value)
  }

  lemma WrittenGrows(l: Agent.Link, remote: Agent.Step)
    requires Agent.Enabled(l, remote)
    ensures l.written <= Agent.Do(l, remote).written
  {
    hide Agent.Queued, Agent.Pushed, Agent.Returned, Agent.Replies, Agent.Reply, Agent.Open;
    match remote
    case Send(taken) => Agent.SendIs(l, taken);
    case Return => Agent.ReturnedIs(l, l.busy.value);
    case Push(taken) => Agent.PushedIs(l, taken);
    case _ =>
  }

  /** The agent's end of a connection only changes by its own steps. */
  lemma LinksMove(s: State, step: Step, p: nat)
    requires Enabled(s, step) && p in Do(s, step).links
    ensures var l := Do(s, step).links[p];
            if p !in s.links then step.Connect? && l == Agent.Open(step.tokenMode)
            else l == s.links[p] || exists remote :: Agent.Enabled(s.links[p], remote) && l == Agent.Do(s.links[p], remote)
    ensures s.links.Keys <= Do(s, step).links.Keys
  {
    hide Agent.Do, Agent.Enabled, Client.Do, Client.Enabled;
  }

  lemma StepKeepsLinks(s: State, step: Step)
    requires Inv(s) && Enabled(s, step)
    ensures forall p | p in Do(s, step).links :: Agent.OnlyOwed(Do(s, step).links[p])
    ensures forall p | p in s.links :: p in Do(s, step).links && s.links[p].written <= Do(s, step).links[p].written
  {
    hide Do, Enabled, Agent.Do, Agent.Enabled, Agent.OnlyOwed, Agent.Open, Single, Client.Inv, Genuine;
    var t := Do(s, step);
    forall p | p in t.links
      ensures Agent.OnlyOwed(t.links[p])
      ensures p in s.links ==> s.links[p].written <= t.links[p].written
    {
      LinksMove(s, step, p);
      if p !in s.links {
        GreetingOwesNothing(step.tokenMode);
      } else if t.links[p] != s.links[p] {
        var remote :| Agent.Enabled(s.links[p], remote) && t.links[p] == Agent.Do(s.links[p], remote);
        Agent.StepKeepsOwed(s.links[p], remote);
        WrittenGrows(s.links[p], remote);
      }
    }
    forall p | p in s.links
      ensures p in t.links
    {
      KeepsLink(s, step, p);
    }
  }

  lemma KeepsLink(s: State, step: Step, p: nat)
    requires Enabled(s, step) && p in s.links
    ensures p in Do(s, step).links
  {
    hide Agent.Do, Agent.Enabled, Client.Do, Client.Enabled;
  }

  lemma GreetingOwesNothing(tokenMode: bool)
    ensures Agent.OnlyOwed(Agent.Open(tokenMode))
  {
  }

  /** What a step does to the control center: one of its own steps, or none. */
  lemma ClientMoves(s: State, step: Step)
    requires Enabled(s, step)
    ensures Do(s, step).client == s.client
            || (step.OfClient? && Client.Enabled(s.client, step.local) && !step.local.Receive?
                && Do(s, step).client == Client.Do(s.client, step.local))
            || (step.Deliver? && HasNext(s, step.pump) && Client.Enabled(s.client, Next(s, step.pump))
                && Do(s, step).client == Client.Do(s.client, Next(s, step.pump)))
  {
    hide Agent.Do, Agent.Enabled, Client.Do, Client.Enabled;
  }

  lemma ClientStepKeeps(s: State, step: Step, local: Client.Step)
    requires Inv(s) && Enabled(s, step) && Client.Enabled(s.client, local)
    requires Do(s, step).client == Client.Do(s.client, local)
    requires local.Receive? ==> step.Deliver? && HasNext(s, step.pump) && local == Next(s, step.pump)
    ensures Client.Inv(Do(s, step).client)
    ensures forall id | id in Do(s, step).client.calls :: id.text != ""
    ensures forall place :: Genuine(Do(s, step), place)
  {
    hide Do, Enabled, Single, Agent.OnlyOwed, Client.Inv, Client.Do, Client.At, Client.Origin, Client.Enabled;
    var t := Do(s, step);
    Client.StepKeepsInv(s.client, local);
    StepKeepsLinks(s, step);
    NewCalls(s.client, local);
    forall place
      ensures Genuine(t, place)
    {
      Client.PlacesMove(s.client, local, place);
      if Client.At(t.client, place).Some? {
        if Client.IsNew(s.client, local, place) {
          Delivered(s, step.pump);
        } else {
          assert Genuine(s, Client.Origin(s.client, local, place));
        }
      }
    }
  }

  lemma NewCalls(c: Client.State, local: Client.Step)
    requires Client.Enabled(c, local)
    ensures forall id | id in Client.Do(c, local).calls :: id in c.calls || id.text != ""
  {
  }

  lemma Delivered(s: State, p: nat)
    requires HasNext(s, p)
    ensures var msg := Next(s, p);
            msg.id.text != "" ==> Agent.Msg(msg.kind, Some(msg.id)) in s.links[p].written
  {
    var m := s.links[p].written[s.read[p]];
    assert m in s.links[p].written;
    assert m.id.Some? ==> m == Agent.Msg(m.kind, Some(m.id.value));
  }

  lemma StepKeepsInv(s: State, step: Step)
    requires Inv(s) && Enabled(s, step)
    ensures Inv(Do(s, step))
  {
    hide Do, Enabled, Single, SaysWhatWasSent, Agent.OnlyOwed, Client.Inv, Client.Do, Client.At, Client.Enabled;
    StepKeepsSingle(s, step);
    StepKeepsLinks(s, step);
    StepKeepsRecord(s, step);
    forall site
      ensures SaysWhatWasSent(Do(s, step), site)
    {
      SiteSays(s, step, site);
    }
    ClientMoves(s, step);
    if Do(s, step).client == s.client {
      forall place
        ensures Genuine(Do(s, step), place)
      {
        assert Genuine(s, place);
      }
    } else if step.OfClient? {
      ClientStepKeeps(s, step, step.local);
    } else {
      ClientStepKeeps(s, step, Next(s, step.pump));
    }
  }

  lemma {:induction false} RunKeepsInv(steps: seq<Step>)
    requires Run(steps).Some?
    ensures Inv(Run(steps).value)
  {
    hide Do, Enabled;
    if steps == [] {
    } else {
      RunKeepsInv(steps[..|steps| - 1]);
      StepKeepsInv(Run(steps[..|steps| - 1]).value, steps[|steps| - 1]);
    }
  }

  /** In every interleaving, no request is handled twice, by whatever agents: no two
      of the replies owed anywhere have the same ID. */
  lemma HandledOnce(steps: seq<Step>, p: nat, i: nat, q: nat, j: nat)
    requires Run(steps).Some? && p in Run(steps).value.links && q in Run(steps).value.links
    requires i < |Run(steps).value.links[p].owed| && j < |Run(steps).value.links[q].owed|
    requires Run(steps).value.links[p].owed[i].id.Some?
    requires Run(steps).value.links[p].owed[i].id == Run(steps).value.links[q].owed[j].id
    ensures p == q && i == j
  {
    hide Run;
    RunKeepsInv(steps);
    var s := Run(steps).value;
    assert IdAt(s, Owed(p, i)) == IdAt(s, Owed(q, j));
  }

  /** In every interleaving of both ends, whatever is lost or overtaken: a request
      that is answered was handled once, as its caller sent it, and the answer is
      exactly the reply which that handler decided, on whichever connection it was. */
  lemma AnswerIsItsHandlersReply(steps: seq<Step>, id: MsgId) returns (pump: nat, index: nat)
    requires Run(steps).Some? && id in Run(steps).value.client.calls
    requires var call := Run(steps).value.client.calls[id]; !call.phase.Waiting? && call.phase.outcome.Answer?
    ensures var s := Run(steps).value; var answer := s.client.calls[id].phase.outcome.msg;
            && pump in s.links && index < |s.links[pump].owed|
            && s.links[pump].owed[index] == Agent.Msg(answer.kind, Some(id))
            && id in s.sent
            && RepliesTo(Agent.Msg(answer.kind, Some(id)), Agent.Request(id, s.sent[id]), s.links[pump].tokenMode)
            && (forall q, j | q in s.links && 0 <= j < |s.links[q].owed| && s.links[q].owed[j].id == Some(id) ::
                  q == pump && j == index)
  {
    hide Run, RepliesTo;
    RunKeepsInv(steps);
    var s := Run(steps).value;
    var answer := s.client.calls[id].phase.outcome.msg;
    assert Client.At(s.client, Client.Answered(id)) == Some(answer);
    assert Client.Belongs(s.client, Client.Answered(id)) && Genuine(s, Client.Answered(id));
    var reply := Agent.Msg(answer.kind, Some(id));
    pump :| pump in s.links && reply in s.links[pump].written;
    assert reply in Agent.Sent(s.links[pump]);
    index :| 0 <= index < |s.links[pump].owed| && s.links[pump].owed[index] == reply;
    assert IdAt(s, Owed(pump, index)) == Some(id) && SaysWhatWasSent(s, Owed(pump, index));
    forall q, j | q in s.links && 0 <= j < |s.links[q].owed| && s.links[q].owed[j].id == Some(id)
      ensures q == pump && j == index
    {
      HandledOnce(steps, q, j, pump, index);
    }
  }

  // --------------------------------------------------------- answers do arrive

  lemma Extend(steps: seq<Step>, s: State, step: Step) returns (more: seq<Step>, next: State)
    requires Run(steps) == Some(s) && Enabled(s, step)
    ensures next == Do(s, step) && Run(more) == Some(next)
  {
    more, next := steps + [step], Do(s, step);
    assert more[..|steps|] == steps;
  }

  /** An agent may take any steps of its own. */
  lemma {:induction false} AgentRuns(steps: seq<Step>, s: State, p: nat, remotes: seq<Agent.Step>, l: Agent.Link)
    returns (more: seq<Step>)
    requires Run(steps) == Some(s) && p in s.links && Agent.Run(s.links[p], remotes) == Some(l)
    requires forall i | 0 <= i < |remotes| :: !remotes[i].Receive?
    ensures Run(more) == Some(s.(links := s.links[p := l]))
  {
    hide Run;
    if remotes == [] {
      more := steps;
      assert s == s.(links := s.links[p := s.links[p]]);
    } else {
      var before, last := remotes[..|remotes| - 1], remotes[|remotes| - 1];
      var m := Agent.Run(s.links[p], before).value;
      more := AgentRuns(steps, s, p, before, m);
      var next;
      more, next := Extend(more, s.(links := s.links[p := m]), OfAgent(p, last));
      assert next.links == s.links[p := l];
    }
    hide Agent.Do, Agent.Enabled;
  }

  /** A connection with nothing else to do. */
  predicate AtRest(l: Agent.Link) {
    l.pump.Running? && l.busy.None? && l.pending == [] && l.queue == [] && l.flight.None? && !l.done && !l.dead
  }

  /** The agent's handler of a request sends its reply, and the pump writes it. */
  lemma AgentReplies(l: Agent.Link, req: Agent.Request, answer: Agent.Answer) returns (remotes: seq<Agent.Step>, m: Agent.Link)
    requires AtRest(l) && Agent.NeedsReply(req)
    ensures Agent.Run(l.(busy := Some(req), begun := false), remotes) == Some(m)
    ensures forall i | 0 <= i < |remotes| :: !remotes[i].Receive?
    ensures m.written == l.written + [Agent.Reply(l, req, answer)]
  {
    var start := l.(busy := Some(req), begun := false);
    var reply := Agent.Reply(start, req, answer);
    assert reply == Agent.Reply(l, req, answer);
    hide Agent.Run, Agent.Reply;
    Agent.First(start, Agent.Begin(answer));
    var begun := Agent.Do(start, Agent.Begin(answer));
    assert begun.pending[0] == reply;
    hide Agent.Replies;
    Agent.Extend(start, [Agent.Begin(answer)], begun, Agent.Send(true));
    var sent := Agent.Do(begun, Agent.Send(true));
    assert sent.queue == [reply];
    Agent.Extend(start, [Agent.Begin(answer)] + [Agent.Send(true)], sent, Agent.Take);
    var taken := Agent.Do(sent, Agent.Take);
    Agent.Extend(start, [Agent.Begin(answer)] + [Agent.Send(true)] + [Agent.Take], taken, Agent.WriteOk);
    remotes, m := [Agent.Begin(answer)] + [Agent.Send(true)] + [Agent.Take] + [Agent.WriteOk], Agent.Do(taken, Agent.WriteOk);
  }

  /** A caller that waits gets the message that its connection delivers next. */
  lemma CallerGetsIt(steps: seq<Step>, s: State, p: nat, id: MsgId, kind: Agent.Kind) returns (more: seq<Step>, t: State)
    requires Run(steps) == Some(s) && id.text != "" && id in s.client.calls && id in s.client.pending
    requires s.client.calls[id] == Client.Call(None, Client.Waiting) && p !in s.client.held
    requires HasNext(s, p) && s.links[p].written[s.read[p]] == Agent.Msg(kind, Some(id))
    ensures Run(more) == Some(t) && id in t.client.calls
    ensures t.client.calls[id].phase == Client.Returned(Client.Answer(Client.Incoming(s.client.next, id, kind)))
    ensures t.client.forwarded == s.client.forwarded && id !in t.client.pending
  {
    hide Run;
    more, t := Extend(steps, s, Deliver(p));
    assert t.client.held[p] == Client.Incoming(s.client.next, id, kind) && t.client.forwarded == s.client.forwarded;
    more, t := Extend(more, t, OfClient(Client.Put(p)));
    more, t := Extend(more, t, OfClient(Client.TakeAnswer(id)));
    more, t := Extend(more, t, OfClient(Client.Finish(id)));
  }

  lemma RequestArrives(steps: seq<Step>, s: State, id: MsgId, p: nat, body: Agent.Body) returns (more: seq<Step>, t: State)
    requires Run(steps) == Some(s) && id in s.client.calls && id !in s.taken && s.client.calls[id].phase.Waiting?
    requires p in s.links && AtRest(s.links[p])
    ensures Run(more) == Some(t) && t.client == s.client && t.read == s.read
    ensures t.links == s.links[p := s.links[p].(busy := Some(Agent.Request(id, body)), begun := false)]
  {
    hide Run;
    more, t := Extend(steps, s, Transmit(id, p, body));
    more, t := Extend(more, t, Arrive(id));
  }

  /** From any reachable state of both ends: a caller that waits for the request it is
      about to send, over a connection with nothing else to do, can come to return
      exactly what the agent's handler replies to that request. */
  lemma RequestIsAnswered(steps: seq<Step>, s: State, id: MsgId, p: nat, body: Agent.Body, answer: Agent.Answer)
    returns (more: seq<Step>, t: State)
    requires Run(steps) == Some(s) && id in s.client.calls && id in s.client.pending && id !in s.taken
    requires s.client.calls[id] == Client.Call(None, Client.Waiting) && p !in s.client.held && !body.KeepAlive?
    requires p in s.links && AtRest(s.links[p]) && p in s.read && s.read[p] == |s.links[p].written|
    ensures Run(more) == Some(t) && id in t.client.calls
    ensures var kind := match body
                        case AuthRight => Agent.AuthOk
                        case AuthWrong => if s.links[p].tokenMode then Agent.ErrorReply else Agent.AuthOk
                        case Operation => if s.links[p].authed && answer.Succeeds? then Agent.Result else Agent.ErrorReply
                        case _ => Agent.ErrorReply;
            t.client.calls[id].phase == Client.Returned(Client.Answer(Client.Incoming(s.client.next, id, kind)))
    ensures t.client.forwarded == s.client.forwarded && id !in t.client.pending
  {
    hide Run, Single, Recorded, Agent.OnlyOwed, Client.Inv, Genuine, AtRest, Agent.Reply, Agent.Run;
    RunKeepsInv(steps);
    var l, req := s.links[p], Agent.Request(id, body);
    ReplyKind(l, req, answer);
    var remotes, m := AgentReplies(l, req, answer);
    more, t := RequestArrives(steps, s, id, p, body);
    var arrived := t;
    more := AgentRuns(more, t, p, remotes, m);
    t := arrived.(links := arrived.links[p := m]);
    more, t := CallerGetsIt(more, t, p, id, Agent.Reply(l, req, answer).kind);
  }

  lemma ReplyKind(l: Agent.Link, req: Agent.Request, answer: Agent.Answer)
    requires !req.body.KeepAlive?
    ensures Agent.NeedsReply(req)
    ensures Agent.Reply(l, req, answer)
            == Agent.Msg(match req.body
                         case AuthRight => Agent.AuthOk
                         case AuthWrong => if l.tokenMode then Agent.ErrorReply else Agent.AuthOk
                         case Operation => if l.authed && answer.Succeeds? then Agent.Result else Agent.ErrorReply
                         case _ => Agent.ErrorReply, Some(req.id))
  {
  }

  /** How often a message of this connection was taken off the wire. */
  function Taken(steps: seq<Step>, p: nat): nat {
    if steps == [] then 0
    else
      var last := steps[|steps| - 1];
      Taken(steps[..|steps| - 1], p) + (if last == Deliver(p) || last == Skip(p) then 1 else 0)
  }

  /** In every run, each message of a connection is taken once, in the order written,
      and none before it is written. */
  lemma {:induction false} MessagesAreTakenInOrder(steps: seq<Step>, p: nat)
    requires Run(steps).Some?
    ensures var s := Run(steps).value;
            if p in s.links then p in s.read && s.read[p] == Taken(steps, p) <= |s.links[p].written|
            else p !in s.read && Taken(steps, p) == 0
  {
    if steps == [] {
    } else {
      var before, step := steps[..|steps| - 1], steps[|steps| - 1];
      MessagesAreTakenInOrder(before, p);
      StepTakes(Run(before).value, step, p);
    }
    hide Do, Enabled;
  }

  lemma StepTakes(s: State, step: Step, p: nat)
    requires Enabled(s, step) && (p in s.links <==> p in s.read)
    ensures var t := Do(s, step); var n := if step == Deliver(p) || step == Skip(p) then 1 else 0;
            if p !in t.links then p !in s.links && n == 0 && p !in t.read
            else if p !in s.links then p in t.read && t.read[p] == 0 && n == 0
            else
              && p in t.read && t.read[p] == s.read[p] + n && s.links[p].written <= t.links[p].written
              && (n == 1 ==> s.read[p] < |s.links[p].written|)
  {
    hide Agent.Do, Agent.Enabled, Client.Do, Client.Enabled;
    match step
    case OfAgent(q, remote) => WrittenGrows(s.links[q], remote);
    case Arrive(id) => AgentReads(s.links[s.transit[id].pump], Agent.Request(id, s.transit[id].body));
    case Number(id, q, body) => AgentReads(s.links[q], Agent.Request(id, body));
    case _ =>
  }
}
