/** The agent's connections as one transition system: admission, the client
    table, authentication attempts and the guard, step by step, in any order. */
module Admission {
  import opened Common
  import GuardHistory
  import opened IpGuard
  import Link = AgentLink

  const MAX_CLIENTS: nat := 128

  datatype Message = WrongToken | RightToken | OtherMessage

  /** Where a connection's accept handler or read pump stands. */
  datatype Phase =
    | Upgrading               // slot reserved, upgrade to a socket pending
    | Refused                 // upgrade failed or table full, slot still held
    | Reading                 // in the client table, at the head of the read loop
    | Handling(msg: Message)  // a message was read and the deadline renewed
    | Failing                 // a wrong token was counted, the reply is pending
    | Handled                 // the handler returned, the deadline renewal is pending
    | Leaving                 // the loop was left
    | Unregistered            // out of the table, slot still held
    | Gone                    // slot released

  datatype Conn = Conn(ip: Ip, phase: Phase, attempts: nat, closed: bool)

  datatype Server = Server(now: Instant, guard: State, clients: set<nat>, conns: seq<Conn>)

  datatype Step =
    | Tick(later: Instant)
    | Arrive(ip: Ip)
    | UpgradeFails(c: nat)
    | Register(c: nat)
    | Receive(c: nat, msg: Message)
    | Handle(c: nat)
    | Reply(c: nat)
    | Renew(c: nat)
    | ReadFails(c: nat)
    | Unregister(c: nat)
    | ReleaseSlot(c: nat)
    | Close(c: nat)           // auth deadline, write error, slow peer or shutdown

  predicate InTable(p: Phase) {
    p.Reading? || p.Handling? || p.Failing? || p.Handled? || p.Leaving?
  }

  // -------------------------------------------------------- the client table

  /** Whether there is room for one more client, and the table afterwards. */
  function Joined(clients: set<nat>, c: nat): (bool, set<nat>) {
    if |clients| >= MAX_CLIENTS then (false, clients) else (true, clients + {c})
  }

  /** Whether the client was still in the table, so that its slot is to be
      released, and the table afterwards. */
  function Left(clients: set<nat>, c: nat): (bool, set<nat>) {
    (c in clients, clients - {c})
  }

  class ClientTable {
    var clients: set<nat>

    method Register(c: nat) returns (ok: bool)
      modifies this
      ensures (ok, clients) == Joined(old(clients), c)
    {
      if |clients| >= MAX_CLIENTS {
        return false;
      }
      clients := clients + {c};
      return true;
    }

    method Unregister(c: nat) returns (release: bool)
      modifies this
      ensures (release, clients) == Left(old(clients), c)
    {
      release := c in clients;
      assert !release ==> clients == clients - {c};
      if release {
        clients := clients - {c};
      }
    }
  }

  // ------------------------------------------------------------ the transitions

  predicate Enabled(s: Server, step: Step) {
    match step
    case Tick(later) => s.now <= later
    case Arrive(_) => true
    case UpgradeFails(c) => c < |s.conns| && s.conns[c].phase.Upgrading?
    case Register(c) => c < |s.conns| && s.conns[c].phase.Upgrading?
    case Receive(c, _) => c < |s.conns| && s.conns[c].phase.Reading? && !s.conns[c].closed
    case Handle(c) => c < |s.conns| && s.conns[c].phase.Handling?
    case Reply(c) => c < |s.conns| && s.conns[c].phase.Failing?
    case Renew(c) => c < |s.conns| && s.conns[c].phase.Handled?
    case ReadFails(c) => c < |s.conns| && s.conns[c].phase.Reading?
    case Unregister(c) => c < |s.conns| && s.conns[c].phase.Leaving?
    case ReleaseSlot(c) => c < |s.conns| && (s.conns[c].phase.Refused? || s.conns[c].phase.Unregistered?)
    case Close(c) => c < |s.conns|
  }

  function Move(s: Server, c: nat, conn: Conn): Server
    requires c < |s.conns|
  {
    s.(conns := s.conns[c := conn])
  }

  function Do(s: Server, lim: Limits, step: Step): Server
    requires Enabled(s, step)
  {
    match step
    case Tick(later) => s.(now := later)
    case Arrive(ip) =>
      if Judge(s.guard, lim, ip, s.now).Admitted? then
        s.(guard := Admit(s.guard, lim, ip, s.now), conns := s.conns + [Conn(ip, Upgrading, 0, false)])
      else s
    case UpgradeFails(c) => Move(s, c, s.conns[c].(phase := Refused))
    case Register(c) =>
      var (ok, clients) := Joined(s.clients, c);
      Move(s, c, s.conns[c].(phase := if ok then Reading else Refused)).(clients := clients)
    case Receive(c, msg) => Move(s, c, s.conns[c].(phase := Handling(msg)))
    case Handle(c) =>
      var conn := s.conns[c];
      (match conn.phase.msg
       case WrongToken =>
         Move(s, c, conn.(phase := Failing, attempts := conn.attempts + 1)).(guard := Fail(s.guard, lim, conn.ip, s.now, true))
       case RightToken =>
         Move(s, c, conn.(phase := Handled)).(guard := Succeed(s.guard, conn.ip))
       case OtherMessage => Move(s, c, conn.(phase := Handled)))
    case Reply(c) =>
      var conn := s.conns[c];
      Move(s, c, conn.(phase := Handled, closed := conn.closed || conn.attempts >= Link.MAX_AUTH_ATTEMPTS))
    case Renew(c) => Move(s, c, s.conns[c].(phase := if s.conns[c].closed then Leaving else Reading))
    case ReadFails(c) => Move(s, c, s.conns[c].(phase := Leaving))
    case Unregister(c) =>
      var (release, clients) := Left(s.clients, c);
      Move(s, c, s.conns[c].(phase := if release then Unregistered else Gone)).(clients := clients)
    case ReleaseSlot(c) => Move(s, c, s.conns[c].(phase := Gone)).(guard := Release(s.guard, s.conns[c].ip))
    case Close(c) => Move(s, c, s.conns[c].(closed := true))
  }

  ghost predicate Runs(s: Server, lim: Limits, steps: seq<Step>)
    decreases |steps|
  {
    steps != [] ==> Enabled(s, steps[0]) && Runs(Do(s, lim, steps[0]), lim, steps[1..])
  }

  function End(s: Server, lim: Limits, steps: seq<Step>): Server
    requires Runs(s, lim, steps)
    decreases |steps|
  {
    if steps == [] then s else End(Do(s, lim, steps[0]), lim, steps[1..])
  }

  function Start(now: Instant): Server {
    Server(now, State(map[], map[]), {}, [])
  }

  // ---------------------------------------------------------- slots and the table

  predicate Holds(conn: Conn, ip: Ip) {
    conn.ip == ip && !conn.phase.Gone?
  }

  /** The connections of an address between admission and release. */
  function Live(conns: seq<Conn>, ip: Ip): nat {
    if conns == [] then 0
    else Live(conns[..|conns| - 1], ip) + (if Holds(conns[|conns| - 1], ip) then 1 else 0)
  }

  /** The wrong tokens the live connections of an address may still send. */
  function Budget(conns: seq<Conn>, ip: Ip): int {
    if conns == [] then 0
    else
      var last := conns[|conns| - 1];
      Budget(conns[..|conns| - 1], ip) + (if Holds(last, ip) then Link.MAX_AUTH_ATTEMPTS - last.attempts else 0)
  }

  lemma {:induction false} SumsUpdate(conns: seq<Conn>, c: nat, conn: Conn, ip: Ip)
    requires c < |conns|
    ensures Live(conns[c := conn], ip)
            == Live(conns, ip) - (if Holds(conns[c], ip) then 1 else 0) + (if Holds(conn, ip) then 1 else 0)
    ensures Budget(conns[c := conn], ip)
            == Budget(conns, ip) - (if Holds(conns[c], ip) then Link.MAX_AUTH_ATTEMPTS - conns[c].attempts else 0)
               + (if Holds(conn, ip) then Link.MAX_AUTH_ATTEMPTS - conn.attempts else 0)
  {
    var n := |conns| - 1;
    var updated := conns[c := conn];
    if c == n {
      assert updated[..n] == conns[..n];
    } else {
      assert updated[..n] == conns[..n][c := conn];
      SumsUpdate(conns[..n], c, conn, ip);
    }
  }

  lemma {:induction false} LivePositive(conns: seq<Conn>, c: nat)
    requires c < |conns| && !conns[c].phase.Gone?
    ensures Live(conns, conns[c].ip) > 0
  {
    if c == |conns| - 1 {
    } else {
      LivePositive(conns[..|conns| - 1], c);
    }
  }

  /** Every slot is accounted for, no address has more than its share, the client
      table holds exactly the running connections and never too many of them, and
      no connection ever counts more than the allowed wrong tokens. */
  ghost predicate Inv(s: Server, lim: Limits) {
    && (forall ip: Ip :: Count(s.guard.active, ip) == Live(s.conns, ip) <= lim.maxActive)
    && (forall ip | ip in s.guard.active :: s.guard.active[ip] > 0)
    && (forall c: nat :: c in s.clients <==> c < |s.conns| && InTable(s.conns[c].phase))
    && |s.clients| <= MAX_CLIENTS
    && (forall c | 0 <= c < |s.conns| :: AttemptsInv(s.conns[c]))
  }

  predicate AttemptsInv(conn: Conn) {
    && conn.attempts <= Link.MAX_AUTH_ATTEMPTS
    && (conn.phase.Handling? ==> conn.attempts < Link.MAX_AUTH_ATTEMPTS)
    && (conn.attempts == Link.MAX_AUTH_ATTEMPTS ==> conn.phase.Failing? || conn.closed)
  }

  /** The connection a step moves, if it moves one. */
  function Mover(step: Step): Option<nat> {
    match step
    case Tick(_) => None
    case Arrive(_) => None
    case _ => Some(step.c)
  }

  /** A step other than a tick or an arrival moves one connection, keeps its
      address, and touches the slots only when it releases one. */
  lemma MoveEffect(s: Server, lim: Limits, step: Step)
    requires Enabled(s, step) && Mover(step).Some? && (step.Unregister? ==> step.c in s.clients)
    ensures var t := Do(s, lim, step); var c := step.c;
            && t.now == s.now
            && t.conns == s.conns[c := t.conns[c]] && t.conns[c].ip == s.conns[c].ip
            && (if step.ReleaseSlot? then t.guard == Release(s.guard, s.conns[c].ip) && t.conns[c].phase.Gone?
                else t.guard.active == s.guard.active && (t.conns[c].phase.Gone? <==> s.conns[c].phase.Gone?))
            && t.conns[c].attempts
               == s.conns[c].attempts + (if step.Handle? && s.conns[c].phase.msg.WrongToken? then 1 else 0)
  {
  }

  lemma TableFacts(clients: set<nat>, c: nat)
    requires |clients| <= MAX_CLIENTS
    ensures var (ok, joined) := Joined(clients, c);
            |joined| <= MAX_CLIENTS && joined == if ok then clients + {c} else clients
    ensures var (release, left) := Left(clients, c);
            |left| <= MAX_CLIENTS && left == clients - {c} && (!release ==> left == clients)
  {
    assert |clients - {c}| <= |clients|;
  }

  /** Only registering and unregistering change the table, and no other step makes
      a connection belong to it or not. */
  lemma TableKept(s: Server, lim: Limits, step: Step)
    requires Enabled(s, step) && Mover(step).Some? && !step.Register? && !step.Unregister?
    ensures Do(s, lim, step).clients == s.clients
    ensures InTable(Do(s, lim, step).conns[step.c].phase) <==> InTable(s.conns[step.c].phase)
  {
  }

  lemma RegisterMoves(s: Server, lim: Limits, c: nat)
    requires Enabled(s, Register(c))
    ensures var t := Do(s, lim, Register(c)); var (ok, joined) := Joined(s.clients, c);
            && t.clients == joined && (InTable(t.conns[c].phase) <==> ok) && !InTable(s.conns[c].phase)
            && t.conns == s.conns[c := t.conns[c]]
  {
  }

  lemma UnregisterMoves(s: Server, lim: Limits, c: nat)
    requires Enabled(s, Unregister(c))
    ensures var t := Do(s, lim, Unregister(c)); var (release, left) := Left(s.clients, c);
            t.clients == left && !InTable(t.conns[c].phase) && t.conns == s.conns[c := t.conns[c]]
  {
  }

  lemma TableEffect(s: Server, lim: Limits, step: Step)
    requires Enabled(s, step) && Mover(step).Some?
    requires forall c: nat :: c in s.clients <==> c < |s.conns| && InTable(s.conns[c].phase)
    requires |s.clients| <= MAX_CLIENTS
    ensures var t := Do(s, lim, step);
            && (forall c: nat :: c in t.clients <==> c < |t.conns| && InTable(t.conns[c].phase))
            && |t.clients| <= MAX_CLIENTS
  {
    hide Do, InTable, Joined, Left;
    StepInRange(s, step);
    TableFacts(s.clients, step.c);
    if step.Register? {
      RegisterMoves(s, lim, step.c);
    } else if step.Unregister? {
      UnregisterMoves(s, lim, step.c);
    } else {
      TableKept(s, lim, step);
      MoveEffect(s, lim, step);
    }
  }

  lemma StepInRange(s: Server, step: Step)
    requires Enabled(s, step) && Mover(step).Some?
    ensures step.c < |s.conns|
  {
  }

  lemma AttemptsEffect(s: Server, lim: Limits, step: Step)
    requires Enabled(s, step) && Mover(step).Some? && AttemptsInv(s.conns[step.c])
    ensures AttemptsInv(Do(s, lim, step).conns[step.c])
  {
  }

  lemma ArriveEffect(s: Server, lim: Limits, ip: Ip)
    ensures var t := Do(s, lim, Arrive(ip));
            && t.now == s.now && t.clients == s.clients
            && (t == s || (t.conns == s.conns + [Conn(ip, Upgrading, 0, false)]
                           && !Blocked(Get(s.guard.failures, ip), s.now) && Count(s.guard.active, ip) < lim.maxActive
                           && t.guard == s.guard.(active := s.guard.active[ip := Count(s.guard.active, ip) + 1])))
  {
  }

  lemma SumsSnoc(conns: seq<Conn>, conn: Conn, ip: Ip)
    ensures Live(conns + [conn], ip) == Live(conns, ip) + (if Holds(conn, ip) then 1 else 0)
    ensures Budget(conns + [conn], ip)
            == Budget(conns, ip) + (if Holds(conn, ip) then Link.MAX_AUTH_ATTEMPTS - conn.attempts else 0)
  {
    var more := conns + [conn];
    assert more[..|more| - 1] == conns;
  }

  lemma TickEffect(s: Server, lim: Limits, later: Instant)
    requires s.now <= later
    ensures var t := Do(s, lim, Tick(later)); t == s.(now := later)
  {
  }

  lemma StepKeepsSlots(s: Server, lim: Limits, step: Step, ip: Ip)
    requires Inv(s, lim) && Enabled(s, step)
    ensures var t := Do(s, lim, step);
            Count(t.guard.active, ip) == Live(t.conns, ip) <= lim.maxActive
            && (ip in t.guard.active ==> t.guard.active[ip] > 0)
  {
    hide Do, Live, Judge, Budget;
    assert Count(s.guard.active, ip) == Live(s.conns, ip);
    if step.Arrive? {
      ArriveEffect(s, lim, step.ip);
      SumsSnoc(s.conns, Conn(step.ip, Upgrading, 0, false), ip);
    } else if step.Tick? {
      TickEffect(s, lim, step.later);
    } else {
      MoveEffect(s, lim, step);
      SumsUpdate(s.conns, step.c, Do(s, lim, step).conns[step.c], ip);
      if step.ReleaseSlot? {
        LivePositive(s.conns, step.c);
      }
    }
  }

  lemma StepKeepsInv(s: Server, lim: Limits, step: Step)
    requires Inv(s, lim) && Enabled(s, step)
    ensures Inv(Do(s, lim, step), lim)
  {
    var t := Do(s, lim, step);
    forall ip: Ip
      ensures Count(t.guard.active, ip) == Live(t.conns, ip) <= lim.maxActive
      ensures ip in t.guard.active ==> t.guard.active[ip] > 0
    {
      StepKeepsSlots(s, lim, step, ip);
    }
    if step.Arrive? {
      ArriveEffect(s, lim, step.ip);
    } else if Mover(step).Some? {
      MoveEffect(s, lim, step);
      TableEffect(s, lim, step);
      AttemptsEffect(s, lim, step);
    }
    hide Do, Live, Count;
  }

  lemma {:induction false} RunKeepsInv(s: Server, lim: Limits, steps: seq<Step>)
    requires Inv(s, lim) && Runs(s, lim, steps)
    ensures Inv(End(s, lim, steps), lim)
    decreases |steps|
  {
    if steps == [] {
    } else {
      StepKeepsInv(s, lim, steps[0]);
      RunKeepsInv(Do(s, lim, steps[0]), lim, steps[1..]);
    }
  }

  /** In every reachable state: slots conserved and bounded, table exact and
      bounded, attempts bounded. */
  lemma ReachableInv(now: Instant, lim: Limits, steps: seq<Step>)
    requires Runs(Start(now), lim, steps)
    ensures Inv(End(Start(now), lim, steps), lim)
  {
    RunKeepsInv(Start(now), lim, steps);
  }

  /** In every reachable state an address is let in if and only if no block of it
      lasts and fewer than maxActive of its connections are still accounted for. */
  lemma AdmissionIsExact(now: Instant, lim: Limits, steps: seq<Step>, ip: Ip)
    requires Runs(Start(now), lim, steps)
    ensures var s := End(Start(now), lim, steps);
            Judge(s.guard, lim, ip, s.now).Admitted?
            <==> !Blocked(Get(s.guard.failures, ip), s.now) && Live(s.conns, ip) < lim.maxActive
  {
    ReachableInv(now, lim, steps);
    var s := End(Start(now), lim, steps);
    assert Count(s.guard.active, ip) == Live(s.conns, ip);
  }

  /** In every reachable state a connection gets into the client table if and only
      if there is room, and stays accounted for either way. */
  lemma RegisteredIffRoom(now: Instant, lim: Limits, steps: seq<Step>, c: nat)
    requires Runs(Start(now), lim, steps) && Enabled(End(Start(now), lim, steps), Register(c))
    ensures var s := End(Start(now), lim, steps); var t := Do(s, lim, Register(c));
            && c !in s.clients && (c in t.clients <==> |s.clients| < 128)
            && |t.clients| <= 128
            && (forall ip :: Live(t.conns, ip) == Live(s.conns, ip) == Count(t.guard.active, ip))
  {
    RunKeepsInv(Start(now), lim, steps);
    var s := End(Start(now), lim, steps);
    StepKeepsInv(s, lim, Register(c));
    var t := Do(s, lim, Register(c));
    forall ip
      ensures Live(t.conns, ip) == Live(s.conns, ip) == Count(t.guard.active, ip)
    {
      assert Count(s.guard.active, ip) == Live(s.conns, ip) && Count(t.guard.active, ip) == Live(t.conns, ip);
    }
  }

  /** In every reachable state a connection that leaves is still in the table, so its
      slot is given back; it then leaves exactly one slot of its address free, and
      touches no other address's. */
  lemma LeavingFreesOneSlot(now: Instant, lim: Limits, steps: seq<Step>, c: nat)
    requires Runs(Start(now), lim, steps) && Enabled(End(Start(now), lim, steps), Unregister(c))
    ensures var s := End(Start(now), lim, steps); var t := Do(s, lim, Unregister(c));
            && c in s.clients && t.clients == s.clients - {c} && Enabled(t, ReleaseSlot(c))
            && var u := Do(t, lim, ReleaseSlot(c)); var mine := s.conns[c].ip;
               && Count(u.guard.active, mine) == Count(s.guard.active, mine) - 1
               && (forall ip | ip != mine :: Count(u.guard.active, ip) == Count(s.guard.active, ip))
               && u.conns[c].phase.Gone?
  {
    RunKeepsInv(Start(now), lim, steps);
    var s := End(Start(now), lim, steps);
    assert InTable(s.conns[c].phase);
    LivePositive(s.conns, c);
    assert Count(s.guard.active, s.conns[c].ip) == Live(s.conns, s.conns[c].ip);
    hide Runs, End, Live;
  }

  /** From any reachable state: a connection whose read fails leaves the table, gives its
      slot back, and is gone. */
  lemma FailedReadEnds(s: Server, lim: Limits, c: nat) returns (t: Server)
    requires Inv(s, lim) && Enabled(s, ReadFails(c))
    ensures Runs(s, lim, [ReadFails(c), Unregister(c), ReleaseSlot(c)])
    ensures End(s, lim, [ReadFails(c), Unregister(c), ReleaseSlot(c)]) == t
    ensures t.conns == s.conns[c := s.conns[c].(phase := Gone)] && t.clients == s.clients - {c}
    ensures Count(t.guard.active, s.conns[c].ip) == Count(s.guard.active, s.conns[c].ip) - 1
  {
    hide Runs, End;
    assert InTable(s.conns[c].phase) && c in s.clients;
    LivePositive(s.conns, c);
    assert Count(s.guard.active, s.conns[c].ip) == Live(s.conns, s.conns[c].ip);
    NoRun(s, lim);
    var steps;
    steps, t := Go(s, lim, [], ReadFails(c));
    steps, t := Go(s, lim, steps, Unregister(c));
    steps, t := Go(s, lim, steps, ReleaseSlot(c));
    assert steps == [ReadFails(c), Unregister(c), ReleaseSlot(c)];
    hide Inv, Live;
  }

  // ------------------------------------------------------ a connection's messages

  lemma {:induction false} RunsJoin(s: Server, lim: Limits, steps: seq<Step>, step: Step)
    requires Runs(s, lim, steps) && Enabled(End(s, lim, steps), step)
    ensures Runs(s, lim, steps + [step]) && End(s, lim, steps + [step]) == Do(End(s, lim, steps), lim, step)
    decreases |steps|
  {
    hide Do, Enabled;
    if steps == [] {
      assert [step][1..] == [];
    } else {
      assert (steps + [step])[1..] == steps[1..] + [step];
      RunsJoin(Do(s, lim, steps[0]), lim, steps[1..], step);
    }
  }

  lemma Go(s: Server, lim: Limits, steps: seq<Step>, step: Step) returns (more: seq<Step>, t: Server)
    requires Runs(s, lim, steps) && Enabled(End(s, lim, steps), step)
    ensures more == steps + [step] && t == Do(End(s, lim, steps), lim, step)
    ensures Runs(s, lim, more) && End(s, lim, more) == t
  {
    RunsJoin(s, lim, steps, step);
    more, t := steps + [step], Do(End(s, lim, steps), lim, step);
  }

  /** From any reachable state: a connection in its read loop can receive any message
      and have it handled, and then reads on, unless that was its fifth wrong token. */
  lemma MessageIsHandled(s: Server, lim: Limits, c: nat, msg: Message) returns (steps: seq<Step>, t: Server)
    requires Inv(s, lim) && c < |s.conns| && s.conns[c].phase.Reading? && !s.conns[c].closed
    ensures steps == [Receive(c, msg), Handle(c)] + (if msg.WrongToken? then [Reply(c)] else []) + [Renew(c)]
    ensures Runs(s, lim, steps) && End(s, lim, steps) == t
    ensures var wrong := s.conns[c].attempts + (if msg.WrongToken? then 1 else 0);
            && t.conns == s.conns[c := Conn(s.conns[c].ip, if wrong >= 5 then Leaving else Reading, wrong, wrong >= 5)]
            && t.clients == s.clients && t.now == s.now
  {
    hide Runs, End, Inv;
    assert s.conns[c].attempts < 5 by {
      ReadsBelowLimit(s, lim, c);
    }
    NoRun(s, lim);
    steps, t := Go(s, lim, [], Receive(c, msg));
    steps, t := Go(s, lim, steps, Handle(c));
    if msg.WrongToken? {
      steps, t := Go(s, lim, steps, Reply(c));
    }
    steps, t := Go(s, lim, steps, Renew(c));
    hide Fail, Succeed;
  }

  lemma NoRun(s: Server, lim: Limits)
    ensures Runs(s, lim, []) && End(s, lim, []) == s
  {
  }

  lemma ReadsBelowLimit(s: Server, lim: Limits, c: nat)
    requires Inv(s, lim) && c < |s.conns| && s.conns[c].phase.Reading? && !s.conns[c].closed
    ensures s.conns[c].attempts < 5
  {
    assert AttemptsInv(s.conns[c]);
  }

  /** A connection that is closed, by whomever, reads no message in the rest of any run. */
  lemma {:induction false} ClosedReadsNothing(s: Server, lim: Limits, steps: seq<Step>, c: nat, msg: Message)
    requires Runs(s, lim, steps) && c < |s.conns|
    requires s.conns[c].closed || (steps != [] && steps[0] == Close(c))
    ensures Receive(c, msg) !in steps
    decreases |steps|
  {
    if steps == [] {
    } else {
      ClosedStays(s, lim, steps[0], c);
      ClosedReadsNothing(Do(s, lim, steps[0]), lim, steps[1..], c, msg);
      assert steps == [steps[0]] + steps[1..];
    }
    hide Do;
  }

  lemma ClosedStays(s: Server, lim: Limits, step: Step, c: nat)
    requires Enabled(s, step) && c < |s.conns| && (s.conns[c].closed || step == Close(c))
    ensures c < |Do(s, lim, step).conns| && Do(s, lim, step).conns[c].closed
  {
    hide Judge, Pruned, AfterFail;
  }

  /** An address that is let in has one connection more, which gives its slot back
      whether its upgrade fails or the client table is full. */
  lemma ArrivalTakesOneSlot(s: Server, lim: Limits, ip: Ip)
    requires Judge(s.guard, lim, ip, s.now).Admitted?
    ensures var t := Do(s, lim, Arrive(ip)); var c := |s.conns|;
            && t.conns == s.conns + [Conn(ip, Upgrading, 0, false)]
            && Count(t.guard.active, ip) == Count(s.guard.active, ip) + 1
            && Enabled(t, UpgradeFails(c)) && Enabled(t, Register(c))
            && (forall step | step == UpgradeFails(c) || (step == Register(c) && |s.clients| >= 128) ::
                  var u := Do(t, lim, step);
                  Enabled(u, ReleaseSlot(c)) && Count(Do(u, lim, ReleaseSlot(c)).guard.active, ip) == Count(s.guard.active, ip))
  {
  }

  // ---------------------------------------- the tokens handled and the guard

  predicate IsWrongToken(s: Server, step: Step, ip: Ip)
    requires Enabled(s, step)
  {
    step.Handle? && s.conns[step.c].phase.msg.WrongToken? && s.conns[step.c].ip == ip
  }

  predicate IsLogin(s: Server, step: Step, ip: Ip)
    requires Enabled(s, step)
  {
    step.Handle? && s.conns[step.c].phase.msg.RightToken? && s.conns[step.c].ip == ip
  }

  function TokenOf(s: Server, step: Step, ip: Ip): seq<GuardHistory.Event>
    requires Enabled(s, step)
  {
    if IsWrongToken(s, step, ip) then [GuardHistory.Failure(s.now)]
    else if IsLogin(s, step, ip) then [GuardHistory.Success(s.now)]
    else []
  }

  /** The wrong and right tokens handled for an address in a run, read off its messages. */
  function Tokens(s: Server, lim: Limits, steps: seq<Step>, ip: Ip): seq<GuardHistory.Event>
    requires Runs(s, lim, steps)
    decreases |steps|
  {
    if steps == [] then []
    else TokenOf(s, steps[0], ip) + Tokens(Do(s, lim, steps[0]), lim, steps[1..], ip)
  }

  /** What the guard is asked or told in a step, and when. */
  function CallOf(s: Server, step: Step): seq<GuardHistory.Op>
    requires Enabled(s, step)
  {
    match step
    case Arrive(ip) => [GuardHistory.Op(s.now, ip, GuardHistory.AdmitCall)]
    case ReleaseSlot(c) => [GuardHistory.Op(s.now, s.conns[c].ip, GuardHistory.ReleaseCall)]
    case Handle(c) =>
      (match s.conns[c].phase.msg
       case WrongToken => [GuardHistory.Op(s.now, s.conns[c].ip, GuardHistory.FailCall)]
       case RightToken => [GuardHistory.Op(s.now, s.conns[c].ip, GuardHistory.SucceedCall)]
       case OtherMessage => [])
    case _ => []
  }

  /** These calls made the guard what it is. */
  ghost predicate MadeBy(s: Server, lim: Limits, ops: seq<GuardHistory.Op>) {
    && GuardHistory.Ordered(ops) && (ops != [] ==> ops[|ops| - 1].at <= s.now)
    && s.guard == GuardHistory.Run(lim, ops, true)
  }

  /** A step makes at most one call, which is all that happens to the guard. */
  lemma StepMakesCall(s: Server, lim: Limits, step: Step, ip: Ip)
    requires Enabled(s, step)
    ensures var t, calls := Do(s, lim, step), CallOf(s, step);
            && s.now <= t.now && (calls != [] ==> t.now == s.now == calls[0].at && calls == [calls[0]])
            && t.guard == (if calls == [] then s.guard else GuardHistory.Step(s.guard, lim, calls[0], true))
            && TokenOf(s, step, ip)
               == (if calls != [] && calls[0].ip == ip && calls[0].call.FailCall? then [GuardHistory.Failure(s.now)]
                   else if calls != [] && calls[0].ip == ip && calls[0].call.SucceedCall? then [GuardHistory.Success(s.now)]
                   else [])
  {
    hide Judge, Pruned, AfterFail, Release;
  }

  lemma StepCalls(s: Server, lim: Limits, step: Step, ops: seq<GuardHistory.Op>, ip: Ip)
    requires MadeBy(s, lim, ops) && Enabled(s, step)
    ensures MadeBy(Do(s, lim, step), lim, ops + CallOf(s, step))
    ensures GuardHistory.EventsOf(ops + CallOf(s, step), ip) == GuardHistory.EventsOf(ops, ip) + TokenOf(s, step, ip)
  {
    hide Do, CallOf, TokenOf, GuardHistory.Step, GuardHistory.Run, GuardHistory.EventsOf;
    var calls := CallOf(s, step);
    StepMakesCall(s, lim, step, ip);
    if calls == [] {
      assert ops + [] == ops && GuardHistory.EventsOf(ops, ip) + [] == GuardHistory.EventsOf(ops, ip);
    } else {
      GuardHistory.RunSnoc(lim, ops, calls[0], ip);
    }
  }

  /** The guard inside a running server is the one that exactly these calls make. */
  lemma {:induction false} GuardFollowsTokens(s: Server, lim: Limits, steps: seq<Step>, ops: seq<GuardHistory.Op>, ip: Ip)
    returns (all: seq<GuardHistory.Op>)
    requires Runs(s, lim, steps) && MadeBy(s, lim, ops)
    ensures MadeBy(End(s, lim, steps), lim, all)
    ensures GuardHistory.EventsOf(all, ip) == GuardHistory.EventsOf(ops, ip) + Tokens(s, lim, steps, ip)
    decreases |steps|
  {
    hide Do, Enabled, MadeBy, GuardHistory.EventsOf, TokenOf;
    if steps == [] {
      all := ops;
      assert GuardHistory.EventsOf(ops, ip) + [] == GuardHistory.EventsOf(ops, ip);
    } else {
      StepCalls(s, lim, steps[0], ops, ip);
      all := GuardFollowsTokens(Do(s, lim, steps[0]), lim, steps[1..], ops + CallOf(s, steps[0]), ip);
      Assoc(GuardHistory.EventsOf(ops, ip), TokenOf(s, steps[0], ip), Tokens(Do(s, lim, steps[0]), lim, steps[1..], ip));
    }
  }

  lemma GuardOfRun(now: Instant, lim: Limits, steps: seq<Step>, ip: Ip) returns (all: seq<GuardHistory.Op>)
    requires Runs(Start(now), lim, steps)
    ensures MadeBy(End(Start(now), lim, steps), lim, all)
    ensures GuardHistory.EventsOf(all, ip) == Tokens(Start(now), lim, steps, ip)
  {
    all := GuardFollowsTokens(Start(now), lim, steps, [], ip);
  }

  /** In every run of the server, under fitting limits: an address is refused for
      failures if and only if the wrong and right tokens handled for it so far leave a
      trip in force, and let in if and only if there is none and fewer than maxActive
      of its connections are still accounted for. */
  lemma AdmittedAsTokensSay(now: Instant, lim: Limits, steps: seq<Step>, ip: Ip)
    requires Runs(Start(now), lim, steps) && GuardHistory.BlockFitsWindow(lim)
    ensures var s := End(Start(now), lim, steps); var h := Tokens(Start(now), lim, steps, ip);
            && (Judge(s.guard, lim, ip, s.now).TooManyFailures? <==> GuardHistory.ActiveTrip(h, s.now, lim))
            && (Judge(s.guard, lim, ip, s.now).Admitted?
                <==> !GuardHistory.ActiveTrip(h, s.now, lim) && Live(s.conns, ip) < lim.maxActive)
  {
    var all := GuardOfRun(now, lim, steps, ip);
    GuardHistory.RefusedIffActiveTrip(lim, all, ip, End(Start(now), lim, steps).now);
    AdmissionIsExact(now, lim, steps, ip);
    hide Runs, End, Live, Tokens, GuardHistory.ActiveTrip;
  }

  // ----------------------------------------------------- the budget while blocked

  /** The address stays refused at least until the given instant. */
  predicate HeldUntil(s: Server, ip: Ip, until: nat, lim: Limits) {
    && ip in s.guard.failures
    && s.guard.failures[ip].blockedUntil >= until
    && s.guard.failures[ip].windowStart <= s.now
    && s.guard.failures[ip].windowStart + lim.block >= until
  }

  /** The wrong-token messages of an address processed in a run. */
  function WrongTokens(s: Server, lim: Limits, steps: seq<Step>, ip: Ip): nat
    requires Runs(s, lim, steps)
    decreases |steps|
  {
    if steps == [] then 0
    else (if IsWrongToken(s, steps[0], ip) then 1 else 0) + WrongTokens(Do(s, lim, steps[0]), lim, steps[1..], ip)
  }

  /** The run ends before the given instant and the address never logs in. */
  ghost predicate Within(s: Server, lim: Limits, steps: seq<Step>, ip: Ip, until: nat)
    requires Runs(s, lim, steps)
    decreases |steps|
  {
    && s.now < until
    && (steps != [] ==> !IsLogin(s, steps[0], ip) && Within(Do(s, lim, steps[0]), lim, steps[1..], ip, until))
  }

  lemma StepHolds(s: Server, lim: Limits, step: Step, ip: Ip, until: nat)
    requires Enabled(s, step) && !IsLogin(s, step, ip) && s.now < until
    requires HeldUntil(s, ip, until, lim) && GuardHistory.BlockFitsWindow(lim)
    ensures HeldUntil(Do(s, lim, step), ip, until, lim)
  {
  }

  lemma StepSpends(s: Server, lim: Limits, step: Step, ip: Ip, until: nat)
    requires Inv(s, lim) && Enabled(s, step) && s.now < until
    requires HeldUntil(s, ip, until, lim)
    ensures Budget(Do(s, lim, step).conns, ip) + (if IsWrongToken(s, step, ip) then 1 else 0) <= Budget(s.conns, ip)
  {
    if step.Arrive? {
      ArriveEffect(s, lim, step.ip);
      SumsSnoc(s.conns, Conn(step.ip, Upgrading, 0, false), ip);
    } else if Mover(step).Some? {
      MoveEffect(s, lim, step);
      SumsUpdate(s.conns, step.c, Do(s, lim, step).conns[step.c], ip);
      assert AttemptsInv(s.conns[step.c]);
    }
    hide Do, Budget, Judge;
  }

  lemma {:induction false} BudgetBound(conns: seq<Conn>, ip: Ip)
    requires forall c | 0 <= c < |conns| :: conns[c].attempts <= Link.MAX_AUTH_ATTEMPTS
    ensures 0 <= Budget(conns, ip) <= Link.MAX_AUTH_ATTEMPTS * Live(conns, ip)
    ensures (exists c :: 0 <= c < |conns| && Holds(conns[c], ip) && conns[c].attempts > 0)
            ==> Budget(conns, ip) < Link.MAX_AUTH_ATTEMPTS * Live(conns, ip)
  {
    if conns == [] {
    } else {
      BudgetBound(conns[..|conns| - 1], ip);
    }
  }

  lemma {:induction false} RunSpends(s: Server, lim: Limits, steps: seq<Step>, ip: Ip, until: nat)
    requires Inv(s, lim) && Runs(s, lim, steps) && Within(s, lim, steps, ip, until)
    requires HeldUntil(s, ip, until, lim) && GuardHistory.BlockFitsWindow(lim)
    ensures WrongTokens(s, lim, steps, ip) <= Budget(s.conns, ip)
    decreases |steps|
  {
    if steps == [] {
      BudgetBound(s.conns, ip);
    } else {
      StepKeepsInv(s, lim, steps[0]);
      StepHolds(s, lim, steps[0], ip, until);
      StepSpends(s, lim, steps[0], ip, until);
      RunSpends(Do(s, lim, steps[0]), lim, steps[1..], ip, until);
    }
  }

  /** In every run of the server: once the tokens of an address make a trip, and until
      the block ends, unless the address logs in, fewer than maxActive *
      Link.MAX_AUTH_ATTEMPTS more wrong tokens from it are processed, in any
      interleaving with any other connections. */
  lemma BlockedAddressHasBoundedBudget(now: Instant, lim: Limits, before: seq<Step>, trip: Step, steps: seq<Step>)
    requires Runs(Start(now), lim, before) && GuardHistory.BlockFitsWindow(lim)
    requires var s := End(Start(now), lim, before);
             && Enabled(s, trip) && trip.Handle? && s.conns[trip.c].phase.msg.WrongToken?
             && (var h := Tokens(Start(now), lim, before, s.conns[trip.c].ip);
                 GuardHistory.TripAt(h + [GuardHistory.Failure(s.now)], |h|, lim))
             && Runs(Do(s, lim, trip), lim, steps)
             && Within(Do(s, lim, trip), lim, steps, s.conns[trip.c].ip, s.now + lim.block)
    ensures var s := End(Start(now), lim, before);
            WrongTokens(Do(s, lim, trip), lim, steps, s.conns[trip.c].ip) < lim.maxActive * Link.MAX_AUTH_ATTEMPTS
  {
    hide Runs, End, Within, WrongTokens, Tokens, GuardHistory.TripAt;
    var s := End(Start(now), lim, before);
    var all := GuardOfRun(now, lim, before, s.conns[trip.c].ip);
    GuardHistory.TripsAsHistorySays(lim, all, s.conns[trip.c].ip, s.now);
    ReachableInv(now, lim, before);
    BudgetAfterTrip(s, lim, trip, steps);
  }

  lemma BudgetAfterTrip(s: Server, lim: Limits, trip: Step, steps: seq<Step>)
    requires Inv(s, lim) && Enabled(s, trip) && trip.Handle? && s.conns[trip.c].phase.msg.WrongToken?
    requires Trips(Get(Pruned(s.guard.failures, s.now, lim), s.conns[trip.c].ip), s.now, lim)
    requires GuardHistory.BlockFitsWindow(lim)
    requires Runs(Do(s, lim, trip), lim, steps)
    requires Within(Do(s, lim, trip), lim, steps, s.conns[trip.c].ip, s.now + lim.block)
    ensures WrongTokens(Do(s, lim, trip), lim, steps, s.conns[trip.c].ip) < lim.maxActive * Link.MAX_AUTH_ATTEMPTS
  {
    var t := Do(s, lim, trip);
    var ip := s.conns[trip.c].ip;
    StepKeepsInv(s, lim, trip);
    RunSpends(t, lim, steps, ip, s.now + lim.block);
    BudgetBound(t.conns, ip);
    assert Holds(t.conns[trip.c], ip) && t.conns[trip.c].attempts > 0;
    assert Count(t.guard.active, ip) == Live(t.conns, ip) <= lim.maxActive;
    assert Link.MAX_AUTH_ATTEMPTS * Live(t.conns, ip) <= Link.MAX_AUTH_ATTEMPTS * lim.maxActive;
  }
}
