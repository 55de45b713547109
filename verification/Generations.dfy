/** All agents of a manager with their read pumps and reconnect attempts, in any
    interleaving of their locked sections. */
module Generations {
  import opened Common
  import opened AgentConnection

  const MAX_RETRIES: nat := 5

  datatype Endpoint = Endpoint(host: string, port: int)

  datatype PumpPhase =
    | InLoop
    | ReadFailed      // a read failed; whether to reconnect is not decided yet
    | LeftLoop        // returned; the deferred calls are pending
    | Marked          // marked its generation disconnected
    | Finished        // its done channel is closed

  datatype ReconnectPhase =
    | Starting
    | Waiting
    | Dialing
    | Installed(next: Gen)   // generation installed, its pump not started yet
    | GivingUp
    | Over

  datatype Thread =
    | Pump(ac: nat, gen: Gen, pump: PumpPhase)
    | Reconnect(ac: nat, failed: Gen, phase: ReconnectPhase, tries: nat)

  /** A connect that holds the manager's lock and looks through the listed agents,
      one after the other, each under that agent's own lock. */
  datatype Scan = Scan(endpoint: Endpoint, info: Info, todo: set<nat>)

  datatype Manager = Manager(
    conns: seq<Conn>,
    endpoints: seq<Endpoint>,
    listed: set<nat>,          // the agents map
    threads: seq<Thread>,
    chains: seq<seq<Gen>>,     // the generations each agent has had, in order
    nextGen: Gen,
    scan: Option<Scan>,
    global: bool)              // the manager's context is cancelled

  /** What a pump or a reconnect does next. */
  datatype Action =
    | Receive(u: Update)
    | SeeCancel
    | FailRead
    | Decide
    | Mark
    | Finish
    | Begin
    | Wake
    | FailDial
    | Abandon            // the connection options are unusable
    | TryInstall(now: nat)
    | StartPump
    | GiveUp

  datatype Step =
    | BeginConnect(endpoint: Endpoint, info: Info)
    | Look(a: nat)
    | Insert
    | Remove(a: nat)
    | StopConn(a: nat)
    | CancelConn(a: nat)
    | CancelAll
    | Act(t: nat, action: Action)

  // ------------------------------------------------------------ one thread's step

  /** Whether a thread may act so, given its agent's state. */
  predicate Ready(th: Thread, c: Conn, global: bool, action: Action) {
    match action
    case Receive(_) => th.Pump? && th.pump.InLoop?
    case SeeCancel =>
      ContextDone(c, global) && (if th.Pump? then th.pump.InLoop? else th.phase.Waiting?)
    case FailRead => th.Pump? && th.pump.InLoop?
    case Decide => th.Pump? && th.pump.ReadFailed?
    case Mark => th.Pump? && th.pump.LeftLoop?
    case Finish => th.Pump? && th.pump.Marked?
    case Begin => th.Reconnect? && th.phase.Starting?
    case Wake => th.Reconnect? && th.phase.Waiting?
    case FailDial => th.Reconnect? && th.phase.Dialing?
    case Abandon => th.Reconnect? && th.phase.Dialing?
    case TryInstall(_) => th.Reconnect? && th.phase.Dialing?
    case StartPump => th.Reconnect? && th.phase.Installed?
    case GiveUp => th.Reconnect? && th.phase.GivingUp?
  }

  /** The thread and its agent after an action, a thread it started, and whether
      a new generation was installed. */
  datatype Outcome = Outcome(thread: Thread, spawned: Option<Thread>, conn: Conn, installed: bool)

  function React(th: Thread, c: Conn, nextGen: Gen, global: bool, action: Action): Outcome
    requires Ready(th, c, global, action)
  {
    match action
    case Receive(u) => Outcome(th, None, Updated(c, th.gen, u), false)
    case SeeCancel => Outcome(if th.Pump? then th.(pump := LeftLoop) else th.(phase := Over), None, c, false)
    case FailRead => Outcome(th.(pump := ReadFailed), None, c, false)
    case Decide =>
      Outcome(th.(pump := LeftLoop),
              if ShouldReconnect(c, th.gen, global) then Some(Reconnect(th.ac, th.gen, Starting, 0)) else None, c, false)
    case Mark => Outcome(th.(pump := Marked), None, MarkDisconnected(c, th.gen), false)
    case Finish => Outcome(th.(pump := Finished), None, c, false)
    case Begin => Outcome(th.(phase := if ShouldReconnect(c, th.failed, global) then Waiting else Over), None, c, false)
    case Wake => Outcome(th.(phase := if ShouldReconnect(c, th.failed, global) then Dialing else Over), None, c, false)
    case FailDial =>
      Outcome(th.(tries := th.tries + 1, phase := if th.tries + 1 >= MAX_RETRIES then GivingUp else Waiting), None, c, false)
    case Abandon => Outcome(th.(phase := Over), None, c, false)
    case TryInstall(now) =>
      if CanInstall(c, global) then Outcome(th.(phase := Installed(nextGen)), None, Install(c, nextGen, now), true)
      else Outcome(th.(phase := Over), None, c, false)
    case StartPump => Outcome(th.(phase := Over), Some(Pump(th.ac, th.phase.next, InLoop)), c, false)
    case GiveUp => Outcome(th.(phase := Over), None, MarkDisconnected(c, th.failed), false)
  }

  // ------------------------------------------------------------ the whole manager

  /** Every thread belongs to an agent, and every agent has an endpoint and a chain. */
  predicate Shaped(m: Manager) {
    && |m.endpoints| == |m.conns| == |m.chains|
    && (forall a | a in m.listed :: a < |m.conns|)
    && (forall t | 0 <= t < |m.threads| :: m.threads[t].ac < |m.conns|)
    && (m.scan.Some? ==> m.scan.value.todo <= m.listed)
  }

  /** A connected agent of the map has this endpoint. */
  predicate Taken(m: Manager, e: Endpoint)
    requires Shaped(m)
  {
    exists a | a in m.listed :: m.endpoints[a] == e && m.conns[a].connected
  }

  predicate Enabled(m: Manager, step: Step)
    requires Shaped(m)
  {
    match step
    case BeginConnect(_, _) => m.scan.None?
    case Look(a) => m.scan.Some? && a in m.scan.value.todo
    case Insert => m.scan.Some? && m.scan.value.todo == {}
    case Remove(a) => a in m.listed && m.scan.None?
    case StopConn(a) => a < |m.conns| && a !in m.listed
    case CancelConn(a) => a < |m.conns| && m.conns[a].closed
    case CancelAll => true
    case Act(t, action) => t < |m.threads| && Ready(m.threads[t], m.conns[m.threads[t].ac], m.global, action)
  }

  function SetConn(m: Manager, a: nat, c: Conn): Manager
    requires a < |m.conns|
  {
    m.(conns := m.conns[a := c])
  }

  function Settle(m: Manager, t: nat, o: Outcome): Manager
    requires Shaped(m) && t < |m.threads|
  {
    var a := m.threads[t].ac;
    m.(threads := m.threads[t := o.thread] + (if o.spawned.Some? then [o.spawned.value] else []),
       conns := m.conns[a := o.conn],
       chains := if o.installed then m.chains[a := m.chains[a] + [m.nextGen]] else m.chains,
       nextGen := if o.installed then m.nextGen + 1 else m.nextGen)
  }

  /** A new agent with its read pump. */
  function Inserted(m: Manager, e: Endpoint, info: Info): Manager {
    m.(conns := m.conns + [Conn(m.nextGen, true, false, false, info)],
       endpoints := m.endpoints + [e],
       listed := m.listed + {|m.conns|},
       threads := m.threads + [Pump(|m.conns|, m.nextGen, InLoop)],
       chains := m.chains + [[m.nextGen]],
       nextGen := m.nextGen + 1,
       scan := None)
  }

  function Do(m: Manager, step: Step): Manager
    requires Shaped(m) && Enabled(m, step)
  {
    match step
    case BeginConnect(e, info) => m.(scan := Some(Scan(e, info, m.listed)))
    case Look(a) =>
      if m.endpoints[a] == m.scan.value.endpoint && m.conns[a].connected then m.(scan := None)
      else m.(scan := Some(m.scan.value.(todo := m.scan.value.todo - {a})))
    case Insert => if m.global then m.(scan := None) else Inserted(m, m.scan.value.endpoint, m.scan.value.info)
    case Remove(a) => m.(listed := m.listed - {a})
    case StopConn(a) => SetConn(m, a, Stop(m.conns[a]))
    case CancelConn(a) => SetConn(m, a, m.conns[a].(cancelled := true))
    case CancelAll => m.(global := true)
    case Act(t, action) => Settle(m, t, React(m.threads[t], m.conns[m.threads[t].ac], m.nextGen, m.global, action))
  }

  function Idle(): Manager {
    Manager([], [], {}, [], [], 0, None, false)
  }

  ghost predicate Runs(m: Manager, steps: seq<Step>)
    requires Shaped(m)
    decreases |steps|
  {
    steps != [] ==>
      && Enabled(m, steps[0])
      && Shaped(Do(m, steps[0]))
      && Runs(Do(m, steps[0]), steps[1..])
  }

  function End(m: Manager, steps: seq<Step>): (last: Manager)
    requires Shaped(m) && Runs(m, steps)
    ensures Shaped(last)
    decreases |steps|
  {
    if steps == [] then m else End(Do(m, steps[0]), steps[1..])
  }

  // ----------------------------------------------------------- single flight

  /** A pump that has not left its loop, or a reconnect in progress. */
  predicate Active(th: Thread) {
    match th
    case Pump(_, _, pump) => pump.InLoop? || pump.ReadFailed?
    case Reconnect(_, _, phase, _) => !phase.Over?
  }

  /** The generation an active thread works for. */
  function Serves(th: Thread): Gen {
    match th
    case Pump(_, gen, _) => gen
    case Reconnect(_, failed, phase, _) => if phase.Installed? then phase.next else failed
  }

  /** At most one active thread per agent, and it works for the current generation. */
  predicate SingleFlight(m: Manager)
    requires Shaped(m)
  {
    && (forall t | 0 <= t < |m.threads| && Active(m.threads[t]) ::
          Serves(m.threads[t]) == m.conns[m.threads[t].ac].generation)
    && (forall t, u | 0 <= t < u < |m.threads| && Active(m.threads[t]) && Active(m.threads[u]) ::
          m.threads[t].ac != m.threads[u].ac)
  }

  /** Generations are used once, and each agent's form one increasing chain. */
  predicate Chained(m: Manager)
    requires Shaped(m)
  {
    && (forall a | 0 <= a < |m.conns| :: m.conns[a].generation < m.nextGen && ChainEnds(m.chains[a], m.conns[a].generation))
    && (forall t | 0 <= t < |m.threads| :: Older(m.threads[t], m.nextGen))
  }

  predicate ChainEnds(chain: seq<Gen>, last: Gen) {
    && chain != [] && chain[|chain| - 1] == last
    && forall i, j | 0 <= i < j < |chain| :: chain[i] < chain[j]
  }

  predicate Older(th: Thread, next: Gen) {
    Serves(th) < next && (th.Reconnect? ==> th.failed < next)
  }

  predicate PastMark(th: Thread) {
    th.Pump? && (th.pump.Marked? || th.pump.Finished?)
  }

  /** Closed agents are disconnected, and so is one whose current pump is past its mark. */
  predicate Fenced(m: Manager)
    requires Shaped(m)
  {
    && (forall a | 0 <= a < |m.conns| :: m.conns[a].closed ==> !m.conns[a].connected)
    && (forall t | 0 <= t < |m.threads| :: FencedThread(m.threads[t], m.conns[m.threads[t].ac]))
  }

  predicate FencedThread(th: Thread, c: Conn) {
    PastMark(th) && th.gen == c.generation ==> !c.connected
  }

  predicate Inv(m: Manager) {
    Shaped(m) && SingleFlight(m) && Chained(m) && Fenced(m)
  }

  // -------------------------------------------------------- one step keeps them all

  /** The local part: an action hands the agent over, it never duplicates it. */
  lemma ReactHandsOver(th: Thread, c: Conn, nextGen: Gen, global: bool, action: Action)
    requires Ready(th, c, global, action) && Older(th, nextGen)
    requires Active(th) ==> Serves(th) == c.generation
    ensures var o := React(th, c, nextGen, global, action);
            && o.thread.ac == th.ac && (o.spawned.Some? ==> o.spawned.value.ac == th.ac)
            && (Active(o.thread) ==> Active(th) && Serves(o.thread) == o.conn.generation)
            && (o.spawned.Some? ==> Active(th) && !Active(o.thread) && Active(o.spawned.value)
                                    && Serves(o.spawned.value) == o.conn.generation)
            && (o.installed ==> Active(th) && th.failed == c.generation && o.conn.generation == nextGen && !c.closed)
            && (!o.installed ==> o.conn.generation == c.generation)
            && Older(o.thread, if o.installed then nextGen + 1 else nextGen)
            && (o.spawned.Some? ==> Older(o.spawned.value, nextGen))
            && o.conn.closed == c.closed
            && (o.conn.connected ==> c.connected || o.installed)
            && (FencedThread(th, c) ==> FencedThread(o.thread, o.conn))
  {
  }

  lemma StepKeepsShape(m: Manager, step: Step)
    requires Shaped(m) && Enabled(m, step)
    ensures Shaped(Do(m, step))
    ensures |m.conns| <= |Do(m, step).conns|
    ensures forall a | 0 <= a < |m.conns| :: Do(m, step).endpoints[a] == m.endpoints[a]
  {
    if step.Act? {
      var th := m.threads[step.t];
      assert React(th, m.conns[th.ac], m.nextGen, m.global, step.action).thread.ac == th.ac;
      hide React, Ready;
    }
  }

  lemma SettleKeepsSingleFlight(m: Manager, t: nat, action: Action)
    requires Inv(m) && Enabled(m, Act(t, action)) && Shaped(Do(m, Act(t, action)))
    ensures SingleFlight(Do(m, Act(t, action)))
  {
    var th := m.threads[t];
    ReactHandsOver(th, m.conns[th.ac], m.nextGen, m.global, action);
    hide React, Ready, Active, Serves, Older, FencedThread, ChainEnds;
  }

  lemma SettleKeepsChains(m: Manager, t: nat, action: Action)
    requires Inv(m) && Enabled(m, Act(t, action)) && Shaped(Do(m, Act(t, action)))
    ensures Chained(Do(m, Act(t, action)))
  {
    var th := m.threads[t];
    ReactHandsOver(th, m.conns[th.ac], m.nextGen, m.global, action);
    assert ChainEnds(m.chains[th.ac], m.conns[th.ac].generation);
    OlderStays(m);
    hide React, Ready, Active, Serves, Older, FencedThread;
  }

  lemma OlderStays(m: Manager)
    requires Shaped(m) && Chained(m)
    ensures forall t | 0 <= t < |m.threads| :: Older(m.threads[t], m.nextGen + 1)
  {
  }

  lemma SettleKeepsFences(m: Manager, t: nat, action: Action)
    requires Inv(m) && Enabled(m, Act(t, action)) && Shaped(Do(m, Act(t, action)))
    ensures Fenced(Do(m, Act(t, action)))
  {
    var th := m.threads[t];
    var n := Do(m, Act(t, action));
    ReactHandsOver(th, m.conns[th.ac], m.nextGen, m.global, action);
    forall u | 0 <= u < |n.threads|
      ensures FencedThread(n.threads[u], n.conns[n.threads[u].ac])
    {
      if u < |m.threads| && u != t {
        assert FencedThread(m.threads[u], m.conns[m.threads[u].ac]) && Older(m.threads[u], m.nextGen);
      }
    }
    hide React, Ready;
  }

  lemma InsertKeepsInv(m: Manager, e: Endpoint, info: Info)
    requires Inv(m)
    ensures Inv(Inserted(m, e, info))
  {
    var n := Inserted(m, e, info);
    OlderStays(m);
    assert ChainEnds([m.nextGen], m.nextGen);
    forall t | 0 <= t < |m.threads|
      ensures FencedThread(n.threads[t], n.conns[n.threads[t].ac]) && n.conns[n.threads[t].ac] == m.conns[m.threads[t].ac]
      ensures n.threads[t] == m.threads[t]
    {
      assert FencedThread(m.threads[t], m.conns[m.threads[t].ac]);
    }
    hide Active, Older, ChainEnds, FencedThread, Taken;
  }

  /** A locked section that only disconnects, closes or cancels. */
  lemma WindingDownKeepsInv(m: Manager, a: nat, c: Conn)
    requires Inv(m) && a < |m.conns| && c.generation == m.conns[a].generation
    requires (c.connected ==> m.conns[a].connected) && (c.closed ==> !c.connected)
    ensures Inv(SetConn(m, a, c))
  {
    hide Active, Older, ChainEnds, Serves, PastMark;
  }

  lemma OtherKeepsInv(m: Manager, step: Step)
    requires Inv(m) && Enabled(m, step) && !step.Act? && (step.Insert? ==> m.global)
    ensures Inv(Do(m, step))
  {
    hide Active, Older, ChainEnds, Serves, FencedThread;
    match step
    case StopConn(a) => WindingDownKeepsInv(m, a, Stop(m.conns[a]));
    case CancelConn(a) => WindingDownKeepsInv(m, a, m.conns[a].(cancelled := true));
    case _ =>
  }

  lemma StepKeepsInv(m: Manager, step: Step)
    requires Inv(m) && Enabled(m, step)
    ensures Inv(Do(m, step))
  {
    if step.Act? {
      StepKeepsShape(m, step);
      SettleKeepsSingleFlight(m, step.t, step.action);
      SettleKeepsChains(m, step.t, step.action);
      SettleKeepsFences(m, step.t, step.action);
    } else if step.Insert? && !m.global {
      InsertKeepsInv(m, m.scan.value.endpoint, m.scan.value.info);
    } else {
      OtherKeepsInv(m, step);
    }
    hide *;
  }

  lemma {:induction false} RunKeepsInv(m: Manager, steps: seq<Step>)
    requires Inv(m) && Runs(m, steps)
    ensures Inv(End(m, steps))
    decreases |steps|
  {
    if steps == [] {
    } else {
      StepKeepsInv(m, steps[0]);
      RunKeepsInv(Do(m, steps[0]), steps[1..]);
    }
  }

  // -------------------------------------------------------------- main results

  /** In every interleaving: each agent has at most one pump in its loop or
      reconnect in progress; a connected agent is not closed, its generation ends
      its chain, and no pump of that generation is past its mark. */
  lemma SingleFlightAlways(steps: seq<Step>)
    requires Runs(Idle(), steps)
    ensures var m := End(Idle(), steps);
            && (forall t, u | 0 <= t < u < |m.threads| && Active(m.threads[t]) && Active(m.threads[u]) ::
                  m.threads[t].ac != m.threads[u].ac)
            && (forall a | 0 <= a < |m.conns| && m.conns[a].connected :: !m.conns[a].closed)
            && (forall a | 0 <= a < |m.conns| :: ChainEnds(m.chains[a], m.conns[a].generation))
            && (forall t | 0 <= t < |m.threads| && PastMark(m.threads[t]) && m.conns[m.threads[t].ac].connected ::
                  m.threads[t].gen != m.conns[m.threads[t].ac].generation)
  {
    RunKeepsInv(Idle(), steps);
    var m := End(Idle(), steps);
    forall t | 0 <= t < |m.threads| && PastMark(m.threads[t]) && m.conns[m.threads[t].ac].connected
      ensures m.threads[t].gen != m.conns[m.threads[t].ac].generation
    {
      assert FencedThread(m.threads[t], m.conns[m.threads[t].ac]);
    }
  }

  /** An install always replaces exactly the generation whose failure started the
      reconnect, and extends the agent's chain by the new one. */
  lemma InstallReplacesTheFailed(steps: seq<Step>, t: nat, now: nat)
    requires Runs(Idle(), steps) && Enabled(End(Idle(), steps), Act(t, TryInstall(now)))
    ensures var m := End(Idle(), steps); var a := m.threads[t].ac; var n := Do(m, Act(t, TryInstall(now)));
            m.threads[t].Reconnect? && m.threads[t].phase.Dialing? &&
            if CanInstall(m.conns[a], m.global)
            then m.conns[a].generation == m.threads[t].failed
                 && n.chains[a] == m.chains[a] + [n.conns[a].generation] && n.conns[a].connected
                 && m.chains[a] != [] && m.chains[a][|m.chains[a]| - 1] == m.threads[t].failed
            else n.conns == m.conns && n.chains == m.chains && n.threads[t] == m.threads[t].(phase := Over)
  {
    hide Runs, End;
    RunKeepsInv(Idle(), steps);
    var m := End(Idle(), steps);
    assert Active(m.threads[t]) && Serves(m.threads[t]) == m.threads[t].failed;
    assert ChainEnds(m.chains[m.threads[t].ac], m.conns[m.threads[t].ac].generation);
  }

  /** Stopping is final: whatever runs afterwards, a closed agent stays closed and
      disconnected and never gets another generation; nor does any agent once the
      manager's context is cancelled. */
  lemma {:induction false} StopIsFinal(m: Manager, steps: seq<Step>, a: nat)
    requires Inv(m) && Runs(m, steps) && a < |m.conns| && (m.conns[a].closed || m.global)
    ensures a < |End(m, steps).conns| && |End(m, steps).chains| == |End(m, steps).conns|
    ensures End(m, steps).conns[a].generation == m.conns[a].generation && End(m, steps).chains[a] == m.chains[a]
    ensures m.conns[a].closed ==> End(m, steps).conns[a].closed && !End(m, steps).conns[a].connected
    decreases |steps|
  {
    hide Do, Enabled;
    if steps == [] {
    } else {
      StepKeepsInv(m, steps[0]);
      StepKeepsStop(m, steps[0], a);
      StopIsFinal(Do(m, steps[0]), steps[1..], a);
    }
  }

  lemma StepKeepsStop(m: Manager, step: Step, a: nat)
    requires Inv(m) && Enabled(m, step) && Shaped(Do(m, step)) && a < |m.conns| && (m.conns[a].closed || m.global)
    ensures var n := Do(m, step);
            && a < |n.conns| && n.conns[a].generation == m.conns[a].generation && n.chains[a] == m.chains[a]
            && (m.conns[a].closed ==> n.conns[a].closed) && (m.global ==> n.global)
  {
    if step.Act? {
      var th := m.threads[step.t];
      ReactHandsOver(th, m.conns[th.ac], m.nextGen, m.global, step.action);
    }
  }

  /** A generation that may be used for sending is the last of an open agent's
      chain, and no pump of it has passed its mark. */
  lemma CurrentIsLive(steps: seq<Step>, a: nat)
    requires Runs(Idle(), steps) && a < |End(Idle(), steps).conns|
    requires Current(End(Idle(), steps).conns[a]).Some?
    ensures var m := End(Idle(), steps); var gen := Current(m.conns[a]).value;
            && !m.conns[a].closed && ChainEnds(m.chains[a], gen)
            && (forall t | 0 <= t < |m.threads| && PastMark(m.threads[t]) && m.threads[t].ac == a :: m.threads[t].gen != gen)
            && (forall t | 0 <= t < |m.threads| && Active(m.threads[t]) && m.threads[t].ac == a :: Serves(m.threads[t]) == gen)
  {
    RunKeepsInv(Idle(), steps);
    var m := End(Idle(), steps);
    forall t | 0 <= t < |m.threads| && PastMark(m.threads[t]) && m.threads[t].ac == a
      ensures m.threads[t].gen != Current(m.conns[a]).value
    {
      assert FencedThread(m.threads[t], m.conns[m.threads[t].ac]);
    }
  }

  /** A pump whose generation has been replaced. */
  predicate Superseded(m: Manager, t: nat)
    requires Shaped(m)
  {
    t < |m.threads| && m.threads[t].Pump? && m.threads[t].gen != m.conns[m.threads[t].ac].generation
  }

  lemma StepKeepsSuperseded(m: Manager, step: Step, t: nat)
    requires Inv(m) && Enabled(m, step) && Shaped(Do(m, step)) && Superseded(m, t)
    ensures Superseded(Do(m, step), t)
  {
    assert Older(m.threads[t], m.nextGen);
    if step.Act? {
      var th := m.threads[step.t];
      ReactHandsOver(th, m.conns[th.ac], m.nextGen, m.global, step.action);
    }
  }

  lemma {:induction false} SupersededForGood(m: Manager, steps: seq<Step>, t: nat)
    requires Inv(m) && Runs(m, steps) && Superseded(m, t)
    ensures Superseded(End(m, steps), t) && Inv(End(m, steps))
    decreases |steps|
  {
    if steps == [] {
    } else {
      StepKeepsSuperseded(m, steps[0], t);
      StepKeepsInv(m, steps[0]);
      SupersededForGood(Do(m, steps[0]), steps[1..], t);
    }
    hide Inv, Superseded;
  }

  /** Once a pump's generation has been replaced, the pump has left its loop, and
      whatever it still does in the rest of any run changes no agent's state. */
  lemma SupersededPumpIsHarmless(steps: seq<Step>, more: seq<Step>, t: nat, action: Action)
    requires Runs(Idle(), steps) && Superseded(End(Idle(), steps), t)
    requires Runs(End(Idle(), steps), more) && Enabled(End(End(Idle(), steps), more), Act(t, action))
    ensures var m := End(End(Idle(), steps), more); var n := Do(m, Act(t, action));
            !Active(m.threads[t]) && n.conns == m.conns && n.chains == m.chains && |n.threads| == |m.threads|
  {
    RunKeepsInv(Idle(), steps);
    SupersededForGood(End(Idle(), steps), more, t);
    var m := End(End(Idle(), steps), more);
    assert m.conns[m.threads[t].ac := m.conns[m.threads[t].ac]] == m.conns;
    hide Runs, End;
  }

  // ------------------------------------------------------ one agent per endpoint

  predicate UniqueEndpoints(m: Manager)
    requires Shaped(m)
  {
    forall a, b | a in m.listed && b in m.listed && m.conns[a].connected && m.conns[b].connected
      && m.endpoints[a] == m.endpoints[b] :: a == b
  }

  /** A reconnect installs a generation for this listed agent. */
  predicate Installs(m: Manager, step: Step, a: nat)
    requires Shaped(m) && Enabled(m, step)
  {
    step.Act? && step.action.TryInstall? && m.threads[step.t].ac == a && a in m.listed && CanInstall(m.conns[a], m.global)
  }

  /** A reconnect installs while another connected agent has taken its endpoint. */
  predicate InstallClashes(m: Manager, step: Step)
    requires Shaped(m) && Enabled(m, step)
  {
    exists a, b | a in m.listed && b in m.listed ::
      Installs(m, step, a) && b != a && m.conns[b].connected && m.endpoints[b] == m.endpoints[a]
  }

  /** A connect inserts its agent although a connected one has its endpoint: that
      one was connected again after the connect had looked at it. */
  predicate InsertClashes(m: Manager, step: Step)
    requires Shaped(m) && Enabled(m, step)
  {
    step.Insert? && !m.global && Taken(m, m.scan.value.endpoint)
  }

  predicate Clashes(m: Manager, step: Step)
    requires Shaped(m) && Enabled(m, step)
  {
    InstallClashes(m, step) || InsertClashes(m, step)
  }

  lemma InsertUniqueness(m: Manager, e: Endpoint, info: Info)
    requires Shaped(m) && UniqueEndpoints(m) && Shaped(Inserted(m, e, info))
    ensures UniqueEndpoints(Inserted(m, e, info)) <==> !Taken(m, e)
  {
    var n := Inserted(m, e, info);
    var added := |m.conns|;
    assert forall a | a in m.listed :: n.conns[a] == m.conns[a] && n.endpoints[a] == m.endpoints[a];
    assert added in n.listed && n.conns[added].connected && n.endpoints[added] == e;
    if Taken(m, e) {
      var a :| a in m.listed && m.endpoints[a] == e && m.conns[a].connected;
      assert a in n.listed && a != added;
    }
  }

  lemma ActUniqueness(m: Manager, t: nat, action: Action)
    requires Inv(m) && UniqueEndpoints(m) && Enabled(m, Act(t, action)) && Shaped(Do(m, Act(t, action)))
    ensures UniqueEndpoints(Do(m, Act(t, action))) <==> !InstallClashes(m, Act(t, action))
  {
    var th, n := m.threads[t], Do(m, Act(t, action));
    ReactHandsOver(th, m.conns[th.ac], m.nextGen, m.global, action);
    InstallsIffInstalled(m, t, action);
    hide React, Ready, CanInstall;
    if InstallClashes(m, Act(t, action)) {
      var b :| b in m.listed && b != th.ac && m.conns[b].connected && m.endpoints[b] == m.endpoints[th.ac];
      assert n.conns[b] == m.conns[b] && n.conns[th.ac].connected;
    } else if action.TryInstall? && Installs(m, Act(t, action), th.ac) {
      assert forall b | b in m.listed && b != th.ac :: !(m.conns[b].connected && m.endpoints[b] == m.endpoints[th.ac]);
    }
  }

  lemma InstallsIffInstalled(m: Manager, t: nat, action: Action)
    requires Shaped(m) && Enabled(m, Act(t, action))
    ensures var th := m.threads[t]; var o := React(th, m.conns[th.ac], m.nextGen, m.global, action);
            && (o.installed && th.ac in m.listed <==> Installs(m, Act(t, action), th.ac))
            && (o.installed ==> o.conn.connected)
            && (forall a :: Installs(m, Act(t, action), a) ==> a == th.ac)
  {
  }

  lemma StepUniqueness(m: Manager, step: Step)
    requires Inv(m) && UniqueEndpoints(m) && Enabled(m, step) && Shaped(Do(m, step))
    ensures UniqueEndpoints(Do(m, step)) <==> !Clashes(m, step)
  {
    if step.Act? {
      ActUniqueness(m, step.t, step.action);
    } else if step.Insert? && !m.global {
      InsertUniqueness(m, m.scan.value.endpoint, m.scan.value.info);
    }
  }

  /** Endpoints stay unique in every state of a run. */
  ghost predicate AlwaysUnique(m: Manager, steps: seq<Step>)
    requires Shaped(m) && Runs(m, steps)
    decreases |steps|
  {
    UniqueEndpoints(m) && (steps != [] ==> AlwaysUnique(Do(m, steps[0]), steps[1..]))
  }

  ghost predicate NeverClashes(m: Manager, steps: seq<Step>)
    requires Shaped(m) && Runs(m, steps)
    decreases |steps|
  {
    steps != [] ==> !Clashes(m, steps[0]) && NeverClashes(Do(m, steps[0]), steps[1..])
  }

  lemma {:induction false} UniqueAlong(m: Manager, steps: seq<Step>)
    requires Inv(m) && UniqueEndpoints(m) && Runs(m, steps)
    ensures AlwaysUnique(m, steps) <==> NeverClashes(m, steps)
    decreases |steps|
  {
    if steps == [] {
    } else {
      StepUniqueness(m, steps[0]);
      if !Clashes(m, steps[0]) {
        StepKeepsInv(m, steps[0]);
        UniqueAlong(Do(m, steps[0]), steps[1..]);
      } else {
        NotUniqueAnyMore(Do(m, steps[0]), steps[1..]);
      }
    }
    hide Inv, UniqueEndpoints, Clashes, Do, Enabled;
  }

  lemma NotUniqueAnyMore(m: Manager, steps: seq<Step>)
    requires Shaped(m) && Runs(m, steps) && !UniqueEndpoints(m)
    ensures !AlwaysUnique(m, steps)
  {
  }

  /** In every run, connected agents have distinct endpoints throughout if and only
      if no reconnect installs on a taken endpoint and no connect inserts on one. */
  lemma UniqueUnlessClash(steps: seq<Step>)
    requires Runs(Idle(), steps)
    ensures AlwaysUnique(Idle(), steps) <==> NeverClashes(Idle(), steps)
  {
    UniqueAlong(Idle(), steps);
  }

  /** A reconnect installs for an agent that a running connect to its endpoint has
      already looked at. */
  predicate Overtakes(m: Manager, step: Step)
    requires Shaped(m) && Enabled(m, step)
  {
    m.scan.Some? && exists a | a in m.listed ::
      Installs(m, step, a) && a !in m.scan.value.todo && m.endpoints[a] == m.scan.value.endpoint
  }

  /** What a running connect has looked at is not connected to its endpoint. */
  predicate LookedThrough(m: Manager)
    requires Shaped(m)
  {
    m.scan.Some? ==>
      forall a | a in m.listed && a !in m.scan.value.todo && m.endpoints[a] == m.scan.value.endpoint :: !m.conns[a].connected
  }

  lemma StepKeepsLookedThrough(m: Manager, step: Step)
    requires Inv(m) && LookedThrough(m) && Enabled(m, step) && Shaped(Do(m, step)) && !Overtakes(m, step)
    ensures LookedThrough(Do(m, step))
    ensures !InsertClashes(m, step)
  {
    if step.Act? {
      var th := m.threads[step.t];
      ReactHandsOver(th, m.conns[th.ac], m.nextGen, m.global, step.action);
      InstallsIffInstalled(m, step.t, step.action);
    }
    hide React, Ready, CanInstall;
  }

  /** No install of the run clashes with a connected agent or overtakes a connect. */
  ghost predicate InstallsInOrder(m: Manager, steps: seq<Step>)
    requires Shaped(m) && Runs(m, steps)
    decreases |steps|
  {
    steps != [] ==>
      && !InstallClashes(m, steps[0]) && !Overtakes(m, steps[0])
      && InstallsInOrder(Do(m, steps[0]), steps[1..])
  }

  lemma {:induction false} InOrderAlong(m: Manager, steps: seq<Step>)
    requires Inv(m) && LookedThrough(m) && Runs(m, steps) && InstallsInOrder(m, steps)
    ensures NeverClashes(m, steps)
    decreases |steps|
  {
    if steps == [] {
    } else {
      StepKeepsInv(m, steps[0]);
      StepKeepsLookedThrough(m, steps[0]);
      InOrderAlong(Do(m, steps[0]), steps[1..]);
    }
    hide Inv, LookedThrough, InstallClashes, InsertClashes, Overtakes, Do, Enabled;
  }

  /** Only reconnects break the rule: connects, disconnects and lost connections in
      any interleaving keep one connected agent per endpoint. */
  lemma OnlyInstallsClash(steps: seq<Step>)
    requires Runs(Idle(), steps) && InstallsInOrder(Idle(), steps)
    ensures AlwaysUnique(Idle(), steps)
  {
    InOrderAlong(Idle(), steps);
    UniqueUnlessClash(steps);
  }

  lemma {:induction false} RunSnoc(m: Manager, steps: seq<Step>, step: Step)
    requires Shaped(m) && Runs(m, steps) && Enabled(End(m, steps), step) && Shaped(Do(End(m, steps), step))
    ensures Runs(m, steps + [step]) && End(m, steps + [step]) == Do(End(m, steps), step)
    decreases |steps|
  {
    if steps == [] {
      assert [step][1..] == [];
    } else {
      assert (steps + [step])[1..] == steps[1..] + [step];
      RunSnoc(Do(m, steps[0]), steps[1..], step);
    }
  }

  /** A run from the start and the state it ends in. */
  ghost predicate Reaches(steps: seq<Step>, m: Manager) {
    Runs(Idle(), steps) && End(Idle(), steps) == m
  }

  lemma Proceed(steps: seq<Step>, m: Manager, step: Step) returns (more: seq<Step>, n: Manager)
    requires Reaches(steps, m) && Shaped(m) && Enabled(m, step)
    ensures n == Do(m, step) && Shaped(n) && Reaches(more, n)
  {
    n, more := Do(m, step), steps + [step];
    StepKeepsShape(m, step);
    RunSnoc(Idle(), steps, step);
  }

  /** A manager with a single agent. */
  function Sole(threads: seq<Thread>, c: Conn, e: Endpoint): Manager {
    Manager([c], [e], {0}, threads, [[0]], 1, None, false)
  }

  lemma SoleStart(e: Endpoint, info: Info) returns (steps: seq<Step>)
    ensures Reaches(steps, Sole([Pump(0, 0, InLoop)], Conn(0, true, false, false, info), e))
  {
    hide Reaches;
    var m;
    NothingYet();
    steps, m := Proceed([], Idle(), BeginConnect(e, info));
    steps, m := Proceed(steps, m, Insert);
    assert m == Sole([Pump(0, 0, InLoop)], Conn(0, true, false, false, info), e);
  }

  lemma NothingYet()
    ensures Reaches([], Idle())
  {
  }

  lemma SoleAct(steps: seq<Step>, threads: seq<Thread>, c: Conn, e: Endpoint, t: nat, action: Action, o: Outcome, after: seq<Thread>)
    returns (more: seq<Step>)
    requires Reaches(steps, Sole(threads, c, e)) && Shaped(Sole(threads, c, e))
    requires t < |threads| && Ready(threads[t], c, false, action)
    requires o == React(threads[t], c, 1, false, action) && !o.installed
    requires after == threads[t := o.thread] + (if o.spawned.Some? then [o.spawned.value] else [])
    ensures Reaches(more, Sole(after, o.conn, e)) && Shaped(Sole(after, o.conn, e))
  {
    var m;
    assert threads[t].ac == 0;
    more, m := Proceed(steps, Sole(threads, c, e), Act(t, action));
    assert m.conns == [o.conn];
    assert m == Sole(after, o.conn, e);
    hide Reaches, React, Ready;
  }

  /** An agent that lost its connection and whose reconnect is about to dial. */
  lemma LostAndDialing(e: Endpoint, info: Info) returns (steps: seq<Step>, m: Manager)
    ensures Reaches(steps, m) && Shaped(m)
    ensures m == Sole([Pump(0, 0, Marked), Reconnect(0, 0, Dialing, 0)], Conn(0, false, false, false, info), e)
  {
    hide Reaches;
    var up, down := Conn(0, true, false, false, info), Conn(0, false, false, false, info);
    steps := SoleStart(e, info);
    steps := SoleAct(steps, [Pump(0, 0, InLoop)], up, e, 0, FailRead,
                     Outcome(Pump(0, 0, ReadFailed), None, up, false), [Pump(0, 0, ReadFailed)]);
    var waiting := Reconnect(0, 0, Starting, 0);
    steps := SoleAct(steps, [Pump(0, 0, ReadFailed)], up, e, 0, Decide,
                     Outcome(Pump(0, 0, LeftLoop), Some(waiting), up, false), [Pump(0, 0, LeftLoop), waiting]);
    steps := SoleAct(steps, [Pump(0, 0, LeftLoop), waiting], up, e, 0, Mark,
                     Outcome(Pump(0, 0, Marked), None, down, false), [Pump(0, 0, Marked), waiting]);
    steps := SoleAct(steps, [Pump(0, 0, Marked), waiting], down, e, 1, Begin,
                     Outcome(Reconnect(0, 0, Waiting, 0), None, down, false), [Pump(0, 0, Marked), Reconnect(0, 0, Waiting, 0)]);
    steps := SoleAct(steps, [Pump(0, 0, Marked), Reconnect(0, 0, Waiting, 0)], down, e, 1, Wake,
                     Outcome(Reconnect(0, 0, Dialing, 0), None, down, false), [Pump(0, 0, Marked), Reconnect(0, 0, Dialing, 0)]);
    m := Sole([Pump(0, 0, Marked), Reconnect(0, 0, Dialing, 0)], down, e);
  }

  /** The clash does happen: two connected agents for one endpoint. */
  lemma TwoAgentsForOneEndpoint(e: Endpoint, info: Info)
    ensures exists steps, m :: Reaches(steps, m) && Shaped(m) && !UniqueEndpoints(m)
  {
    var steps, m := LostAndDialing(e, info);
    hide Reaches;
    steps, m := Proceed(steps, m, BeginConnect(e, info));
    steps, m := Proceed(steps, m, Look(0));
    steps, m := Proceed(steps, m, Insert);
    assert m.conns[0] == Conn(0, false, false, false, info) && m.conns[1].connected && m.endpoints == [e, e];
    assert m.threads[1] == Reconnect(0, 0, Dialing, 0);
    steps, m := Proceed(steps, m, Act(1, TryInstall(0)));
    assert m.conns[0].connected && m.conns[1].connected;
  }

  /** So does the other clash: the connect looks at the agent, the reconnect
      installs, and the connect inserts a second agent all the same. */
  lemma ConnectCanBeOvertaken(e: Endpoint, info: Info)
    ensures exists steps, m :: Reaches(steps, m) && Shaped(m) && Enabled(m, Insert) && InsertClashes(m, Insert)
  {
    var steps, m := LostAndDialing(e, info);
    hide Reaches;
    steps, m := Proceed(steps, m, BeginConnect(e, info));
    steps, m := Proceed(steps, m, Look(0));
    assert m.threads[1] == Reconnect(0, 0, Dialing, 0);
    steps, m := Proceed(steps, m, Act(1, TryInstall(0)));
    assert 0 in m.listed && m.conns[0].connected && m.endpoints[0] == e;
  }
}
