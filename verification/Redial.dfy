/** When lost connections are dialled again and when they are not: what starts a
    reconnect, how often it dials, what ends it, and that it restores the agent. */
module Redial {
  import opened Common
  import opened AgentConnection
  import opened Generations

  /** The agent was disconnected deliberately, or the manager is closing. */
  predicate Halted(m: Manager, a: nat)
    requires a < |m.conns|
  {
    m.conns[a].closed || m.conns[a].cancelled || m.global
  }

  /** What became of a thread in a step: nothing, or its own action. */
  lemma ThreadsMove(m: Manager, step: Step, t: nat)
    requires Shaped(m) && Enabled(m, step) && t < |Do(m, step).threads|
    ensures var n := Do(m, step);
            if t >= |m.threads| then
              (step.Insert? && !m.global && n.threads[t] == Pump(|m.conns|, m.nextGen, InLoop))
              || (step.Act? && var th := m.threads[step.t];
                               React(th, m.conns[th.ac], m.nextGen, m.global, step.action).spawned == Some(n.threads[t]))
            else if step.Act? && step.t == t then
              n.threads[t] == React(m.threads[t], m.conns[m.threads[t].ac], m.nextGen, m.global, step.action).thread
            else n.threads[t] == m.threads[t]
    ensures |m.threads| <= |Do(m, step).threads|
  {
    hide React, Ready;
  }

  // ------------------------------------------------- a stopped agent stays down

  lemma StaysHalted(m: Manager, step: Step, a: nat)
    requires Shaped(m) && Enabled(m, step) && a < |m.conns| && Halted(m, a)
    ensures a < |Do(m, step).conns| && Halted(Do(m, step), a)
  {
  }

  /** Every reconnect of the agent in n was there in m, and only one that was
      dialling or had installed a generation then can be doing so. */
  predicate NoneNew(m: Manager, n: Manager, a: nat) {
    forall t | 0 <= t < |n.threads| && n.threads[t].Reconnect? && n.threads[t].ac == a ::
      && t < |m.threads| && m.threads[t].Reconnect? && m.threads[t].ac == a
      && (n.threads[t].phase.Dialing? ==> m.threads[t].phase.Dialing?)
      && (n.threads[t].phase.Installed? ==> m.threads[t].phase.Installed?)
  }

  lemma HaltedReact(th: Thread, c: Conn, nextGen: Gen, global: bool, action: Action)
    requires Ready(th, c, global, action) && (c.closed || c.cancelled || global)
    ensures var o := React(th, c, nextGen, global, action);
            && !(o.spawned.Some? && o.spawned.value.Reconnect?)
            && o.thread.ac == th.ac && o.thread.Reconnect? == th.Reconnect?
            && (o.thread.Reconnect? && o.thread.phase.Dialing? ==> th.phase.Dialing?)
            && (o.thread.Reconnect? && o.thread.phase.Installed? ==> th.phase.Installed?)
  {
  }

  lemma SpawnsForItsAgent(th: Thread, c: Conn, nextGen: Gen, global: bool, action: Action)
    requires Ready(th, c, global, action)
    ensures var o := React(th, c, nextGen, global, action);
            o.thread.ac == th.ac && o.thread.Reconnect? == th.Reconnect? && (o.spawned.Some? ==> o.spawned.value.ac == th.ac)
  {
  }

  lemma HaltedStep(m: Manager, step: Step, a: nat)
    requires Shaped(m) && Enabled(m, step) && a < |m.conns| && Halted(m, a)
    ensures NoneNew(m, Do(m, step), a)
  {
    hide Do, React, Ready;
    var n := Do(m, step);
    forall t | 0 <= t < |n.threads| && n.threads[t].Reconnect? && n.threads[t].ac == a
      ensures t < |m.threads| && m.threads[t].Reconnect? && m.threads[t].ac == a
      ensures n.threads[t].phase.Dialing? ==> m.threads[t].phase.Dialing?
      ensures n.threads[t].phase.Installed? ==> m.threads[t].phase.Installed?
    {
      ThreadsMove(m, step, t);
      if step.Act? {
        ActorIsThere(m, step);
        var th := m.threads[step.t];
        SpawnsForItsAgent(th, m.conns[th.ac], m.nextGen, m.global, step.action);
        if th.ac == a {
          HaltedReact(th, m.conns[th.ac], m.nextGen, m.global, step.action);
        }
      }
    }
  }

  lemma ActorIsThere(m: Manager, step: Step)
    requires Shaped(m) && Enabled(m, step) && step.Act?
    ensures step.t < |m.threads| && m.threads[step.t].ac < |m.conns|
    ensures Ready(m.threads[step.t], m.conns[m.threads[step.t].ac], m.global, step.action)
  {
  }

  /** Once an agent is disconnected deliberately or the manager is closing, in the
      rest of any run no pump starts a reconnect for it, and no reconnect of it comes
      to dial or to install any more. */
  lemma {:induction false} HaltedIsNotRedialled(m: Manager, steps: seq<Step>, a: nat)
    requires Shaped(m) && Runs(m, steps) && a < |m.conns| && Halted(m, a)
    ensures NoneNew(m, End(m, steps), a)
    ensures a < |End(m, steps).conns| && Halted(End(m, steps), a)
    decreases |steps|
  {
    hide Do, Enabled, Halted;
    if steps == [] {
    } else {
      StaysHalted(m, steps[0], a);
      HaltedStep(m, steps[0], a);
      HaltedIsNotRedialled(Do(m, steps[0]), steps[1..], a);
    }
  }

  // --------------------------------------------- what a failed read leads to

  /** In every interleaving: a pump that failed to read starts a reconnect for the
      generation it served, if and only if its agent was not disconnected deliberately
      and the manager is not closing. */
  lemma FailureRedials(steps: seq<Step>, t: nat)
    requires Runs(Idle(), steps) && Enabled(End(Idle(), steps), Act(t, Decide))
    ensures var m := End(Idle(), steps); var th := m.threads[t]; var n := Do(m, Act(t, Decide));
            && n.conns == m.conns
            && n.threads == m.threads[t := th.(pump := LeftLoop)]
                            + (if Halted(m, th.ac) then [] else [Reconnect(th.ac, th.gen, Starting, 0)])
  {
    hide Runs, End;
    RunKeepsInv(Idle(), steps);
    var m := End(Idle(), steps);
    assert Active(m.threads[t]);
    assert m.conns[m.threads[t].ac := m.conns[m.threads[t].ac]] == m.conns;
  }

  /** Likewise a reconnect goes on to wait, and after each wait to dial. */
  lemma ReconnectGoesOn(steps: seq<Step>, t: nat, action: Action)
    requires Runs(Idle(), steps) && Enabled(End(Idle(), steps), Act(t, action)) && (action.Begin? || action.Wake?)
    ensures var m := End(Idle(), steps); var th := m.threads[t]; var n := Do(m, Act(t, action));
            n == m.(threads := m.threads[t := th.(phase := if Halted(m, th.ac) then Over
                                                           else if action.Begin? then Waiting else Dialing)])
  {
    hide Runs, End;
    RunKeepsInv(Idle(), steps);
    var m := End(Idle(), steps);
    assert Active(m.threads[t]);
    assert m.conns[m.threads[t].ac := m.conns[m.threads[t].ac]] == m.conns;
    assert forall s: seq<Thread> :: s + [] == s;
  }

  // ------------------------------------------------------------- five attempts

  /** A reconnect dials at most five times, and gives up exactly after the fifth failure. */
  predicate Counted(th: Thread) {
    th.Reconnect? ==>
      match th.phase
      case Starting => th.tries == 0
      case Waiting => th.tries < 5
      case Dialing => th.tries < 5
      case Installed(_) => th.tries < 5
      case GivingUp => th.tries == 5
      case Over => th.tries <= 5
  }

  predicate AllCounted(m: Manager) {
    forall t | 0 <= t < |m.threads| :: Counted(m.threads[t])
  }

  lemma ReactCounts(th: Thread, c: Conn, nextGen: Gen, global: bool, action: Action)
    requires Ready(th, c, global, action) && Counted(th)
    ensures var o := React(th, c, nextGen, global, action);
            && Counted(o.thread) && (o.spawned.Some? ==> Counted(o.spawned.value))
            && (th.Reconnect? ==> o.thread.tries == th.tries + (if action.FailDial? then 1 else 0))
  {
  }

  lemma StepCounts(m: Manager, step: Step)
    requires Shaped(m) && AllCounted(m) && Enabled(m, step)
    ensures AllCounted(Do(m, step))
  {
    hide Do, React, Ready, Counted, Enabled;
    var n := Do(m, step);
    forall t | 0 <= t < |n.threads|
      ensures Counted(n.threads[t])
    {
      ThreadsMove(m, step, t);
      if step.Act? {
        ActorIsThere(m, step);
        var th := m.threads[step.t];
        assert Counted(th);
        ReactCounts(th, m.conns[th.ac], m.nextGen, m.global, step.action);
      } else if t >= |m.threads| {
        PumpCounts(|m.conns|, m.nextGen);
      } else {
        assert Counted(m.threads[t]);
      }
    }
  }

  lemma PumpCounts(a: nat, gen: Gen)
    ensures Counted(Pump(a, gen, InLoop))
  {
  }

  lemma {:induction false} AtMostFiveDials(m: Manager, steps: seq<Step>)
    requires Shaped(m) && AllCounted(m) && Runs(m, steps)
    ensures AllCounted(End(m, steps))
    decreases |steps|
  {
    if steps == [] {
    } else {
      StepCounts(m, steps[0]);
      AtMostFiveDials(Do(m, steps[0]), steps[1..]);
    }
    hide Do, Enabled, AllCounted;
  }

  /** A reconnect ends by installing a generation, with unusable options, because
      its agent is halted, or after five failed attempts: for no other reason. */
  lemma WhyReconnectsEnd(steps: seq<Step>, t: nat, action: Action)
    requires Runs(Idle(), steps) && Enabled(End(Idle(), steps), Act(t, action))
    requires End(Idle(), steps).threads[t].Reconnect?
    ensures var m := End(Idle(), steps); var th := m.threads[t]; var after := Do(m, Act(t, action)).threads[t];
            after.Reconnect? && !th.phase.Over?
            && (after.phase.Over? ==>
                  Halted(m, th.ac) || th.phase.Installed? || action.Abandon? || (th.phase.GivingUp? && th.tries == 5))
  {
    hide Runs, End;
    RunKeepsInv(Idle(), steps);
    AtMostFiveDials(Idle(), steps);
    var m := End(Idle(), steps);
    assert Counted(m.threads[t]) && (Active(m.threads[t]) ==> Serves(m.threads[t]) == m.conns[m.threads[t].ac].generation);
  }

  // ------------------------------------------------------------ runs, step by step

  lemma InvIsShaped(m: Manager)
    requires Inv(m)
    ensures Shaped(m)
  {
  }

  /** A state that a run leads to. */
  ghost predicate Leads(m: Manager, steps: seq<Step>, n: Manager) {
    Shaped(m) && Shaped(n) && Runs(m, steps) && End(m, steps) == n
  }

  lemma Stay(m: Manager)
    requires Shaped(m)
    ensures Leads(m, [], m)
  {
  }

  lemma Go(m: Manager, steps: seq<Step>, n: Manager, step: Step) returns (more: seq<Step>, next: Manager)
    requires Leads(m, steps, n) && Enabled(n, step)
    ensures more == steps + [step] && next == Do(n, step) && Leads(m, more, next) && Shaped(next)
  {
    more, next := steps + [step], Do(n, step);
    StepKeepsShape(n, step);
    RunSnoc(m, steps, step);
  }

  /** The state after a thread's own action: the thread, what it starts, and its agent. */
  function With(m: Manager, t: nat, th: Thread, started: seq<Thread>, c: Conn): Manager
    requires Shaped(m) && t < |m.threads|
  {
    m.(threads := m.threads[t := th] + started, conns := m.conns[m.threads[t].ac := c])
  }

  lemma GoAct(m: Manager, steps: seq<Step>, n: Manager, t: nat, action: Action, o: Outcome)
    returns (more: seq<Step>, next: Manager)
    requires Leads(m, steps, n) && Enabled(n, Act(t, action)) && !o.installed
    requires o == React(n.threads[t], n.conns[n.threads[t].ac], n.nextGen, n.global, action)
    ensures more == steps + [Act(t, action)] && Leads(m, more, next) && Shaped(next)
    ensures next == With(n, t, o.thread, if o.spawned.Some? then [o.spawned.value] else [], o.conn)
  {
    hide Leads, React, Ready;
    more, next := Go(m, steps, n, Act(t, action));
  }

  // ------------------------------------------------------ a lost connection

  /** The pump t has left its loop after a failed read, and this is its reconnect. */
  function Lost(m: Manager, t: nat, re: Thread): Manager
    requires t < |m.threads| && m.threads[t].Pump?
  {
    m.(threads := m.threads[t := m.threads[t].(pump := LeftLoop)] + [re])
  }

  lemma LostIs(m: Manager, t: nat, re: Thread)
    requires Shaped(m) && t < |m.threads| && m.threads[t].Pump? && re.ac == m.threads[t].ac
    ensures var n := Lost(m, t, re); Shaped(n) && |n.threads| == |m.threads| + 1 && n.threads[|m.threads|] == re
  {
  }

  /** A pump in its loop reads for the current generation, and nothing else is active. */
  lemma SoleReader(m: Manager, t: nat)
    requires Inv(m) && t < |m.threads| && m.threads[t].Pump? && m.threads[t].pump.InLoop?
    ensures Shaped(m) && m.threads[t].gen == m.conns[m.threads[t].ac].generation
    ensures forall u | 0 <= u < |m.threads| && u != t && m.threads[u].ac == m.threads[t].ac :: !Active(m.threads[u])
  {
    assert Active(m.threads[t]);
  }

  /** A read fails, and the pump starts a reconnect. */
  lemma Lose(m: Manager, t: nat) returns (steps: seq<Step>)
    requires Inv(m) && t < |m.threads| && m.threads[t].Pump? && m.threads[t].pump.InLoop? && !Halted(m, m.threads[t].ac)
    ensures steps == [Act(t, FailRead), Act(t, Decide)]
    ensures var th := m.threads[t]; Leads(m, steps, Lost(m, t, Reconnect(th.ac, th.gen, Starting, 0)))
  {
    hide Leads, Inv;
    InvIsShaped(m);
    var th, c := m.threads[t], m.conns[m.threads[t].ac];
    SoleReader(m, t);
    assert m.conns[th.ac := c] == m.conns;
    Stay(m);
    var n;
    steps, n := GoAct(m, [], m, t, FailRead, Outcome(th.(pump := ReadFailed), None, c, false));
    assert n.conns == m.conns && n.threads[t] == th.(pump := ReadFailed);
    steps, n := GoAct(m, steps, n, t, Decide,
                      Outcome(th.(pump := LeftLoop), Some(Reconnect(th.ac, th.gen, Starting, 0)), c, false));
    assert n == Lost(m, t, Reconnect(th.ac, th.gen, Starting, 0));
  }

  /** The reconnect of a lost connection takes a step of its own. */
  lemma LostGoes(m: Manager, steps: seq<Step>, now: Manager, t: nat, re: Thread, action: Action, next: Thread)
    returns (more: seq<Step>)
    requires Shaped(now) && t < |now.threads| && now.threads[t].Pump? && re.ac == now.threads[t].ac
    requires Leads(m, steps, Lost(now, t, re)) && Ready(re, now.conns[re.ac], now.global, action)
    requires React(re, now.conns[re.ac], now.nextGen, now.global, action) == Outcome(next, None, now.conns[re.ac], false)
    ensures more == steps + [Act(|now.threads|, action)] && Leads(m, more, Lost(now, t, next))
  {
    LostIs(now, t, re);
    hide Leads, React, Ready;
    var n;
    more, n := GoAct(m, steps, Lost(now, t, re), |now.threads|, action, Outcome(next, None, now.conns[re.ac], false));
    assert now.conns[re.ac := now.conns[re.ac]] == now.conns;
    assert n == Lost(now, t, next);
  }

  /** It reaches the agent and installs a new generation. */
  lemma LostInstalls(m: Manager, steps: seq<Step>, now: Manager, t: nat, re: Thread, time: nat)
    returns (more: seq<Step>, n: Manager)
    requires Shaped(now) && t < |now.threads| && now.threads[t].Pump? && re.ac == now.threads[t].ac
    requires Leads(m, steps, Lost(now, t, re)) && re.Reconnect? && re.phase.Dialing? && !Halted(now, re.ac)
    ensures more == steps + [Act(|now.threads|, TryInstall(time))] && Leads(m, more, n) && Shaped(n)
    ensures var a, c := re.ac, now.conns[re.ac];
            n == Lost(now, t, re.(phase := Installed(now.nextGen)))
                 .(conns := now.conns[a := c.(generation := now.nextGen, connected := true, info := c.info.(lastSeen := time))],
                   chains := now.chains[a := now.chains[a] + [now.nextGen]], nextGen := now.nextGen + 1)
  {
    LostIs(now, t, re);
    hide Leads;
    more, n := Go(m, steps, Lost(now, t, re), Act(|now.threads|, TryInstall(time)));
    assert n.threads == Lost(now, t, re.(phase := Installed(now.nextGen))).threads;
  }

  /** From any reachable state: an agent that loses its connection and can be reached
      again is connected again, over a new generation with a pump of its own, which
      ends its chain. */
  lemma LostConnectionIsRestored(m: Manager, t: nat, now: nat) returns (steps: seq<Step>, n: Manager)
    requires Inv(m) && t < |m.threads| && m.threads[t].Pump? && m.threads[t].pump.InLoop? && !Halted(m, m.threads[t].ac)
    ensures var r := |m.threads|;
            steps == [Act(t, FailRead), Act(t, Decide), Act(r, Begin), Act(r, Wake), Act(r, TryInstall(now)), Act(r, StartPump)]
    ensures Leads(m, steps, n)
    ensures var th := m.threads[t]; var a, c := th.ac, m.conns[th.ac];
            && n.threads == m.threads[t := th.(pump := LeftLoop)] + [Reconnect(a, th.gen, Over, 0), Pump(a, m.nextGen, InLoop)]
            && n.conns == m.conns[a := c.(generation := m.nextGen, connected := true, info := c.info.(lastSeen := now))]
            && Current(n.conns[a]) == Some(m.nextGen)
            && n.chains == m.chains[a := m.chains[a] + [m.nextGen]]
            && n.listed == m.listed && n.endpoints == m.endpoints
  {
    hide Leads, Inv;
    InvIsShaped(m);
    var th, r := m.threads[t], |m.threads|;
    var c, re := m.conns[th.ac], Reconnect(th.ac, th.gen, Starting, 0);
    SoleReader(m, t);
    steps := Lose(m, t);
    steps := LostGoes(m, steps, m, t, re, Begin, re.(phase := Waiting));
    steps := LostGoes(m, steps, m, t, re.(phase := Waiting), Wake, re.(phase := Dialing));
    var connected;
    steps, connected := LostInstalls(m, steps, m, t, re.(phase := Dialing), now);
    LostIs(m, t, re.(phase := Installed(m.nextGen)));
    steps, n := Go(m, steps, connected, Act(r, StartPump));
    assert n.conns == connected.conns;
    assert n.threads == m.threads[t := th.(pump := LeftLoop)] + [Reconnect(th.ac, th.gen, Over, 0), Pump(th.ac, m.nextGen, InLoop)];
  }

  /** After n failed attempts. */
  function Failed(re: Thread, n: nat): Thread
    requires re.Reconnect?
  {
    re.(tries := n, phase := if n < 5 then Waiting else GivingUp)
  }

  /** The steps of n failed attempts of a reconnect. */
  function Attempts(r: nat, n: nat): seq<Step> {
    if n == 0 then [] else Attempts(r, n - 1) + [Act(r, Wake)] + [Act(r, FailDial)]
  }

  lemma {:induction false} DialsFail(m: Manager, t: nat, re: Thread, before: seq<Step>, start: Manager, n: nat)
    requires Inv(m) && t < |m.threads| && m.threads[t].Pump? && !Halted(m, m.threads[t].ac) && n <= 5
    requires re == Reconnect(m.threads[t].ac, m.conns[m.threads[t].ac].generation, Waiting, 0)
    requires Leads(start, before, Lost(m, t, re))
    ensures Leads(start, before + Attempts(|m.threads|, n), Lost(m, t, Failed(re, n)))
  {
    hide Leads, Inv;
    InvIsShaped(m);
    if n == 0 {
      assert before + [] == before;
      assert Failed(re, 0) == re;
    } else {
      DialsFail(m, t, re, before, start, n - 1);
      var r, waiting := |m.threads|, Failed(re, n - 1);
      var steps := LostGoes(start, before + Attempts(r, n - 1), m, t, waiting, Wake, waiting.(phase := Dialing));
      steps := LostGoes(start, steps, m, t, waiting.(phase := Dialing), FailDial, Failed(re, n));
      assert before + Attempts(r, n) == before + Attempts(r, n - 1) + [Act(r, Wake)] + [Act(r, FailDial)];
    }
  }

  /** From any reachable state: an agent that loses its connection and cannot be
      reached is dialled exactly five times, and is then disconnected for good. */
  lemma UnreachableAgentIsGivenUp(m: Manager, t: nat) returns (steps: seq<Step>, n: Manager)
    requires Inv(m) && t < |m.threads| && m.threads[t].Pump? && m.threads[t].pump.InLoop? && !Halted(m, m.threads[t].ac)
    ensures var r := |m.threads|;
            steps == [Act(t, FailRead), Act(t, Decide), Act(r, Begin)] + Attempts(r, 5) + [Act(r, GiveUp)]
    ensures Leads(m, steps, n)
    ensures var th := m.threads[t];
            && n.threads == m.threads[t := th.(pump := LeftLoop)] + [Reconnect(th.ac, th.gen, Over, 5)]
            && n.conns == m.conns[th.ac := m.conns[th.ac].(connected := false)]
            && Current(n.conns[th.ac]).None? && n.chains == m.chains
            && (forall u | 0 <= u < |n.threads| && n.threads[u].ac == th.ac :: !Active(n.threads[u]))
  {
    hide Leads, Inv;
    InvIsShaped(m);
    var th, r := m.threads[t], |m.threads|;
    var re := Reconnect(th.ac, th.gen, Starting, 0);
    SoleReader(m, t);
    steps := Lose(m, t);
    steps := LostGoes(m, steps, m, t, re, Begin, re.(phase := Waiting));
    DialsFail(m, t, re.(phase := Waiting), steps, m, 5);
    steps := steps + Attempts(r, 5);
    var last := Failed(re.(phase := Waiting), 5);
    LostIs(m, t, last);
    steps, n := GoAct(m, steps, Lost(m, t, last), r, GiveUp,
                      Outcome(last.(phase := Over), None, m.conns[th.ac].(connected := false), false));
  }

  // -------------------------------------------------- disconnecting and ending

  /** From any reachable state, disconnecting a listed agent takes it out of the map
      and leaves it closed, cancelled and without a generation to send over; nothing
      else changes. */
  lemma DisconnectHalts(m: Manager, a: nat) returns (n: Manager)
    requires Inv(m) && a in m.listed && m.scan.None?
    ensures Leads(m, [Remove(a), StopConn(a), CancelConn(a)], n)
    ensures a < |n.conns| && Halted(n, a) && Current(n.conns[a]).None?
    ensures n == m.(listed := m.listed - {a},
                    conns := m.conns[a := m.conns[a].(closed := true, cancelled := true, connected := false)])
  {
    hide Leads, Inv;
    InvIsShaped(m);
    var steps;
    Stay(m);
    steps, n := Go(m, [], m, Remove(a));
    steps, n := Go(m, steps, n, StopConn(a));
    steps, n := Go(m, steps, n, CancelConn(a));
    assert steps == [Remove(a), StopConn(a), CancelConn(a)];
    assert n.conns == m.conns[a := m.conns[a].(closed := true, cancelled := true, connected := false)];
  }

  /** A pump that has left its loop marks its generation and ends. */
  lemma PumpEnds(m: Manager, t: nat) returns (n: Manager)
    requires Inv(m) && t < |m.threads| && m.threads[t].Pump? && m.threads[t].pump.LeftLoop?
    ensures Leads(m, [Act(t, Mark), Act(t, Finish)], n)
    ensures var th := m.threads[t]; var c := m.conns[th.ac];
            n == m.(threads := m.threads[t := th.(pump := Finished)],
                    conns := m.conns[th.ac := c.(connected := c.connected && c.generation != th.gen)])
  {
    hide Leads, Inv;
    InvIsShaped(m);
    var th, c, steps := m.threads[t], m.conns[m.threads[t].ac], [];
    Stay(m);
    var marked := c.(connected := c.connected && c.generation != th.gen);
    steps, n := GoAct(m, [], m, t, Mark, Outcome(th.(pump := Marked), None, marked, false));
    steps, n := GoAct(m, steps, n, t, Finish, Outcome(th.(pump := Finished), None, marked, false));
    assert steps == [Act(t, Mark), Act(t, Finish)];
    assert n.threads == m.threads[t := th.(pump := Finished)];
  }

  /** Once the agent is cancelled or the manager is closing, a reading pump leaves its
      loop without a reconnect and a waiting reconnect is over; one whose options are
      unusable is over as well. */
  lemma CancelledThreadsStop(m: Manager, t: nat, action: Action)
    requires Inv(m) && t < |m.threads| && (action.SeeCancel? || action.Abandon?)
    requires var th := m.threads[t];
             if action.Abandon? then th.Reconnect? && th.phase.Dialing?
             else (m.conns[th.ac].cancelled || m.global) && (if th.Pump? then th.pump.InLoop? else th.phase.Waiting?)
    ensures var th := m.threads[t];
            && Enabled(m, Act(t, action))
            && Do(m, Act(t, action))
               == m.(threads := m.threads[t := if th.Pump? then th.(pump := LeftLoop) else th.(phase := Over)])
  {
    assert m.conns[m.threads[t].ac := m.conns[m.threads[t].ac]] == m.conns;
    assert forall s: seq<Thread> :: s + [] == s;
  }

  /** Nothing but a failed read or being halted makes a pump leave its loop. */
  lemma {:induction false} UndisturbedPumpReadsOn(m: Manager, steps: seq<Step>, t: nat)
    requires Shaped(m) && Runs(m, steps) && t < |m.threads| && m.threads[t].Pump? && m.threads[t].pump.InLoop?
    requires Act(t, FailRead) !in steps
    requires m.threads[t].ac < |End(m, steps).conns| && !Halted(End(m, steps), m.threads[t].ac)
    ensures t < |End(m, steps).threads| && End(m, steps).threads[t] == m.threads[t]
    decreases |steps|
  {
    hide Do, Enabled, Halted;
    if steps == [] {
    } else {
      if Halted(m, m.threads[t].ac) {
        HaltedIsNotRedialled(m, steps, m.threads[t].ac);
      }
      assert steps[0] in steps;
      PumpReadsOn(m, steps[0], t);
      assert forall s | s in steps[1..] :: s in steps;
      UndisturbedPumpReadsOn(Do(m, steps[0]), steps[1..], t);
    }
  }

  lemma PumpReadsOn(m: Manager, step: Step, t: nat)
    requires Shaped(m) && Enabled(m, step) && t < |m.threads| && m.threads[t].Pump? && m.threads[t].pump.InLoop?
    requires step != Act(t, FailRead) && !Halted(m, m.threads[t].ac)
    ensures t < |Do(m, step).threads| && Do(m, step).threads[t] == m.threads[t]
  {
  }

  // ------------------------------------------------------------- live connections

  /** Once the current generation's pump has left its loop, only a reconnect that has
      not installed yet works for the agent; and an open agent that is read from, or
      has just been reconnected, is connected. */
  predicate Live(m: Manager)
    requires Shaped(m)
  {
    && (forall t, u | 0 <= t < |m.threads| && 0 <= u < |m.threads| && m.threads[t].ac == m.threads[u].ac ::
          Apart(m.threads[t], m.threads[u], m.conns[m.threads[t].ac]))
    && (forall t | 0 <= t < |m.threads| :: Up(m.threads[t], m.conns[m.threads[t].ac]))
  }

  predicate Reads(th: Thread) {
    if th.Pump? then th.pump.InLoop? || th.pump.ReadFailed? else th.phase.Installed?
  }

  predicate Apart(left: Thread, th: Thread, c: Conn) {
    left.Pump? && left.gen == c.generation && !Reads(left) ==> !Reads(th)
  }

  predicate Up(th: Thread, c: Conn) {
    Reads(th) && !c.closed ==> c.connected
  }

  /** What an action means for the acting thread. */
  lemma ReactLive(th: Thread, c: Conn, nextGen: Gen, global: bool, action: Action)
    requires Ready(th, c, global, action) && Older(th, nextGen) && Up(th, c) && Apart(th, th, c)
    requires Active(th) ==> Serves(th) == c.generation
    ensures var o := React(th, c, nextGen, global, action);
            && Up(o.thread, o.conn) && (o.spawned.Some? ==> Up(o.spawned.value, o.conn))
            && (o.spawned.Some? && Reads(o.spawned.value) ==> Reads(th) && o.spawned.value.gen == c.generation)
            && (Reads(o.thread) ==> Reads(th) || o.installed)
            && (o.thread.Pump? ==> th.Pump? && o.thread.gen == th.gen)
            && (c.connected && !o.conn.connected ==> Active(th) || (th.Pump? && th.gen == c.generation && !Reads(th)))
  {
  }

  /** The acting thread of a live manager, and what is known of its agent's threads. */
  lemma ActorFacts(m: Manager, t: nat, action: Action)
    requires Inv(m) && Live(m) && Enabled(m, Act(t, action))
    ensures Shaped(m) && t < |m.threads|
    ensures var th := m.threads[t]; var c := m.conns[th.ac]; var o := React(th, c, m.nextGen, m.global, action);
            && Older(th, m.nextGen)
            && o.thread.ac == th.ac && (o.spawned.Some? ==> o.spawned.value.ac == th.ac)
            && o.conn.closed == c.closed && (o.conn.generation == if o.installed then m.nextGen else c.generation)
            && Up(o.thread, o.conn) && (o.spawned.Some? ==> Up(o.spawned.value, o.conn))
            && (o.spawned.Some? && Reads(o.spawned.value) ==> Reads(th) && o.spawned.value.gen == c.generation)
            && (o.spawned.Some? ==> !(o.spawned.value.Pump? && !Reads(o.spawned.value)))
            && (o.spawned.Some? && o.spawned.value.Pump? ==> !o.thread.Pump?)
            && (Reads(o.thread) ==> Reads(th) || o.installed)
            && (o.thread.Pump? ==> th.Pump? && o.thread.gen == th.gen && !o.installed)
            && (c.connected && !o.conn.connected ==> Active(th) || (th.Pump? && th.gen == c.generation && !Reads(th)))
            && (Reads(th) ==> Active(th)) && (o.installed ==> o.conn.connected)
    ensures var th := m.threads[t];
            forall u | 0 <= u < |m.threads| && u != t && m.threads[u].ac == th.ac ::
              && Apart(m.threads[u], th, m.conns[th.ac]) && Apart(th, m.threads[u], m.conns[th.ac])
              && (Active(th) ==> !Reads(m.threads[u])) && Older(m.threads[u], m.nextGen)
  {
    var th, c := m.threads[t], m.conns[m.threads[t].ac];
    assert Older(th, m.nextGen) && Up(th, c) && Apart(th, th, c);
    ReactHandsOver(th, c, m.nextGen, m.global, action);
    ReactLive(th, c, m.nextGen, m.global, action);
    forall u | 0 <= u < |m.threads| && u != t && m.threads[u].ac == th.ac
      ensures Active(th) ==> !Reads(m.threads[u])
    {
      assert Reads(m.threads[u]) ==> Active(m.threads[u]);
    }
  }

  lemma ActKeepsApart(m: Manager, t: nat, action: Action, u: nat, v: nat)
    requires Inv(m) && Live(m) && Enabled(m, Act(t, action)) && Shaped(Do(m, Act(t, action)))
    requires var n := Do(m, Act(t, action)); u < |n.threads| && v < |n.threads| && n.threads[u].ac == n.threads[v].ac
    ensures var n := Do(m, Act(t, action)); Apart(n.threads[u], n.threads[v], n.conns[n.threads[u].ac])
  {
    ActorFacts(m, t, action);
    if u < |m.threads| && v < |m.threads| {
      assert m.threads[u].ac == m.threads[v].ac ==> Apart(m.threads[u], m.threads[v], m.conns[m.threads[u].ac]);
    }
    hide React, Ready, Inv, Live;
  }

  lemma ActKeepsUp(m: Manager, t: nat, action: Action, u: nat)
    requires Inv(m) && Live(m) && Enabled(m, Act(t, action)) && Shaped(Do(m, Act(t, action)))
    requires u < |Do(m, Act(t, action)).threads|
    ensures var n := Do(m, Act(t, action)); Up(n.threads[u], n.conns[n.threads[u].ac])
  {
    ActorFacts(m, t, action);
    assert u < |m.threads| ==> Up(m.threads[u], m.conns[m.threads[u].ac]);
    hide React, Ready, Inv, Live;
  }

  lemma ActKeepsLive(m: Manager, t: nat, action: Action)
    requires Inv(m) && Live(m) && Enabled(m, Act(t, action)) && Shaped(Do(m, Act(t, action)))
    ensures Live(Do(m, Act(t, action)))
  {
    hide Inv, Do, Enabled, Apart, Up;
    InvIsShaped(m);
    var n := Do(m, Act(t, action));
    forall u, v | 0 <= u < |n.threads| && 0 <= v < |n.threads| && n.threads[u].ac == n.threads[v].ac
      ensures Apart(n.threads[u], n.threads[v], n.conns[n.threads[u].ac])
    {
      ActKeepsApart(m, t, action, u, v);
    }
    forall u | 0 <= u < |n.threads|
      ensures Up(n.threads[u], n.conns[n.threads[u].ac])
    {
      ActKeepsUp(m, t, action, u);
    }
  }

  lemma OtherKeepsPair(m: Manager, step: Step, u: nat, v: nat)
    requires Inv(m) && Live(m) && Enabled(m, step) && !step.Act? && Shaped(Do(m, step))
    requires var n := Do(m, step); u < |n.threads| && v < |n.threads| && n.threads[u].ac == n.threads[v].ac
    ensures var n := Do(m, step);
            Apart(n.threads[u], n.threads[v], n.conns[n.threads[u].ac]) && Up(n.threads[u], n.conns[n.threads[u].ac])
  {
    InvIsShaped(m);
    if u < |m.threads| && v < |m.threads| {
      assert Apart(m.threads[u], m.threads[v], m.conns[m.threads[u].ac]) && Up(m.threads[u], m.conns[m.threads[u].ac]);
    }
    hide Inv, Live, Taken;
  }

  lemma OtherKeepsLive(m: Manager, step: Step)
    requires Inv(m) && Live(m) && Enabled(m, step) && !step.Act? && Shaped(Do(m, step))
    ensures Live(Do(m, step))
  {
    hide Inv, Do, Enabled, Apart, Up;
    InvIsShaped(m);
    var n := Do(m, step);
    forall u, v | 0 <= u < |n.threads| && 0 <= v < |n.threads| && n.threads[u].ac == n.threads[v].ac
      ensures Apart(n.threads[u], n.threads[v], n.conns[n.threads[u].ac]) && Up(n.threads[u], n.conns[n.threads[u].ac])
    {
      OtherKeepsPair(m, step, u, v);
    }
    assert forall u | 0 <= u < |n.threads| :: Up(n.threads[u], n.conns[n.threads[u].ac]);
  }

  lemma {:induction false} RunKeepsLive(m: Manager, steps: seq<Step>)
    requires Inv(m) && Live(m) && Runs(m, steps)
    ensures Inv(End(m, steps)) && Live(End(m, steps))
    decreases |steps|
  {
    if steps == [] {
    } else {
      if steps[0].Act? {
        ActKeepsLive(m, steps[0].t, steps[0].action);
      } else {
        OtherKeepsLive(m, steps[0]);
      }
      StepKeepsInv(m, steps[0]);
      RunKeepsLive(Do(m, steps[0]), steps[1..]);
    }
    hide Inv, Live, Do, Enabled;
  }

  /** In every interleaving, an open agent with a pump in its loop can be sent to, over
      exactly that pump's generation; an agent can be sent to exactly while connected. */
  lemma ReadFromMeansConnected(steps: seq<Step>, t: nat)
    requires Runs(Idle(), steps) && t < |End(Idle(), steps).threads|
    requires End(Idle(), steps).threads[t].Pump? && End(Idle(), steps).threads[t].pump.InLoop?
    ensures var m := End(Idle(), steps); var th := m.threads[t]; var c := m.conns[th.ac];
            && c.generation == th.gen && c.connected == !c.closed
            && Current(c) == if c.closed then None else Some(th.gen)
  {
    RunKeepsLive(Idle(), steps);
    var m := End(Idle(), steps);
    assert Up(m.threads[t], m.conns[m.threads[t].ac]) && Active(m.threads[t]);
  }

  // ----------------------------------------------------- messages and new agents

  /** In every interleaving, what a message changes: the time of the agent it came
      from, and unless that is closed, each name it is not silent about. */
  lemma MessageUpdates(steps: seq<Step>, t: nat, u: Update)
    requires Runs(Idle(), steps) && Enabled(End(Idle(), steps), Act(t, Receive(u)))
    ensures var m := End(Idle(), steps); var a := m.threads[t].ac; var c := m.conns[a];
            var n := Do(m, Act(t, Receive(u))); var after := n.conns[a].info;
            && n == m.(conns := m.conns[a := c.(info := after)])
            && after.lastSeen == (if u.Seen? then u.now else c.info.lastSeen)
            && (c.closed || u.Seen? ==> after == c.info.(lastSeen := after.lastSeen))
            && (!c.closed && !u.Seen? ==>
                  && after.name == (if u.hostname == "" then c.info.name else u.hostname)
                  && after.os == (if u.os == "" then c.info.os else u.os)
                  && after.arch == (if u.arch == "" then c.info.arch else u.arch)
                  && after.system == (if u.System? then Some(u.info) else c.info.system))
  {
    hide Runs, End;
    RunKeepsInv(Idle(), steps);
    var m := End(Idle(), steps);
    assert Active(m.threads[t]);
    assert forall s: seq<Thread> :: s + [] == s;
    assert m.threads[t := m.threads[t]] == m.threads;
  }

  /** A connect looks at every listed agent that is not connected to its endpoint. */
  lemma {:induction false} LooksThrough(m: Manager, steps: seq<Step>, now: Manager) returns (more: seq<Step>)
    requires Leads(m, steps, now) && Shaped(now) && now.scan.Some? && !Taken(now, now.scan.value.endpoint)
    ensures Leads(m, more, now.(scan := Some(now.scan.value.(todo := {}))))
    decreases if now.scan.Some? then |now.scan.value.todo| else 0
  {
    hide Leads;
    if now.scan.value.todo == {} {
      more := steps;
    } else {
      var a :| a in now.scan.value.todo;
      var next;
      more, next := Go(m, steps, now, Look(a));
      assert next == now.(scan := Some(now.scan.value.(todo := now.scan.value.todo - {a})));
      assert Taken(next, now.scan.value.endpoint) == Taken(now, now.scan.value.endpoint);
      more := LooksThrough(m, more, next);
    }
  }

  /** From any reachable state, a connect to an endpoint that no connected agent has
      adds an agent of its own, connected, listed and read from; or nothing, once the
      manager is closing. */
  lemma ConnectAdds(m: Manager, e: Endpoint, info: Info) returns (steps: seq<Step>, n: Manager)
    requires Inv(m) && m.scan.None? && !Taken(m, e)
    ensures Leads(m, steps, n)
    ensures var a := |m.conns|;
            if m.global then n == m
            else
              && n.conns == m.conns + [Conn(m.nextGen, true, false, false, info)] && n.endpoints == m.endpoints + [e]
              && n.listed == m.listed + {a} && n.threads == m.threads + [Pump(a, m.nextGen, InLoop)]
              && Current(n.conns[a]) == Some(m.nextGen) && n.scan.None?
  {
    hide Leads, Inv;
    InvIsShaped(m);
    var now;
    Stay(m);
    steps, now := Go(m, [], m, BeginConnect(e, info));
    assert Taken(now, e) == Taken(m, e);
    steps := LooksThrough(m, steps, now);
    steps, n := Go(m, steps, now.(scan := Some(now.scan.value.(todo := {}))), Insert);
  }

  /** One that finds a connected agent with its endpoint changes nothing. */
  lemma ConnectFinds(m: Manager, e: Endpoint, info: Info, a: nat) returns (n: Manager)
    requires Inv(m) && m.scan.None? && a in m.listed && m.endpoints[a] == e && m.conns[a].connected
    ensures Leads(m, [BeginConnect(e, info), Look(a)], n) && n == m
  {
    hide Leads, Inv;
    InvIsShaped(m);
    var steps;
    Stay(m);
    steps, n := Go(m, [], m, BeginConnect(e, info));
    steps, n := Go(m, steps, n, Look(a));
    assert steps == [BeginConnect(e, info), Look(a)];
  }

  /** Once the manager is closing, no run adds an agent any more, and every agent is halted. */
  lemma {:induction false} NoAgentsAfterClosing(m: Manager, steps: seq<Step>)
    requires Shaped(m) && Runs(m, steps) && (m.global || (steps != [] && steps[0] == CancelAll))
    ensures |End(m, steps).conns| == |m.conns| && End(m, steps).listed <= m.listed
    ensures forall a | 0 <= a < |End(m, steps).conns| :: Halted(End(m, steps), a)
    ensures End(m, steps).global
    decreases |steps|
  {
    hide Do, Enabled;
    if steps == [] {
    } else {
      ClosingAddsNone(m, steps[0]);
      NoAgentsAfterClosing(Do(m, steps[0]), steps[1..]);
    }
  }

  lemma ClosingAddsNone(m: Manager, step: Step)
    requires Shaped(m) && Enabled(m, step) && (m.global || step == CancelAll)
    ensures var n := Do(m, step); |n.conns| == |m.conns| && n.global && n.listed <= m.listed
  {
    hide React, Ready;
  }
}
